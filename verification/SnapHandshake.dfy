/**
 Two processes on one volume: one drains and sweeps chunks, the other takes
 snapshots. They meet only in the backend: the live checkpoint, the snapshot
 marker, and the snapshots a scan can see.
 */
module SnapHandshake {
  import opened Bytes

  /** A snapshot writes its marker, freezes the map its process holds, then becomes visible to scans. */
  datatype Snapshot =
    | Marked
    | Frozen(ids: set<nat>)
    | Visible(ids: set<nat>)
  {
    function Refers(): set<nat>
    {
      if Marked? then {} else ids
    }
  }

  datatype Stage =
    | Idle
    | Selected(candidates: set<nat>)
    | Cleared(candidates: set<nat>)
  {
    function Doomed(): set<nat>
    {
      if Idle? then {} else candidates
    }
  }

  /** Markers carry a fresh token per snapshot; None is the absent marker. */
  datatype State = State(
    mapped: set<nat>,
    live: set<nat>,
    objectNum: nat,
    present: set<nat>,
    marker: Option<nat>,
    baseline: Option<Option<nat>>,
    known: set<nat>,             // snapshots already marked when the baseline was read
    safe: Option<bool>,          // the cached answer of the scan
    latched: bool,
    stage: Stage,
    held: map<nat, set<nat>>,    // the map each snapshotting process has read
    early: set<nat>,             // of these, the ones read before the process wrote its marker
    snapshots: map<nat, Snapshot>)

  datatype Step =
    | Upload(kept: set<nat>)
    | SaveLive
    | ReadBaseline
    | Scan
    | Select(candidates: set<nat>)
    | CheckMarker
    | Delete(id: nat)
    | EndSweep
    | ReadMap(n: nat)
    | Mark(n: nat)
    | Freeze(n: nat)
    | Show(n: nat)

  ghost predicate SomeVisible(s: State)
  {
    exists n :: n in s.snapshots && s.snapshots[n].Visible?
  }

  ghost predicate NextStep(s: State, t: State, step: Step)
  {
    match step
    case Upload(kept) =>
      && kept <= s.mapped
      && t == s.(mapped := kept + {s.objectNum}, present := s.present + {s.objectNum}, objectNum := s.objectNum + 1)
    case SaveLive =>
      t == s.(live := s.mapped)
    case ReadBaseline =>
      && s.safe.None?
      && t == s.(baseline := Some(s.marker), known := s.snapshots.Keys)
    case Scan =>
      && s.safe.None? && s.baseline.Some?
      && t == s.(safe := Some(!SomeVisible(s)))
    case Select(candidates) =>
      && s.stage.Idle? && s.safe == Some(true) && !s.latched
      && candidates !! s.mapped && (forall id :: id in candidates ==> id < s.objectNum)
      && t == s.(stage := Selected(candidates))
    case CheckMarker =>
      && s.stage.Selected? && s.baseline.Some?
      && t == if s.marker == s.baseline.value then s.(stage := Cleared(s.stage.candidates))
          else s.(stage := Idle, latched := true)
    case Delete(id) =>
      && s.stage.Cleared? && id in s.stage.candidates
      && t == s.(present := s.present - {id})
    case EndSweep =>
      t == s.(stage := Idle)
    case ReadMap(n) =>
      t == s.(held := s.held[n := s.live], early := if n in s.snapshots then s.early - {n} else s.early + {n})
    case Mark(n) =>
      && n !in s.snapshots
      && t == s.(marker := Some(n), snapshots := s.snapshots[n := Marked])
    case Freeze(n) =>
      && n in s.snapshots && s.snapshots[n].Marked? && n in s.held
      && t == s.(snapshots := s.snapshots[n := Frozen(s.held[n])])
    case Show(n) =>
      && n in s.snapshots && s.snapshots[n].Frozen?
      && t == s.(snapshots := s.snapshots[n := Visible(s.snapshots[n].ids)])
  }

  ghost predicate Init(s: State)
  {
    s == State({}, {}, 0, {}, None, None, {}, None, false, Idle, map[], {}, map[])
  }

  /** Every snapshot marked before the baseline was read has become visible by the time of the scan. */
  ghost predicate NoneInFlight(s: State)
  {
    forall n :: n in s.known && n in s.snapshots ==> s.snapshots[n].Visible?
  }

  /**
   The scan misses no snapshot in flight, candidates are chosen against the map just
   checkpointed, and a snapshot freezes a map that was read after its marker was written.
   */
  ghost predicate Orderly(s: State, step: Step)
  {
    && (step.Scan? ==> NoneInFlight(s))
    && (step.Select? ==> s.live == s.mapped)
    && (step.Freeze? ==> step.n !in s.early)
  }

  // ----- The invariant -----

  ghost predicate MapsOk(s: State)
  {
    && s.mapped <= s.present && s.live <= s.present
    && (forall id :: id in s.mapped || id in s.live ==> id < s.objectNum)
  }

  /** Doomed chunks have left the map for good. */
  ghost predicate DoomedOk(s: State)
  {
    && s.stage.Doomed() !! s.mapped && s.stage.Doomed() !! s.live
    && (forall id :: id in s.stage.Doomed() ==> id < s.objectNum)
  }

  /** A safe answer means no snapshot was known, so an unmoved marker means there is none at all. */
  ghost predicate MarkerOk(s: State)
  {
    && (s.marker.Some? ==> s.marker.value in s.snapshots)
    && (s.baseline.Some? ==> s.known <= s.snapshots.Keys)
    && (s.baseline.Some? && s.marker == s.baseline.value ==> s.snapshots.Keys == s.known)
    && (s.baseline.Some? && s.baseline.value.Some? ==> s.baseline.value.value in s.known)
    && (s.safe == Some(true) ==> s.baseline.Some? && s.known == {})
    && (!s.stage.Idle? ==> s.safe == Some(true))
  }

  ghost predicate SnapshotsOk(s: State)
  {
    forall n :: n in s.snapshots ==>
      && s.snapshots[n].Refers() <= s.present
      && (s.stage.Cleared? ==> s.snapshots[n].Refers() !! s.stage.candidates)
  }

  /** A map read after the marker is as safe as the snapshot it will become. */
  ghost predicate HeldOk(s: State)
  {
    forall n :: n in s.held && n !in s.early ==>
      && n in s.snapshots && s.held[n] <= s.present
      && (s.stage.Cleared? ==> s.held[n] !! s.stage.candidates)
  }

  ghost predicate Inv(s: State)
  {
    MapsOk(s) && DoomedOk(s) && MarkerOk(s) && SnapshotsOk(s) && HeldOk(s)
  }

  lemma NextInv(s: State, t: State, step: Step)
    requires Inv(s) && NextStep(s, t, step) && Orderly(s, step)
    ensures Inv(t)
  {
  }

  // ----- Whole runs -----

  ghost predicate Follows(run: seq<State>, steps: seq<Step>)
  {
    && |run| == |steps| + 1
    && forall i :: 0 <= i < |steps| ==> NextStep(run[i], run[i + 1], steps[i])
  }

  lemma {:induction false} RunInv(run: seq<State>, steps: seq<Step>, i: nat)
    requires Follows(run, steps) && Init(run[0]) && i < |run|
    requires forall k :: 0 <= k < |steps| ==> Orderly(run[k], steps[k])
    ensures Inv(run[i])
  {
    if i != 0 {
      RunInv(run, steps, i - 1);
      NextInv(run[i - 1], run[i], steps[i - 1]);
    }
  }

  // ----- What a run's steps alone say -----

  /** The ids uploads have used: each takes the next. */
  ghost function Uploads(past: seq<Step>): nat
  {
    if |past| == 0 then 0
    else Uploads(past[..|past| - 1]) + if past[|past| - 1].Upload? then 1 else 0
  }

  ghost function MapAfter(past: seq<Step>): set<nat>
  {
    if |past| == 0 then {}
    else
      var before := past[..|past| - 1];
      match past[|past| - 1]
      case Upload(kept) => kept + {Uploads(before)}
      case _ => MapAfter(before)
  }

  ghost function LiveAfter(past: seq<Step>): set<nat>
  {
    if |past| == 0 then {}
    else if past[|past| - 1].SaveLive? then MapAfter(past[..|past| - 1])
    else LiveAfter(past[..|past| - 1])
  }

  ghost function PresentAfter(past: seq<Step>): set<nat>
  {
    if |past| == 0 then {}
    else
      var before := past[..|past| - 1];
      match past[|past| - 1]
      case Upload(_) => PresentAfter(before) + {Uploads(before)}
      case Delete(id) => PresentAfter(before) - {id}
      case _ => PresentAfter(before)
  }

  ghost function MarkerAfter(past: seq<Step>): Option<nat>
  {
    if |past| == 0 then None
    else
      match past[|past| - 1]
      case Mark(n) => Some(n)
      case _ => MarkerAfter(past[..|past| - 1])
  }

  ghost function BaselineAfter(past: seq<Step>): Option<Option<nat>>
  {
    if |past| == 0 then None
    else if past[|past| - 1].ReadBaseline? then Some(MarkerAfter(past[..|past| - 1]))
    else BaselineAfter(past[..|past| - 1])
  }

  ghost function StageAfter(past: seq<Step>): Stage
  {
    if |past| == 0 then Idle
    else
      var before := past[..|past| - 1];
      match past[|past| - 1]
      case Select(candidates) => Selected(candidates)
      case CheckMarker =>
        if Some(MarkerAfter(before)) == BaselineAfter(before) then Cleared(StageAfter(before).Doomed()) else Idle
      case EndSweep => Idle
      case _ => StageAfter(before)
  }

  /** The live checkpoint as it stood when the snapshot's process last read it. */
  ghost function ReadBy(past: seq<Step>, n: nat): Option<set<nat>>
  {
    if |past| == 0 then None
    else if past[|past| - 1] == ReadMap(n) then Some(LiveAfter(past[..|past| - 1]))
    else ReadBy(past[..|past| - 1], n)
  }

  /** What the snapshot froze: what its process had last read by then. */
  ghost function FrozenBy(past: seq<Step>, n: nat): Option<set<nat>>
  {
    if |past| == 0 then None
    else if past[|past| - 1] == Freeze(n) then ReadBy(past[..|past| - 1], n)
    else FrozenBy(past[..|past| - 1], n)
  }

  ghost function PhaseBy(past: seq<Step>, n: nat): Option<Snapshot>
  {
    if Mark(n) !in past then None
    else
      match FrozenBy(past, n)
      case None => Some(Marked)
      case Some(ids) => Some(if Show(n) in past then Visible(ids) else Frozen(ids))
  }

  ghost predicate ChunksAre(s: State, past: seq<Step>)
  {
    && s.mapped == MapAfter(past) && s.live == LiveAfter(past) && s.objectNum == Uploads(past)
    && s.present == PresentAfter(past)
  }

  ghost predicate SweepIs(s: State, past: seq<Step>)
  {
    s.marker == MarkerAfter(past) && s.baseline == BaselineAfter(past) && s.stage == StageAfter(past)
  }

  ghost predicate ReadIs(s: State, past: seq<Step>)
  {
    forall n :: (if n in s.held then Some(s.held[n]) else None) == ReadBy(past, n)
  }

  ghost predicate PhaseIs(s: State, past: seq<Step>, n: nat)
  {
    && (FrozenBy(past, n).Some? ==> Mark(n) in past) && (Show(n) in past ==> FrozenBy(past, n).Some?)
    && (if n in s.snapshots then Some(s.snapshots[n]) else None) == PhaseBy(past, n)
  }

  lemma Unsnoc(past: seq<Step>, step: Step)
    ensures (past + [step])[..|past|] == past && (past + [step])[|past|] == step
    ensures forall other :: other in past + [step] <==> other in past || other == step
  {
  }

  lemma ChunksStep(s: State, t: State, past: seq<Step>, step: Step)
    requires ChunksAre(s, past) && NextStep(s, t, step)
    ensures ChunksAre(t, past + [step])
  {
    hide SomeVisible;
    Unsnoc(past, step);
  }

  lemma SweepStep(s: State, t: State, past: seq<Step>, step: Step)
    requires SweepIs(s, past) && NextStep(s, t, step)
    ensures SweepIs(t, past + [step])
  {
    hide SomeVisible;
    Unsnoc(past, step);
  }

  lemma ReadStep(s: State, t: State, past: seq<Step>, step: Step)
    requires ChunksAre(s, past) && ReadIs(s, past) && NextStep(s, t, step)
    ensures ReadIs(t, past + [step])
  {
    hide SomeVisible, LiveAfter, MapAfter, PresentAfter, Uploads;
    Unsnoc(past, step);
    forall n ensures (if n in t.held then Some(t.held[n]) else None) == ReadBy(past + [step], n) {
      assert (if n in s.held then Some(s.held[n]) else None) == ReadBy(past, n);
    }
  }

  lemma PhaseStep(s: State, t: State, past: seq<Step>, step: Step, n: nat)
    requires ReadIs(s, past) && PhaseIs(s, past, n) && NextStep(s, t, step)
    ensures PhaseIs(t, past + [step], n)
  {
    hide SomeVisible, ReadBy;
    Unsnoc(past, step);
    assert (if n in s.held then Some(s.held[n]) else None) == ReadBy(past, n);
  }

  /** Every state of a run is what its steps make it. */
  lemma {:induction false} HistoryIs(run: seq<State>, steps: seq<Step>, i: nat)
    requires Follows(run, steps) && Init(run[0]) && i < |run|
    ensures ChunksAre(run[i], steps[..i]) && SweepIs(run[i], steps[..i])
    ensures ReadIs(run[i], steps[..i]) && forall n :: PhaseIs(run[i], steps[..i], n)
  {
    hide ChunksAre, SweepIs, ReadIs, PhaseIs, NextStep;
    if i == 0 {
      HistoryStarts(run[0]);
    } else {
      HistoryIs(run, steps, i - 1);
      var past, step := steps[..i - 1], steps[i - 1];
      assert steps[..i] == past + [step];
      ChunksStep(run[i - 1], run[i], past, step);
      SweepStep(run[i - 1], run[i], past, step);
      ReadStep(run[i - 1], run[i], past, step);
      forall n ensures PhaseIs(run[i], steps[..i], n) {
        PhaseStep(run[i - 1], run[i], past, step, n);
      }
    }
  }

  lemma HistoryStarts(s: State)
    requires Init(s)
    ensures ChunksAre(s, []) && SweepIs(s, []) && ReadIs(s, []) && forall n :: PhaseIs(s, [], n)
  {
  }

  /**
   No interleaving of sweeps and snapshots deletes a chunk that a snapshot, the map or
   the live checkpoint refers to: said of the steps taken, and so of the states.
   */
  lemma SnapshotsKeepTheirChunks(run: seq<State>, steps: seq<Step>, i: nat, n: nat)
    requires Follows(run, steps) && Init(run[0]) && i < |run|
    requires forall k :: 0 <= k < |steps| ==> Orderly(run[k], steps[k])
    ensures FrozenBy(steps[..i], n).Some? ==> FrozenBy(steps[..i], n).value <= PresentAfter(steps[..i])
    ensures MapAfter(steps[..i]) <= PresentAfter(steps[..i]) && LiveAfter(steps[..i]) <= PresentAfter(steps[..i])
    ensures n in run[i].snapshots ==> run[i].snapshots[n].Refers() <= run[i].present
    ensures run[i].mapped <= run[i].present && run[i].live <= run[i].present
  {
    RunInv(run, steps, i);
    HistoryIs(run, steps, i);
    assert PhaseIs(run[i], steps[..i], n);
  }

  /** The process's last reading of the live checkpoint before step i is step k. */
  ghost predicate LastReading(steps: seq<Step>, n: nat, k: int, i: int)
    requires 0 <= i <= |steps|
  {
    0 <= k < i && steps[k] == ReadMap(n) && forall m :: k < m < i ==> steps[m] != ReadMap(n)
  }

  lemma {:induction false} ReadingFound(steps: seq<Step>, n: nat, i: nat)
    requires i <= |steps| && ReadBy(steps[..i], n).Some?
    ensures exists k :: LastReading(steps, n, k, i) && ReadBy(steps[..i], n) == Some(LiveAfter(steps[..k]))
  {
    if i != 0 {
      assert steps[..i][..i - 1] == steps[..i - 1];
      if steps[i - 1] == ReadMap(n) {
        assert LastReading(steps, n, i - 1, i);
      } else {
        ReadingFound(steps, n, i - 1);
        var k :| LastReading(steps, n, k, i - 1) && ReadBy(steps[..i - 1], n) == Some(LiveAfter(steps[..k]));
        assert LastReading(steps, n, k, i);
      }
    }
  }

  lemma {:induction false} RefersForGood(run: seq<State>, steps: seq<Step>, i: nat, j: nat, n: nat)
    requires Follows(run, steps) && i <= j < |run|
    requires n in run[i].snapshots && !run[i].snapshots[n].Marked?
    ensures n in run[j].snapshots && !run[j].snapshots[n].Marked?
    ensures run[j].snapshots[n].Refers() == run[i].snapshots[n].Refers()
    decreases j
  {
    hide SomeVisible;
    if i < j {
      RefersForGood(run, steps, i, j - 1, n);
      assert NextStep(run[j - 1], run[j], steps[j - 1]);
    }
  }

  /**
   From its freeze on a snapshot refers, in every state, to the live checkpoint as it
   stood when the snapshot's process last read it before freezing.
   */
  lemma FrozenForGood(run: seq<State>, steps: seq<Step>, i: nat, j: nat, n: nat)
    requires Follows(run, steps) && Init(run[0]) && i < |steps| && steps[i] == Freeze(n) && i < j < |run|
    ensures n in run[j].snapshots && !run[j].snapshots[n].Marked?
    ensures exists k :: LastReading(steps, n, k, i) && run[j].snapshots[n].Refers() == LiveAfter(steps[..k])
  {
    HistoryIs(run, steps, i);
    assert NextStep(run[i], run[i + 1], steps[i]);
    assert (if n in run[i].held then Some(run[i].held[n]) else None) == ReadBy(steps[..i], n);
    ReadingFound(steps, n, i);
    RefersForGood(run, steps, i + 1, j, n);
  }

  /** Once a sweep finds the marker moved, the process neither selects nor deletes again. */
  lemma {:induction false} MovedMarkerStops(run: seq<State>, steps: seq<Step>, i: nat, j: nat)
    requires Follows(run, steps) && Init(run[0]) && i < j < |run|
    requires steps[i].CheckMarker? && Some(MarkerAfter(steps[..i])) != BaselineAfter(steps[..i])
    ensures run[j].latched && run[j].stage.Idle?
    ensures j < |steps| ==> !steps[j].Select? && !steps[j].CheckMarker? && !steps[j].Delete?
    decreases j
  {
    hide SomeVisible, MarkerAfter, BaselineAfter, StageAfter;
    if i + 1 < j {
      MovedMarkerStops(run, steps, i, j - 1);
    } else {
      HistoryIs(run, steps, i);
    }
    assert NextStep(run[j - 1], run[j], steps[j - 1]);
    if j < |steps| {
      assert NextStep(run[j], run[j + 1], steps[j]);
    }
  }

  // ----- Why all three conditions are needed -----

  /**
   Any snapshot frozen but not yet visible when baseline and scan happen can lose
   any chunk it refers to, and nothing in the handshake stops it.
   */
  lemma InFlightSnapshotLoses(s: State, n: nat, id: nat) returns (run: seq<State>, steps: seq<Step>)
    requires Inv(s) && s.safe.None? && s.baseline == Some(s.marker) && !SomeVisible(s) && s.stage.Idle? && !s.latched
    requires n in s.snapshots && s.snapshots[n].Frozen? && id in s.snapshots[n].ids && id < s.objectNum
    ensures Follows(run, steps) && run[0] == s && |steps| == 6
    ensures forall k :: 1 <= k < 6 ==> Orderly(run[k], steps[k])
    ensures var last := run[6]; n in last.snapshots && !(last.snapshots[n].Refers() <= last.present)
  {
    var kept := s.mapped - {id};
    var s1 := s.(safe := Some(true));
    var s2 := s1.(mapped := kept + {s.objectNum}, present := s.present + {s.objectNum}, objectNum := s.objectNum + 1);
    var s3 := s2.(live := s2.mapped);
    var s4 := s3.(stage := Selected({id}));
    var s5 := s4.(stage := Cleared({id}));
    var s6 := s5.(present := s5.present - {id});
    run := [s, s1, s2, s3, s4, s5, s6];
    steps := [Scan, Upload(kept), SaveLive, Select({id}), CheckMarker, Delete(id)];
    assert NextStep(s3, s4, Select({id}));
    assert NextStep(s5, s6, Delete(id));
  }

  /**
   A drain between the sweep's checkpoint and its selection lets the sweep delete what
   the live checkpoint still needs.
   */
  lemma DisturbedSweepLoses(s: State, id: nat) returns (run: seq<State>, steps: seq<Step>)
    requires Inv(s) && s.safe == Some(true) && s.stage.Idle? && !s.latched && s.baseline == Some(s.marker)
    requires id in s.live
    ensures Follows(run, steps) && run[0] == s && |steps| == 4
    ensures !(run[4].live <= run[4].present)
  {
    var kept := s.mapped - {id};
    var s1 := s.(mapped := kept + {s.objectNum}, present := s.present + {s.objectNum}, objectNum := s.objectNum + 1);
    var s2 := s1.(stage := Selected({id}));
    var s3 := s2.(stage := Cleared({id}));
    var s4 := s3.(present := s3.present - {id});
    run := [s, s1, s2, s3, s4];
    steps := [Upload(kept), Select({id}), CheckMarker, Delete(id)];
    assert NextStep(s1, s2, Select({id}));
    assert NextStep(s3, s4, Delete(id));
  }

  /**
   A process that does not own the log freezes the map it loaded at open. If it loaded
   it before its marker was written, the snapshot can lose any chunk of that map.
   */
  lemma EarlyReadLoses(s: State, n: nat, id: nat) returns (run: seq<State>, steps: seq<Step>)
    requires Inv(s) && s.safe == Some(true) && s.stage.Idle? && !s.latched && s.baseline == Some(s.marker)
    requires n !in s.snapshots && id in s.live
    ensures Follows(run, steps) && run[0] == s && |steps| == 8
    ensures forall k :: 0 <= k < 7 ==> Orderly(run[k], steps[k])
    ensures var last := run[8]; n in last.snapshots && !(last.snapshots[n].Refers() <= last.present)
  {
    assert id < s.objectNum;
    hide MapsOk, DoomedOk, MarkerOk, SnapshotsOk, HeldOk, SomeVisible, NoneInFlight;
    var kept := s.mapped - {id};
    var s1 := s.(held := s.held[n := s.live], early := s.early + {n});
    var s2 := s1.(mapped := kept + {s.objectNum}, present := s.present + {s.objectNum}, objectNum := s.objectNum + 1);
    var s3 := s2.(live := s2.mapped);
    var s4 := s3.(stage := Selected({id}));
    var s5 := s4.(stage := Cleared({id}));
    var s6 := s5.(present := s5.present - {id});
    var s7 := s6.(marker := Some(n), snapshots := s.snapshots[n := Marked]);
    var s8 := s7.(snapshots := s.snapshots[n := Frozen(s.live)]);
    run := [s, s1, s2, s3, s4, s5, s6, s7, s8];
    steps := [ReadMap(n), Upload(kept), SaveLive, Select({id}), CheckMarker, Delete(id), Mark(n), Freeze(n)];
    assert NextStep(s3, s4, Select({id}));
    assert NextStep(s5, s6, Delete(id));
    assert s7.snapshots[n := Frozen(s.live)] == s8.snapshots;
  }
}
