/**
 Chunk garbage collection across checkpoints and process lifetimes, at the level
 of chunk ids. That a tracked chunk outside the map is one whose count is zero is
 proved where the counts are kept.
 */
module Gc {
  import opened Bytes

  datatype State = State(
    mapped: set<nat>,               // chunks the in-memory map points into
    tracked: set<nat>,              // chunks with an entry in gcRefcount
    dirty: bool,
    objectNum: nat,
    floor: Option<nat>,             // cached once read
    floorIds: set<nat>,             // all chunks of the checkpoint the floor was read from
    wallNum: nat,
    startNum: nat,                  // WallNum when this process started
    live: Option<set<nat>>,         // the live checkpoint
    numbered: map<nat, set<nat>>,   // the numbered checkpoints
    savedWallNum: nat,              // WallNum and ObjectNum in the saved configuration
    savedObjectNum: nat,
    present: set<nat>)              // chunks on the backend

  datatype Step =
    | Upload(published: bool, kept: set<nat>)
    | UploadFails
    | SaveLive
    | SaveNumbered
    | SaveConfig
    | ReadFloor(floor: nat)
    | Reconcile
    | Sweep(refused: set<nat>)
    | Reopen(past: nat)

  /** n is one past the highest id of a checkpoint. */
  ghost predicate OnePast(ids: set<nat>, n: nat)
  {
    (forall id :: id in ids ==> id < n) && (n == 0 || n - 1 in ids)
  }

  lemma {:induction false} OnePastExists(ids: set<nat>) returns (n: nat)
    ensures OnePast(ids, n)
    decreases |ids|
  {
    if ids == {} {
      n := 0;
    } else {
      var id :| id in ids;
      var m := OnePastExists(ids - {id});
      n := if id < m then m else id + 1;
      assert forall x :: x in ids && x != id ==> x in ids - {id};
    }
  }

  function Max(a: nat, b: nat): nat
  {
    if a < b then b else a
  }

  function Numbered(s: State, n: nat): set<nat>
  {
    if n in s.numbered then s.numbered[n] else {}
  }

  /** The checkpoint a new process falls back to when there is no live one. */
  function Fallback(s: State): set<nat>
  {
    Numbered(s, s.savedWallNum)
  }

  function Live(s: State): set<nat>
  {
    if s.live.Some? then s.live.value else {}
  }

  function Loaded(s: State): set<nat>
  {
    if s.live.Some? then s.live.value else Fallback(s)
  }

  function Candidates(s: State): set<nat>
    requires s.floor.Some?
  {
    set id | id in s.tracked && id !in s.mapped && s.floor.value <= id < s.objectNum
  }

  ghost predicate NextStep(s: State, t: State, step: Step)
  {
    match step
    case Upload(published, kept) =>
      // the run may fracture older runs away, and a stale chunk is tracked but not mapped
      && kept <= s.mapped && (!published ==> kept == s.mapped)
      && t == s.(mapped := if published then kept + {s.objectNum} else kept,
                 tracked := s.tracked + s.mapped + {s.objectNum},
                 present := s.present + {s.objectNum}, objectNum := s.objectNum + 1, dirty := true)
    case UploadFails =>
      t == s.(objectNum := s.objectNum + 1)
    case SaveLive =>
      t == if s.dirty then s.(live := Some(s.mapped), dirty := false) else s
    case SaveNumbered =>
      t == s.(numbered := s.numbered[s.wallNum := s.mapped], wallNum := s.wallNum + 1)
    case SaveConfig =>
      t == s.(savedWallNum := s.wallNum, savedObjectNum := s.objectNum)
    case ReadFloor(floor) =>
      // the floor comes from the checkpoint numbered with the current WallNum
      && s.floor.None? && OnePast(Numbered(s, s.wallNum), floor)
      && t == s.(floor := Some(floor), floorIds := Numbered(s, s.wallNum))
    case Reconcile =>
      t == s.(tracked := s.tracked + s.present)
    case Sweep(refused) =>
      // runs only right after a drain whose checkpoint was saved
      && !s.dirty && s.floor.Some?
      && t == s.(present := s.present - (Candidates(s) - refused), tracked := s.tracked - (Candidates(s) - refused))
    case Reopen(past) =>
      && OnePast(Loaded(s), past)
      && t == s.(mapped := Loaded(s), tracked := Loaded(s), dirty := false, objectNum := Max(s.savedObjectNum, past),
                 floor := None, floorIds := {}, wallNum := s.savedWallNum, startNum := s.savedWallNum)
  }

  const START := State({}, {}, false, 0, None, {}, 0, 0, None, map[], 0, 0, {})

  ghost predicate Follows(run: seq<State>, steps: seq<Step>)
  {
    |run| == |steps| + 1 && forall i :: 0 <= i < |steps| ==> NextStep(run[i], run[i + 1], steps[i])
  }

  ghost predicate IsRun(run: seq<State>, steps: seq<Step>)
  {
    Follows(run, steps) && run[0] == START
  }

  /** A new process can always start, and the floor can always be read: each checkpoint has its next id. */
  lemma AlwaysEnabled(s: State) returns (reopened: State, past: nat, floored: State, floor: nat)
    ensures NextStep(s, reopened, Reopen(past))
    ensures s.floor.None? ==> NextStep(s, floored, ReadFloor(floor))
  {
    past := OnePastExists(Loaded(s));
    floor := OnePastExists(Numbered(s, s.wallNum));
    reopened := s.(mapped := Loaded(s), tracked := Loaded(s), dirty := false, objectNum := Max(s.savedObjectNum, past),
                   floor := None, floorIds := {}, wallNum := s.savedWallNum, startNum := s.savedWallNum);
    floored := s.(floor := Some(floor), floorIds := Numbered(s, s.wallNum));
  }

  // ----- What holds whatever the order of steps -----

  /** The chunks the map, the live checkpoint and the checkpoint the floor was read from point into. */
  function Needed(s: State): set<nat>
  {
    s.mapped + Live(s) + s.floorIds
  }

  ghost predicate IdsBelow(ids: set<nat>, n: nat)
  {
    forall id :: id in ids ==> id < n
  }

  /** The live checkpoint never lags behind the map unless the map is marked dirty. */
  ghost predicate InvIds(s: State)
  {
    && IdsBelow(s.mapped + Live(s), s.objectNum)
    && (!s.dirty && s.live.Some? ==> s.live.value == s.mapped)
    && (forall id :: id in s.floorIds ==> s.floor.Some? && id < s.floor.value)
  }

  lemma NextInvIds(s: State, t: State, step: Step)
    requires InvIds(s) && NextStep(s, t, step)
    ensures InvIds(t)
  {
    hide Candidates, Numbered;
    if step.Reopen? {
      assert t.mapped + Live(t) == Loaded(s) && IdsBelow(Loaded(s), step.past) && step.past <= t.objectNum;
    } else if step.Upload? {
      assert t.mapped + Live(t) <= s.mapped + Live(s) + {s.objectNum};
    } else {
      assert t.mapped + Live(t) <= s.mapped + Live(s) && t.objectNum >= s.objectNum;
    }
  }

  lemma {:induction false} RunInvIds(run: seq<State>, steps: seq<Step>, i: nat)
    requires IsRun(run, steps) && i < |run|
    ensures InvIds(run[i])
  {
    if i != 0 {
      RunInvIds(run, steps, i - 1);
      NextInvIds(run[i - 1], run[i], steps[i - 1]);
    }
  }

  /**
   Whatever earlier lifetimes left behind, no step deletes a chunk the map, the
   live checkpoint or the floor's checkpoint needs before or after it, and no
   upload takes the id of one the map or the live checkpoint points into.
   */
  lemma NothingNeededGoes(run: seq<State>, steps: seq<Step>, i: nat)
    requires IsRun(run, steps) && i < |steps|
    ensures run[i].present - run[i + 1].present !! Needed(run[i]) + Needed(run[i + 1])
    ensures steps[i].Upload? ==> run[i].objectNum !in run[i].mapped + Live(run[i])
  {
    RunInvIds(run, steps, i);
    RunInvIds(run, steps, i + 1);
    if steps[i].Sweep? {
      assert Needed(run[i + 1]) == Needed(run[i]);
      assert run[i].present - run[i + 1].present <= Candidates(run[i]);
    }
  }

  // ----- What the order of saves and sweeps adds -----

  /**
   A numbered checkpoint is written directly after the configuration that names
   it, and a process that has written one sweeps no more.
   */
  predicate Orderly(s: State, step: Step)
  {
    && (step.SaveNumbered? ==> s.savedWallNum == s.wallNum && s.savedObjectNum == s.objectNum)
    && (step.Sweep? ==> s.wallNum == s.startNum)
  }

  ghost predicate NumbersOk(s: State)
  {
    && (forall n :: n in s.numbered ==> n <= s.savedWallNum)
    && s.startNum <= s.wallNum && s.savedWallNum <= s.wallNum <= s.savedWallNum + 1
    && (s.wallNum == s.startNum ==> s.savedWallNum == s.wallNum && (s.floor.Some? ==> s.floorIds == Fallback(s)))
  }

  ghost predicate KeptOk(s: State)
  {
    && Needed(s) + Fallback(s) <= s.present
    && (forall id :: id in s.floorIds ==> id < s.objectNum)
    && (forall id :: id in Fallback(s) ==> id < s.savedObjectNum)
    && s.savedObjectNum <= s.objectNum
  }

  ghost predicate Inv(s: State)
  {
    InvIds(s) && NumbersOk(s) && KeptOk(s)
  }

  lemma NextInv(s: State, t: State, step: Step)
    requires Inv(s) && NextStep(s, t, step) && Orderly(s, step)
    ensures Inv(t)
  {
    if step.Sweep? {
      assert Needed(t) == Needed(s) && Fallback(t) == Fallback(s);
      assert Candidates(s) !! Needed(s) + Fallback(s);
    }
  }

  lemma {:induction false} RunInv(run: seq<State>, steps: seq<Step>, i: nat)
    requires IsRun(run, steps) && i < |run| && forall k :: 0 <= k < i ==> Orderly(run[k], steps[k])
    ensures Inv(run[i])
  {
    if i != 0 {
      RunInv(run, steps, i - 1);
      NextInv(run[i - 1], run[i], steps[i - 1]);
    }
  }

  // ----- When there is a fallback -----

  /** What has become of the last numbered checkpoint. */
  datatype Standing = Never | Written | Loadable | Unnamed

  /** A configuration saved behind it by the same process names the next number, which is absent. */
  function StandingAt(steps: seq<Step>, i: nat): Standing
    requires i <= |steps|
  {
    if i == 0 then Never
    else
      var before := StandingAt(steps, i - 1);
      match steps[i - 1]
      case SaveNumbered => Written
      case SaveConfig => if before.Written? then Unnamed else before
      case Reopen(_) => if before.Written? then Loadable else before
      case _ => before
  }

  /** The map the last numbered checkpoint was written from. */
  function LastNumbered(run: seq<State>, steps: seq<Step>, i: nat): Option<set<nat>>
    requires |run| == |steps| + 1 && i <= |steps|
  {
    if i == 0 then None
    else if steps[i - 1].SaveNumbered? then Some(run[i - 1].mapped)
    else LastNumbered(run, steps, i - 1)
  }

  /**
   The fallback is the last numbered map, from its writing on until the process that
   wrote it saves its configuration once more; otherwise there is none.
   */
  lemma {:induction false} FallbackExact(run: seq<State>, steps: seq<Step>, i: nat)
    requires IsRun(run, steps) && i < |run| && forall k :: 0 <= k < i ==> Orderly(run[k], steps[k])
    ensures var s, standing := run[i], StandingAt(steps, i);
            && (s.savedWallNum in s.numbered <==> standing.Written? || standing.Loadable?)
            && (standing.Written? || standing.Loadable? ==> Some(Fallback(s)) == LastNumbered(run, steps, i))
            && s.wallNum == (if standing.Written? then s.savedWallNum + 1 else s.savedWallNum)
            && forall n :: n in s.numbered ==> n <= s.savedWallNum
  {
    if i != 0 {
      FallbackExact(run, steps, i - 1);
      assert NextStep(run[i - 1], run[i], steps[i - 1]);
    }
  }

  /**
   Over all lifetimes of an orderly run the map, the live checkpoint, the
   checkpoint the floor was read from and the fallback keep all their chunks,
   and no upload takes the id of one of them. As long as the last numbered
   checkpoint is named, it is the fallback. A new process has the live map, or
   without one the fallback.
   */
  lemma Closure(run: seq<State>, steps: seq<Step>, i: nat)
    requires IsRun(run, steps) && i < |run| && forall k :: 0 <= k < i ==> Orderly(run[k], steps[k])
    ensures Needed(run[i]) + Fallback(run[i]) <= run[i].present
    ensures i < |steps| && steps[i].Upload? ==> run[i].objectNum !in Needed(run[i]) + Fallback(run[i])
    ensures StandingAt(steps, i).Written? || StandingAt(steps, i).Loadable? ==>
              LastNumbered(run, steps, i) == Some(Fallback(run[i]))
    ensures i < |steps| && steps[i].Reopen? ==>
              run[i + 1].mapped == if run[i].live.Some? then run[i].live.value
                                   else if StandingAt(steps, i).Written? || StandingAt(steps, i).Loadable?
                                     then LastNumbered(run, steps, i).value
                                   else {}
  {
    RunInv(run, steps, i);
    FallbackExact(run, steps, i);
  }

  // ----- What sweeps achieve -----

  /** Steps i to j belong to one process. */
  ghost predicate OneLifetime(steps: seq<Step>, i: nat, j: nat)
    requires i <= j <= |steps|
  {
    forall k :: i <= k < j ==> !steps[k].Reopen?
  }

  lemma {:induction false} AllTracked(run: seq<State>, steps: seq<Step>, i: nat, j: nat)
    requires Follows(run, steps) && i < j < |run| && steps[i].Reconcile? && OneLifetime(steps, i, j)
    ensures run[j].present <= run[j].tracked
    decreases j
  {
    assert NextStep(run[j - 1], run[j], steps[j - 1]);
    if i < j - 1 {
      AllTracked(run, steps, i, j - 1);
    }
  }

  /**
   Once a process has reconciled, a sweep that no deletion refuses leaves of the
   chunks between the floor and the counter exactly the mapped ones, and touches
   no other.
   */
  lemma SweepReclaims(run: seq<State>, steps: seq<Step>, i: nat, j: nat)
    requires Follows(run, steps) && i < j < |steps| && steps[i].Reconcile? && OneLifetime(steps, i, j)
    requires steps[j] == Sweep({})
    ensures var s := run[j];
            s.floor.Some? && run[j + 1].present
            == set id | id in s.present && (id in s.mapped || id < s.floor.value || id >= s.objectNum)
  {
    AllTracked(run, steps, i, j);
    assert NextStep(run[j], run[j + 1], steps[j]);
  }

  function Attempts(steps: seq<Step>, i: nat, j: nat): nat
    requires i <= j <= |steps|
    decreases j
  {
    if i == j then 0
    else Attempts(steps, i, j - 1) + if steps[j - 1].Upload? || steps[j - 1].UploadFails? then 1 else 0
  }

  /** Every attempt to upload, failed or not, uses up one id. */
  lemma {:induction false} IdsCount(run: seq<State>, steps: seq<Step>, i: nat, j: nat)
    requires Follows(run, steps) && i <= j < |run| && OneLifetime(steps, i, j)
    ensures run[j].objectNum == run[i].objectNum + Attempts(steps, i, j)
    decreases j
  {
    if i < j {
      IdsCount(run, steps, i, j - 1);
      assert NextStep(run[j - 1], run[j], steps[j - 1]);
    }
  }

  // ----- Why both orders are needed -----

  /**
   Recovery saves configuration and numbered checkpoint and goes on; the floor is
   then read from the next number, which is absent. Whatever orderly run led to
   the open volume, any chunk of its map is lost to the fallback by the first
   sweep after the chunk is superseded.
   */
  lemma RecoveryUnguardsFallback(s: State, id: nat) returns (run: seq<State>, steps: seq<Step>)
    requires Inv(s) && s.floor.None? && s.wallNum == s.startNum && id in s.mapped
    ensures Follows(run, steps) && run[0] == s && |steps| == 6
    ensures forall k :: 0 <= k < 5 ==> Orderly(run[k], steps[k])
    ensures id in Fallback(run[5]) * run[5].present && id in Fallback(run[6]) && id !in run[6].present
  {
    var kept := s.mapped - {id};
    var s1 := s.(savedWallNum := s.wallNum, savedObjectNum := s.objectNum);
    var s2 := s1.(numbered := s.numbered[s.wallNum := s.mapped], wallNum := s.wallNum + 1);
    var s3 := s2.(mapped := kept + {s.objectNum}, tracked := s.tracked + s.mapped + {s.objectNum},
                  present := s.present + {s.objectNum}, objectNum := s.objectNum + 1, dirty := true);
    var s4 := s3.(live := Some(s3.mapped), dirty := false);
    var s5 := s4.(floor := Some(0), floorIds := {});
    var s6 := s5.(present := s5.present - (Candidates(s5) - {}), tracked := s5.tracked - (Candidates(s5) - {}));
    run := [s, s1, s2, s3, s4, s5, s6];
    steps := [SaveConfig, SaveNumbered, Upload(true, kept), SaveLive, ReadFloor(0), Sweep({})];
    assert NextStep(s4, s5, ReadFloor(0)) by {
      assert Numbered(s4, s4.wallNum) == {};
    }
    assert id in Candidates(s5);
  }

  /**
   Close writes the numbered checkpoint even when the configuration could not be
   saved. If the live checkpoint could not be saved either, the next process hands
   the id of the newest chunk of its fallback out again.
   */
  lemma UnsavedConfigReusesId(s: State, past: nat) returns (run: seq<State>, steps: seq<Step>)
    requires Inv(s) && s.live.Some? && s.savedWallNum == s.wallNum && s.savedObjectNum == s.objectNum
    requires OnePast(s.live.value, past)
    ensures Follows(run, steps) && run[0] == s && |steps| == 4 && steps[3].Upload?
    ensures run[3].objectNum in Fallback(run[3])
    ensures forall k :: 0 <= k < 4 && k != 1 ==> Orderly(run[k], steps[k])
  {
    var id := s.objectNum;
    var s1 := s.(mapped := s.mapped + {id}, tracked := s.tracked + s.mapped + {id},
                 present := s.present + {id}, objectNum := id + 1, dirty := true);
    var s2 := s1.(numbered := s.numbered[s.wallNum := s1.mapped], wallNum := s.wallNum + 1);
    var s3 := s2.(mapped := s.live.value, tracked := s.live.value, dirty := false, objectNum := id,
                  floor := None, floorIds := {}, wallNum := s.savedWallNum, startNum := s.savedWallNum);
    var s4 := s3.(mapped := s3.mapped + {id}, tracked := s3.tracked + s3.mapped + {id},
                  present := s3.present + {id}, objectNum := id + 1, dirty := true);
    run := [s, s1, s2, s3, s4];
    steps := [Upload(true, s.mapped), SaveNumbered, Reopen(past), Upload(true, s3.mapped)];
    assert past <= id;
  }

  // ----- Closing and reopening -----

  /** Close ends with the configuration, then the numbered checkpoint; then a new process starts. */
  ghost predicate CloseAndReopen(s: State, t: State, past: nat)
  {
    exists a, b :: NextStep(s, a, SaveConfig) && NextStep(a, b, SaveNumbered) && NextStep(b, t, Reopen(past))
  }

  /** The new process has the old map exactly when the live checkpoint is missing or up to date. */
  lemma CloseKeepsMap(s: State, t: State, past: nat)
    requires InvIds(s) && CloseAndReopen(s, t, past)
    ensures t.mapped == s.mapped <==> s.live.None? || s.live.value == s.mapped
    ensures !s.dirty ==> t.mapped == s.mapped
  {
  }

  /** A live checkpoint that could not be saved at close wins over the newer numbered one. */
  lemma StaleLiveWins() returns (run: seq<State>, steps: seq<Step>)
    ensures IsRun(run, steps) && |run| == 7
    ensures Numbered(run[5], 0) == run[3].mapped == {0, 1} && run[6].mapped == {0}
  {
    var s1 := START.(mapped := {0}, tracked := {0}, present := {0}, objectNum := 1, dirty := true);
    var s2 := s1.(live := Some({0}), dirty := false);
    var s3 := s2.(mapped := {0, 1}, tracked := {0, 1}, present := {0, 1}, objectNum := 2, dirty := true);
    var s4 := s3.(savedObjectNum := 2);
    var s5 := s4.(numbered := map[0 := {0, 1}], wallNum := 1);
    var s6 := s5.(mapped := {0}, tracked := {0}, dirty := false, objectNum := 2, wallNum := 0);
    run := [START, s1, s2, s3, s4, s5, s6];
    steps := [Upload(true, {}), SaveLive, Upload(true, {0}), SaveConfig, SaveNumbered, Reopen(1)];
    assert NextStep(s2, s3, Upload(true, {0})) by {
      assert {0} + {1} == {0, 1} && {0} + {0} + {1} == {0, 1};
    }
  }
}
