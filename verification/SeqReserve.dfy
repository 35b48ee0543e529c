/**
 SeqNum reservation on an encrypted volume: concurrent reservations, failed
 persists, saves, crashes and reloads, against a state file on local disk and a
 copy on the backend that may lag behind it.
 */
module SeqReserve {
  import opened Bytes
  import Crypto

  const WINDOW := 1048576

  /** The SeqNums start + 1 .. end. */
  datatype Range = Range(start: nat, end: nat)

  /** One written state file: its generation and the high-water it promises. */
  datatype Saved = Saved(generation: nat, highWater: nat)

  datatype Stage =
    | Added
    | Holding
    | Persisted(highWater: nat)

  datatype Caller = Caller(range: Range, stage: Stage)

  datatype State = State(
    up: bool,
    seqNum: nat,
    highWater: nat,
    generation: nat,
    local: Option<Saved>,
    backend: Option<Saved>,
    inFlight: set<Saved>,
    samples: set<nat>,              // high-waters read by saves that have not written yet
    mutex: Option<nat>,
    callers: map<nat, Caller>,
    issued: seq<Range>)

  datatype Step =
    | Add(c: nat, n: nat)
    | TooLarge(c: nat)
    | Fast(c: nat)
    | Lock(c: nat)
    | Recheck(c: nat)
    | Persist(c: nat)
    | PersistFails(c: nat, reachedDisk: bool)
    | Publish(c: nat)
    | Push(saved: Saved)
    | Sample
    | Save(sampled: nat, reachedDisk: bool)
    | Crash
    | Load(reachedDisk: bool, ok: bool)

  /** The smallest whole number of windows past hw that covers end. */
  function Raise(hw: nat, end: nat): (r: nat)
    ensures r >= hw && r >= end && (r - hw) % WINDOW == 0
    ensures if end > hw then r < end + WINDOW else r == hw
    decreases if end > hw then end - hw else 0
  {
    if end > hw then Raise(hw + WINDOW, end) else hw
  }

  function Write(s: State, highWater: nat): State
  {
    var file := Saved(s.generation + 1, highWater);
    s.(generation := s.generation + 1, local := Some(file), inFlight := s.inFlight + {file})
  }

  function Leave(s: State, c: nat): State
  {
    s.(callers := s.callers - {c}, mutex := if s.mutex == Some(c) then None else s.mutex)
  }

  function Issue(s: State, c: nat): State
    requires c in s.callers
  {
    Leave(s, c).(issued := s.issued + [s.callers[c].range])
  }

  /** LoadState takes the backend copy only if it is strictly newer, or the only one. */
  function Chosen(s: State): Option<Saved>
  {
    match (s.local, s.backend)
    case (Some(l), Some(k)) => if k.generation > l.generation then Some(k) else Some(l)
    case (Some(l), None) => Some(l)
    case (None, k) => k
  }

  ghost predicate NextStep(s: State, t: State, step: Step)
  {
    match step
    case Add(c, n) =>
      && s.up && c !in s.callers && n > 0
      && t == s.(seqNum := s.seqNum + n, callers := s.callers[c := Caller(Range(s.seqNum, s.seqNum + n), Added)])
    case TooLarge(c) =>
      && s.up && c in s.callers && s.callers[c].stage.Added? && s.callers[c].range.end > Crypto.MAX_SEQNUM
      && t == Leave(s, c)
    case Fast(c) =>
      && s.up && c in s.callers && s.callers[c].stage.Added? && s.callers[c].range.end <= Crypto.MAX_SEQNUM
      && s.callers[c].range.end <= s.highWater
      && t == Issue(s, c)
    case Lock(c) =>
      && s.up && c in s.callers && s.callers[c].stage.Added? && s.callers[c].range.end <= Crypto.MAX_SEQNUM
          && s.mutex.None?
      && t == s.(mutex := Some(c), callers := s.callers[c := s.callers[c].(stage := Holding)])
    case Recheck(c) =>
      && s.up && c in s.callers && s.callers[c].stage.Holding? && s.callers[c].range.end <= s.highWater
      && t == Issue(s, c)
    case Persist(c) =>
      && s.up && c in s.callers && s.callers[c].stage.Holding? && s.callers[c].range.end > s.highWater
      && var hw := Raise(s.highWater, s.callers[c].range.end);
         t == Write(s, hw).(callers := s.callers[c := s.callers[c].(stage := Persisted(hw))])
    case PersistFails(c, reachedDisk) =>
      && s.up && c in s.callers && s.callers[c].stage.Holding? && s.callers[c].range.end > s.highWater
      && var tried := Write(s, Raise(s.highWater, s.callers[c].range.end));
         t == Leave(if reachedDisk then tried else s.(generation := tried.generation), c)
    case Publish(c) =>
      && s.up && c in s.callers && s.callers[c].stage.Persisted?
      && t == Issue(s, c).(highWater := s.callers[c].stage.highWater)
    case Push(saved) =>
      && saved in s.inFlight
      && t == s.(backend := Some(saved))
    case Sample =>
      && s.up
      && t == s.(samples := s.samples + {s.highWater})
    case Save(sampled, reachedDisk) =>
      && s.up && sampled in s.samples
      && t == if reachedDisk then Write(s, sampled) else s.(generation := s.generation + 1)
    case Crash =>
      t == s.(up := false, mutex := None, callers := map[], samples := {})
    case Load(reachedDisk, ok) =>
      && !s.up && Chosen(s).Some? && (ok ==> reachedDisk)
      && var from := Chosen(s).value;
         var loaded := s.(seqNum := from.highWater, highWater := from.highWater, generation := from.generation);
         var wrote := if reachedDisk then Write(loaded, from.highWater + WINDOW)
             else loaded.(generation := loaded.generation + 1);
         t == if ok then wrote.(up := true, highWater := from.highWater + WINDOW) else wrote
  }

  /**
   A save writes no older high-water than the current one, and not between another
   caller's persist and its publish.
   */
  ghost predicate Orderly(s: State, step: Step)
  {
    step.Save? ==> step.sampled >= s.highWater && forall c :: c in s.callers ==> !s.callers[c].stage.Persisted?
  }

  ghost predicate Init(s: State)
  {
    s == State(true, 0, 0, 0, None, None, {}, {}, None, map[], [])
  }

  ghost predicate Disjoint(a: Range, b: Range)
  {
    a.end <= b.start || b.end <= a.start
  }

  // ----- The invariant -----

  /** Ranges handed out never overlap and stay within the nonce's counter. */
  ghost predicate IssuedApart(issued: seq<Range>)
  {
    && (forall i, j :: 0 <= i < j < |issued| ==> Disjoint(issued[i], issued[j]))
    && (forall i :: 0 <= i < |issued| ==> issued[i].start < issued[i].end <= Crypto.MAX_SEQNUM)
  }

  ghost predicate ApartFrom(issued: seq<Range>, r: Range)
  {
    forall i :: 0 <= i < |issued| ==> Disjoint(issued[i], r)
  }

  ghost predicate Between(issued: seq<Range>, callers: map<nat, Caller>)
  {
    forall c :: c in callers ==> ApartFrom(issued, callers[c].range)
  }

  ghost predicate CallersApart(callers: map<nat, Caller>)
  {
    forall c, d :: c in callers && d in callers && c != d ==> Disjoint(callers[c].range, callers[d].range)
  }

  ghost predicate Covered(issued: seq<Range>, top: nat)
  {
    forall i :: 0 <= i < |issued| ==> issued[i].end <= top
  }

  ghost predicate CallerOk(s: State, c: nat, x: Caller)
  {
    && x.range.start < x.range.end <= s.seqNum
    && (!x.stage.Added? ==> s.mutex == Some(c) && x.range.end <= Crypto.MAX_SEQNUM)
    && (x.stage.Persisted? ==>
          s.highWater < x.range.end <= x.stage.highWater && s.local.Some?
              && s.local.value.highWater == x.stage.highWater)
  }

  ghost predicate CallersOk(s: State)
  {
    && (forall c :: c in s.callers ==> CallerOk(s, c, s.callers[c]))
    && (!s.up ==> s.callers == map[])
  }

  ghost predicate RangesOk(s: State)
  {
    IssuedApart(s.issued) && Between(s.issued, s.callers) && CallersApart(s.callers)
  }

  ghost predicate FilesOk(s: State)
  {
    && (s.local.Some? ==> s.local.value.generation <= s.generation || !s.up)
    && (forall f :: f in s.inFlight ==> s.local.Some? && f.generation <= s.local.value.generation)
    && (s.backend.Some? ==> s.local.Some? && s.backend.value.generation <= s.local.value.generation)
  }

  ghost predicate WaterOk(s: State)
  {
    && (|s.issued| > 0 ==> s.local.Some? && Covered(s.issued, s.local.value.highWater))
    && (s.up ==>
          && (s.highWater == 0 || (s.local.Some? && s.highWater <= s.local.value.highWater))
          && Covered(s.issued, s.highWater) && Covered(s.issued, s.seqNum))
  }

  ghost predicate Inv(s: State)
  {
    CallersOk(s) && RangesOk(s) && FilesOk(s) && WaterOk(s)
  }

  lemma AddApart(issued: seq<Range>, callers: map<nat, Caller>, seqNum: nat, c: nat, n: nat)
    requires Between(issued, callers) && CallersApart(callers) && Covered(issued, seqNum) && c !in callers && n > 0
    requires forall d :: d in callers ==> callers[d].range.end <= seqNum
    ensures var t := callers[c := Caller(Range(seqNum, seqNum + n), Added)]; Between(issued, t) && CallersApart(t)
  {
    var r := Range(seqNum, seqNum + n);
    assert ApartFrom(issued, r);
    assert forall d :: d in callers ==> Disjoint(callers[d].range, r) && Disjoint(r, callers[d].range);
  }

  lemma DropApart(issued: seq<Range>, callers: map<nat, Caller>, c: nat)
    requires Between(issued, callers) && CallersApart(callers)
    ensures Between(issued, callers - {c}) && CallersApart(callers - {c})
  {
  }

  lemma MoveApart(issued: seq<Range>, callers: map<nat, Caller>, c: nat, stage: Stage)
    requires Between(issued, callers) && CallersApart(callers) && c in callers
    ensures var t := callers[c := callers[c].(stage := stage)]; Between(issued, t) && CallersApart(t)
  {
  }

  lemma IssueApart(issued: seq<Range>, callers: map<nat, Caller>, c: nat)
    requires IssuedApart(issued) && Between(issued, callers) && CallersApart(callers) && c in callers
    requires callers[c].range.start < callers[c].range.end <= Crypto.MAX_SEQNUM
    ensures IssuedApart(issued + [callers[c].range]) && Between(issued + [callers[c].range], callers - {c})
    ensures CallersApart(callers - {c})
  {
    var r := callers[c].range;
    assert ApartFrom(issued, r);
    forall d | d in callers - {c} ensures ApartFrom(issued + [r], callers[d].range) {
      assert ApartFrom(issued, callers[d].range) && Disjoint(r, callers[d].range);
    }
  }

  lemma AddInv(s: State, t: State, step: Step)
    requires Inv(s) && NextStep(s, t, step) && step.Add?
    ensures Inv(t)
  {
    hide Between, CallersApart, IssuedApart;
    forall d | d in s.callers ensures s.callers[d].range.end <= s.seqNum {
      assert CallerOk(s, d, s.callers[d]);
    }
    AddApart(s.issued, s.callers, s.seqNum, step.c, step.n);
    forall d | d in t.callers ensures CallerOk(t, d, t.callers[d]) {
      assert d in s.callers ==> CallerOk(s, d, s.callers[d]);
    }
  }

  lemma LeaveInv(s: State, c: nat)
    requires Inv(s) && c in s.callers
    ensures Inv(Leave(s, c))
  {
    hide Between, CallersApart, IssuedApart, Covered;
    var t := Leave(s, c);
    DropApart(s.issued, s.callers, c);
    forall d | d in t.callers ensures CallerOk(t, d, t.callers[d]) {
      assert CallerOk(s, d, s.callers[d]) && CallerOk(s, c, s.callers[c]);
    }
  }

  lemma LockInv(s: State, t: State, step: Step)
    requires Inv(s) && NextStep(s, t, step) && step.Lock?
    ensures Inv(t)
  {
    hide Between, CallersApart, IssuedApart, Covered;
    MoveApart(s.issued, s.callers, step.c, Holding);
    forall d | d in t.callers ensures CallerOk(t, d, t.callers[d]) {
      assert CallerOk(s, d, s.callers[d]);
    }
  }

  lemma CoveredOneMore(issued: seq<Range>, r: Range, top: nat)
    requires Covered(issued, top) && r.end <= top
    ensures Covered(issued + [r], top)
  {
  }

  lemma CoveredHigher(issued: seq<Range>, top: nat, higher: nat)
    requires Covered(issued, top) && top <= higher
    ensures Covered(issued, higher)
  {
  }

  /** Handing out a range under the published high-water. */
  lemma IssueInv(s: State, c: nat)
    requires Inv(s) && s.up && c in s.callers && s.callers[c].range.end <= s.highWater
    requires s.callers[c].range.end <= Crypto.MAX_SEQNUM
    ensures Inv(Issue(s, c))
  {
    hide Between, CallersApart, IssuedApart, Covered;
    var t, r := Issue(s, c), s.callers[c].range;
    assert CallerOk(s, c, s.callers[c]);
    LeaveInv(s, c);
    IssueApart(s.issued, s.callers, c);
    CoveredOneMore(s.issued, r, s.highWater);
    CoveredOneMore(s.issued, r, s.seqNum);
    CoveredHigher(t.issued, s.highWater, s.local.value.highWater);
    forall d | d in t.callers ensures CallerOk(t, d, t.callers[d]) {
      assert CallerOk(Leave(s, c), d, t.callers[d]);
    }
  }

  lemma WriteInv(s: State, highWater: nat)
    requires Inv(s) && s.up && highWater >= s.highWater
    requires forall c :: c in s.callers ==> !s.callers[c].stage.Persisted?
    ensures Inv(Write(s, highWater)) && Inv(s.(generation := s.generation + 1))
  {
    hide Between, CallersApart, IssuedApart, Covered;
    var t, u := Write(s, highWater), s.(generation := s.generation + 1);
    CoveredHigher(s.issued, s.highWater, highWater);
    forall d | d in s.callers ensures CallerOk(t, d, s.callers[d]) && CallerOk(u, d, s.callers[d]) {
      assert CallerOk(s, d, s.callers[d]);
    }
  }

  /** Only the holder of the mutex is past its first check. */
  lemma OthersAdded(s: State, c: nat)
    requires Inv(s) && c in s.callers && !s.callers[c].stage.Added?
    ensures forall d :: d in s.callers && d != c ==> s.callers[d].stage.Added?
    ensures CallerOk(s, c, s.callers[c])
  {
    assert CallerOk(s, c, s.callers[c]);
    forall d | d in s.callers && d != c ensures s.callers[d].stage.Added? {
      assert CallerOk(s, d, s.callers[d]);
    }
  }

  lemma PersistInv(s: State, t: State, step: Step)
    requires Inv(s) && NextStep(s, t, step) && step.Persist?
    ensures Inv(t)
  {
    hide CallersOk, RangesOk, FilesOk, WaterOk;
    var c := step.c;
    OthersAdded(s, c);
    var hw := Raise(s.highWater, s.callers[c].range.end);
    WriteInv(s, hw);
    StageInv(Write(s, hw), c, hw);
    assert t == Write(s, hw).(callers := s.callers[c := s.callers[c].(stage := Persisted(hw))]);
  }

  lemma StageInv(s: State, c: nat, hw: nat)
    requires Inv(s) && c in s.callers && s.callers[c].stage.Holding?
    requires s.highWater < s.callers[c].range.end <= hw && s.local.Some? && s.local.value.highWater == hw
    ensures Inv(s.(callers := s.callers[c := s.callers[c].(stage := Persisted(hw))]))
  {
    hide Between, CallersApart, IssuedApart, Covered;
    var t := s.(callers := s.callers[c := s.callers[c].(stage := Persisted(hw))]);
    MoveApart(s.issued, s.callers, c, Persisted(hw));
    forall d | d in t.callers ensures CallerOk(t, d, t.callers[d]) {
      assert CallerOk(s, d, s.callers[d]);
    }
  }

  lemma PersistFailsInv(s: State, t: State, step: Step)
    requires Inv(s) && NextStep(s, t, step) && step.PersistFails?
    ensures Inv(t)
  {
    hide CallersOk, RangesOk, FilesOk, WaterOk;
    var c := step.c;
    OthersAdded(s, c);
    var hw := Raise(s.highWater, s.callers[c].range.end);
    WriteInv(s, hw);
    LeaveInv(if step.reachedDisk then Write(s, hw) else s.(generation := s.generation + 1), c);
  }

  function Raised(s: State, c: nat): State
    requires c in s.callers && s.callers[c].stage.Persisted?
  {
    s.(highWater := s.callers[c].stage.highWater, callers := s.callers[c := s.callers[c].(stage := Holding)])
  }

  lemma RaiseInv(s: State, c: nat)
    requires Inv(s) && s.up && c in s.callers && s.callers[c].stage.Persisted?
    ensures Inv(Raised(s, c)) && s.callers[c].range.end <= s.callers[c].stage.highWater
    ensures s.callers[c].range.end <= Crypto.MAX_SEQNUM
  {
    hide Between, CallersApart, IssuedApart, Covered;
    OthersAdded(s, c);
    var t := Raised(s, c);
    MoveApart(s.issued, s.callers, c, Holding);
    CoveredHigher(s.issued, s.highWater, t.highWater);
    forall d | d in t.callers ensures CallerOk(t, d, t.callers[d]) {
      assert CallerOk(s, d, s.callers[d]);
    }
  }

  lemma PublishInv(s: State, t: State, step: Step)
    requires Inv(s) && NextStep(s, t, step) && step.Publish?
    ensures Inv(t)
  {
    hide CallersOk, RangesOk, FilesOk, WaterOk;
    var c := step.c;
    RaiseInv(s, c);
    IssueInv(Raised(s, c), c);
    assert t == Issue(Raised(s, c), c);
  }

  lemma CrashInv(s: State, t: State, step: Step)
    requires Inv(s) && NextStep(s, t, step) && (step.Crash? || step.Push? || step.Sample?)
    ensures Inv(t)
  {
    hide IssuedApart, Covered;
    forall d | d in t.callers ensures CallerOk(t, d, t.callers[d]) {
      assert CallerOk(s, d, s.callers[d]);
    }
  }

  /** Of the two copies the newer one is loaded, and of equally new ones the local. */
  lemma ChosenNewest(s: State, f: Saved)
    ensures s.local == Some(f) || s.backend == Some(f) ==> Chosen(s).Some? && Chosen(s).value.generation >= f.generation
    ensures Chosen(s).Some? ==> Chosen(s) == s.local || Chosen(s) == s.backend
    ensures s.local == Some(f) && Chosen(s).value.generation == f.generation ==> Chosen(s) == s.local
  {
  }

  /** A reload resumes at the newest durable high-water, above everything ever issued. */
  lemma LoadInv(s: State, t: State, step: Step)
    requires Inv(s) && NextStep(s, t, step) && step.Load?
    ensures Inv(t)
  {
    hide IssuedApart;
    assert s.local.Some? && Chosen(s) == s.local;
    var hw := s.local.value.highWater;
    assert Covered(s.issued, hw);
    CoveredHigher(s.issued, hw, hw + WINDOW);
  }

  lemma NextInv(s: State, t: State, step: Step)
    requires Inv(s) && NextStep(s, t, step) && Orderly(s, step)
    ensures Inv(t)
  {
    hide Inv;
    match step
    case Add(_, _) => AddInv(s, t, step);
    case TooLarge(c) => LeaveInv(s, c);
    case Fast(c) => IssueInv(s, c);
    case Lock(_) => LockInv(s, t, step);
    case Recheck(c) =>
      OthersAdded(s, c);
      IssueInv(s, c);
    case Persist(_) => PersistInv(s, t, step);
    case PersistFails(_, _) => PersistFailsInv(s, t, step);
    case Publish(_) => PublishInv(s, t, step);
    case Save(sampled, _) => WriteInv(s, sampled);
    case Load(_, _) => LoadInv(s, t, step);
    case _ => CrashInv(s, t, step);
  }

  // ----- Whole runs -----

  ghost predicate Follows(run: seq<State>, steps: seq<Step>)
  {
    |run| == |steps| + 1 && forall i :: 0 <= i < |steps| ==> NextStep(run[i], run[i + 1], steps[i])
  }

  ghost predicate Reaches(run: seq<State>, steps: seq<Step>)
  {
    Follows(run, steps) && Init(run[0])
  }

  lemma {:induction false} RunInv(run: seq<State>, steps: seq<Step>, i: nat)
    requires Reaches(run, steps) && i < |run|
    requires forall k :: 0 <= k < |steps| ==> Orderly(run[k], steps[k])
    ensures Inv(run[i])
  {
    if i != 0 {
      RunInv(run, steps, i - 1);
      NextInv(run[i - 1], run[i], steps[i - 1]);
    }
  }

  /** The range a caller asked for: the SeqNums after the counter as it stood. */
  ghost function AskedBy(run: seq<State>, steps: seq<Step>, i: nat, c: nat): Option<Range>
    requires |run| == |steps| + 1 && i <= |steps|
  {
    if i == 0 then None
    else
      match steps[i - 1]
      case Add(d, n) =>
        if c == d then Some(Range(run[i - 1].seqNum, run[i - 1].seqNum + n)) else AskedBy(run, steps, i - 1, c)
      case _ => AskedBy(run, steps, i - 1, c)
  }

  /** The ranges handed out: each to a caller that returned without an error. */
  ghost function IssuedBy(run: seq<State>, steps: seq<Step>, i: nat): seq<Range>
    requires |run| == |steps| + 1 && i <= |steps|
  {
    if i == 0 then []
    else
      var before := IssuedBy(run, steps, i - 1);
      var step := steps[i - 1];
      if step.Fast? || step.Recheck? || step.Publish? then
        match AskedBy(run, steps, i - 1, step.c)
        case Some(r) => before + [r]
        case None => before
      else before
  }

  ghost predicate AskedIs(run: seq<State>, steps: seq<Step>, i: nat, c: nat)
    requires |run| == |steps| + 1 && i <= |steps|
  {
    c in run[i].callers ==> AskedBy(run, steps, i, c) == Some(run[i].callers[c].range)
  }

  lemma AskedStep(run: seq<State>, steps: seq<Step>, i: nat, c: nat)
    requires Follows(run, steps) && i < |steps| && AskedIs(run, steps, i, c)
    ensures AskedIs(run, steps, i + 1, c)
  {
    hide Raise, Chosen;
    assert NextStep(run[i], run[i + 1], steps[i]);
  }

  lemma LedgerStep(run: seq<State>, steps: seq<Step>, i: nat)
    requires Follows(run, steps) && i < |steps| && run[i].issued == IssuedBy(run, steps, i)
    requires forall c :: AskedIs(run, steps, i, c)
    ensures run[i + 1].issued == IssuedBy(run, steps, i + 1)
  {
    hide Raise, Chosen, AskedBy, AskedIs;
    var step := steps[i];
    assert NextStep(run[i], run[i + 1], step);
    if step.Fast? || step.Recheck? || step.Publish? {
      HandedOut(run, steps, i, step.c);
    }
  }

  lemma HandedOut(run: seq<State>, steps: seq<Step>, i: nat, c: nat)
    requires |run| == |steps| + 1 && i <= |steps| && AskedIs(run, steps, i, c) && c in run[i].callers
    ensures AskedBy(run, steps, i, c) == Some(run[i].callers[c].range)
  {
  }

  lemma {:induction false} LedgerIs(run: seq<State>, steps: seq<Step>, i: nat)
    requires Reaches(run, steps) && i < |run|
    ensures run[i].issued == IssuedBy(run, steps, i) && forall c :: AskedIs(run, steps, i, c)
  {
    hide NextStep;
    if i != 0 {
      LedgerIs(run, steps, i - 1);
      LedgerStep(run, steps, i - 1);
      forall c ensures AskedIs(run, steps, i, c) {
        AskedStep(run, steps, i - 1, c);
      }
    }
  }

  /** An Add moves the counter past what it asked for, and nothing moves it back but a reload. */
  lemma CounterMoves(run: seq<State>, steps: seq<Step>, i: nat)
    requires Follows(run, steps) && i < |steps|
    ensures steps[i].Add? ==> run[i + 1].seqNum == run[i].seqNum + steps[i].n
    ensures !steps[i].Add? && !steps[i].Load? ==> run[i + 1].seqNum == run[i].seqNum
  {
    assert NextStep(run[i], run[i + 1], steps[i]);
  }

  ghost function LastPushed(steps: seq<Step>, i: nat): Option<Saved>
    requires i <= |steps|
  {
    if i == 0 then None
    else if steps[i - 1].Push? then Some(steps[i - 1].saved)
    else LastPushed(steps, i - 1)
  }

  /** The backend has the file pushed last, whichever of those written that was. */
  lemma {:induction false} BackendIs(run: seq<State>, steps: seq<Step>, i: nat)
    requires Reaches(run, steps) && i < |run|
    ensures run[i].backend == LastPushed(steps, i)
  {
    hide Raise, Chosen;
    if i != 0 {
      BackendIs(run, steps, i - 1);
      assert NextStep(run[i - 1], run[i], steps[i - 1]);
    }
  }

  /** A reload that succeeds starts at the high-water of the newer copy and has one window durably reserved. */
  lemma ReloadResumes(run: seq<State>, steps: seq<Step>, i: nat, f: Saved)
    requires Follows(run, steps) && i < |steps| && steps[i].Load? && steps[i].ok
    requires run[i].local == Some(f) || run[i].backend == Some(f)
    ensures var t := run[i + 1];
            && t.up && t.local == Some(Saved(t.generation, t.highWater)) && t.highWater == t.seqNum + WINDOW
            && t.generation > f.generation
            && exists g :: (run[i].local == Some(g) || run[i].backend == Some(g)) && t.seqNum == g.highWater
                 && g.generation >= f.generation
  {
    ChosenNewest(run[i], f);
    hide Chosen;
    assert NextStep(run[i], run[i + 1], steps[i]);
    var g := Chosen(run[i]).value;
    assert run[i].local == Some(g) || run[i].backend == Some(g);
  }

  ghost predicate Among(x: nat, r: Range)
  {
    r.start < x <= r.end
  }

  /** Every SeqNum handed out is covered by the durable high-water, and none is handed out twice. */
  lemma IssuedOnce(run: seq<State>, steps: seq<Step>, i: nat, x: nat, j: nat, k: nat)
    requires Reaches(run, steps) && i < |run|
    requires forall n :: 0 <= n < |steps| ==> Orderly(run[n], steps[n])
    requires j < |IssuedBy(run, steps, i)| && Among(x, IssuedBy(run, steps, i)[j])
    ensures run[i].local.Some? && x <= run[i].local.value.highWater && x <= Crypto.MAX_SEQNUM
    ensures k < |IssuedBy(run, steps, i)| && Among(x, IssuedBy(run, steps, i)[k]) ==> j == k
  {
    RunInv(run, steps, i);
    LedgerIs(run, steps, i);
    if k < |run[i].issued| && j != k {
      assert Disjoint(run[i].issued[j], run[i].issued[k]);
    }
  }

  /** Two SeqNums of different hand-outs never share a nonce in any one domain. */
  lemma NoncesDistinct(run: seq<State>, steps: seq<Step>, i: nat, x: nat, y: nat, j: nat, k: nat, u: Crypto.Uuid,
                       d: Crypto.Domain)
    requires Reaches(run, steps) && i < |run|
    requires forall n :: 0 <= n < |steps| ==> Orderly(run[n], steps[n])
    requires j < |IssuedBy(run, steps, i)| && Among(x, IssuedBy(run, steps, i)[j])
    requires k < |IssuedBy(run, steps, i)| && Among(y, IssuedBy(run, steps, i)[k])
    ensures Crypto.MakeNonce(x, u, d) == Crypto.MakeNonce(y, u, d) ==> x == y && j == k
  {
    IssuedOnce(run, steps, i, x, j, k);
    IssuedOnce(run, steps, i, y, k, j);
    Crypto.NonceDeterminesSeqNum(x, u, d, y, u, d);
  }

  /** A caller that finds the mutex free and is not disturbed gets the SeqNums it asked for. */
  lemma LoneReservation(s: State, c: nat, n: nat) returns (run: seq<State>, steps: seq<Step>)
    requires s.up && s.mutex.None? && c !in s.callers && n > 0 && s.seqNum + n <= Crypto.MAX_SEQNUM
    ensures Follows(run, steps) && run[0] == s && |steps| <= 4
    ensures var t := run[|steps|];
            && t.issued == s.issued + [Range(s.seqNum, s.seqNum + n)] && t.seqNum == s.seqNum + n
            && t.callers == s.callers && t.mutex.None? && t.highWater == Raise(s.highWater, s.seqNum + n)
            && (t.highWater > s.highWater ==> t.local.Some? && t.local.value.highWater == t.highWater)
  {
    var end := s.seqNum + n;
    var s1 := s.(seqNum := end, callers := s.callers[c := Caller(Range(s.seqNum, end), Added)]);
    assert s1.callers - {c} == s.callers;
    if end <= s.highWater {
      run, steps := [s, s1, Issue(s1, c)], [Add(c, n), Fast(c)];
      assert NextStep(s, s1, Add(c, n)) && NextStep(s1, Issue(s1, c), Fast(c));
    } else {
      assert NextStep(s, s1, Add(c, n));
      hide NextStep, Raise;
      var rest, more := SlowReservation(s1, c);
      run, steps := [s] + rest, [Add(c, n)] + more;
    }
  }

  lemma SlowReservation(s: State, c: nat) returns (run: seq<State>, steps: seq<Step>)
    requires s.up && s.mutex.None? && c in s.callers && s.callers[c].stage.Added?
    requires s.highWater < s.callers[c].range.end <= Crypto.MAX_SEQNUM
    ensures Follows(run, steps) && run[0] == s && |steps| == 3
    ensures var t := run[3];
            && t.issued == s.issued + [s.callers[c].range] && t.seqNum == s.seqNum && t.callers == s.callers - {c}
            && t.mutex.None? && t.highWater == Raise(s.highWater, s.callers[c].range.end)
            && t.local.Some? && t.local.value.highWater == t.highWater
  {
    hide Raise;
    var hw := Raise(s.highWater, s.callers[c].range.end);
    var s1 := s.(mutex := Some(c), callers := s.callers[c := s.callers[c].(stage := Holding)]);
    var s2 := Write(s1, hw).(callers := s1.callers[c := s1.callers[c].(stage := Persisted(hw))]);
    var s3 := Issue(s2, c).(highWater := hw);
    run, steps := [s, s1, s2, s3], [Lock(c), Persist(c), Publish(c)];
    assert s2.callers - {c} == s.callers - {c};
    assert NextStep(s, s1, Lock(c)) && NextStep(s1, s2, Persist(c)) && NextStep(s2, s3, Publish(c));
  }

  // ----- Why saves must be orderly -----

  /**
   A save that lands between a caller's persist and its publish writes a
   high-water from before it back, and the caller then hands out SeqNums the disk
   does not cover.
   */
  lemma DisorderlySaveUncovers(s: State, t: State, u: State, c: nat, sampled: nat)
    requires Inv(s) && c in s.callers && s.callers[c].stage.Persisted? && sampled <= s.highWater
    requires NextStep(s, t, Save(sampled, true)) && NextStep(t, u, Publish(c))
    ensures |u.issued| > 0 && u.local.Some? && u.issued[|u.issued| - 1].end > u.local.value.highWater
  {
    assert CallerOk(s, c, s.callers[c]);
  }

  /**
   A save of any older high-water than the current one breaks the promise as well: the
   next caller takes the fast path up to the current one, which the disk no longer covers.
   */
  lemma StaleSaveUncovers(s: State, c: nat, sampled: nat) returns (run: seq<State>, steps: seq<Step>)
    requires Inv(s) && s.up && sampled in s.samples && sampled < s.highWater && c !in s.callers
    requires s.seqNum < s.highWater <= Crypto.MAX_SEQNUM
    ensures Follows(run, steps) && run[0] == s && |steps| == 3
    ensures forall k :: 1 <= k < 3 ==> Orderly(run[k], steps[k])
    ensures var last := run[3];
            |last.issued| > 0 && last.local.Some? && last.issued[|last.issued| - 1].end > last.local.value.highWater
  {
    var n := s.highWater - s.seqNum;
    var s1 := Write(s, sampled);
    var s2 := s1.(seqNum := s.highWater, callers := s.callers[c := Caller(Range(s.seqNum, s.highWater), Added)]);
    var s3 := Issue(s2, c);
    run := [s, s1, s2, s3];
    steps := [Save(sampled, true), Add(c, n), Fast(c)];
    assert NextStep(s, s1, Save(sampled, true)) && NextStep(s1, s2, Add(c, n)) && NextStep(s2, s3, Fast(c));
  }

  /** One caller, one save that sampled before it and wrote after it, a crash: SeqNum 1 is handed out twice. */
  lemma DisorderlySaveReissues() returns (run: seq<State>, steps: seq<Step>)
    ensures Reaches(run, steps)
    ensures forall k :: 0 <= k < |steps| && k != 5 ==> Orderly(run[k], steps[k])
    ensures run[|steps|].issued == [Range(0, 1), Range(0, 1)]
  {
    hide NextStep, Orderly, Reaches;
    var s0 := State(true, 0, 0, 0, None, None, {}, {}, None, map[], []);
    var s1 := s0.(samples := {0});
    var s2 := s1.(seqNum := 1, callers := map[0 := Caller(Range(0, 1), Added)]);
    var s3 := s2.(mutex := Some(0), callers := map[0 := Caller(Range(0, 1), Holding)]);
    assert Raise(0, 1) == WINDOW;
    var s4 := Write(s3, WINDOW).(callers := map[0 := Caller(Range(0, 1), Persisted(WINDOW))]);
    var s5 := s4.(callers := map[], mutex := None, highWater := WINDOW, issued := [Range(0, 1)]);
    var s6 := Write(s5, 0);
    var s7 := s6.(up := false, samples := {});
    var s8 := Write(s7.(seqNum := 0, highWater := 0), WINDOW).(up := true, highWater := WINDOW);
    var s9 := s8.(seqNum := 1, callers := map[0 := Caller(Range(0, 1), Added)]);
    var s10 := s9.(callers := map[], issued := [Range(0, 1), Range(0, 1)]);
    run := [s0, s1, s2, s3, s4, s5, s6, s7, s8, s9, s10];
    steps := REISSUING;
    StepsHold(s0, s1, s2, s3, s4, s5);
    StepsHoldAgain(s5, s6, s7, s8, s9, s10);
    ReachesAll(s0, s1, s2, s3, s4, s5, s6, s7, s8, s9, s10, run, steps);
    OtherStepsOrderly(run, steps);
  }

  const REISSUING := [Sample, Add(0, 1), Lock(0), Persist(0), Publish(0), Save(0, true), Crash, Load(true, true),
                      Add(0, 1), Fast(0)]

  lemma OtherStepsOrderly(run: seq<State>, steps: seq<Step>)
    requires |run| == |steps| + 1 && steps == REISSUING
    ensures forall k :: 0 <= k < |steps| && k != 5 ==> Orderly(run[k], steps[k])
  {
    assert forall k :: 0 <= k < |steps| && k != 5 ==> !steps[k].Save?;
  }

  lemma ReachesAll(s0: State, s1: State, s2: State, s3: State, s4: State, s5: State, s6: State, s7: State, s8: State,
                   s9: State, s10: State, run: seq<State>, steps: seq<Step>)
    requires Init(s0) && run == [s0, s1, s2, s3, s4, s5, s6, s7, s8, s9, s10] && steps == REISSUING
    requires NextStep(s0, s1, Sample) && NextStep(s1, s2, Add(0, 1)) && NextStep(s2, s3, Lock(0))
    requires NextStep(s3, s4, Persist(0))
    requires NextStep(s4, s5, Publish(0)) && NextStep(s5, s6, Save(0, true)) && NextStep(s6, s7, Crash)
    requires NextStep(s7, s8, Load(true, true)) && NextStep(s8, s9, Add(0, 1)) && NextStep(s9, s10, Fast(0))
    ensures Reaches(run, steps)
  {
    hide NextStep;
  }

  lemma StepsHold(s0: State, s1: State, s2: State, s3: State, s4: State, s5: State)
    requires Init(s0) && s1 == s0.(samples := {0})
    requires s2 == s1.(seqNum := 1, callers := map[0 := Caller(Range(0, 1), Added)])
    requires s3 == s2.(mutex := Some(0), callers := map[0 := Caller(Range(0, 1), Holding)])
    requires s4 == Write(s3, WINDOW).(callers := map[0 := Caller(Range(0, 1), Persisted(WINDOW))])
    requires s5 == s4.(callers := map[], mutex := None, highWater := WINDOW, issued := [Range(0, 1)])
    ensures NextStep(s0, s1, Sample) && NextStep(s1, s2, Add(0, 1)) && NextStep(s2, s3, Lock(0))
    ensures NextStep(s3, s4, Persist(0))
    ensures NextStep(s4, s5, Publish(0)) && s5.callers == map[] && s5.mutex.None? && s5.local == Some(Saved(1, WINDOW))
  {
    assert Raise(0, 1) == WINDOW;
  }

  lemma StepsHoldAgain(s5: State, s6: State, s7: State, s8: State, s9: State, s10: State)
    requires s5.up && s5.callers == map[] && s5.mutex.None? && s5.local == Some(Saved(1, WINDOW)) && s5.backend.None?
    requires s5.issued == [Range(0, 1)] && s5.generation == 1 && s5.samples == {0}
    requires s6 == Write(s5, 0) && s7 == s6.(up := false, samples := {})
    requires s8 == Write(s7.(seqNum := 0, highWater := 0), WINDOW).(up := true, highWater := WINDOW)
    requires s9 == s8.(seqNum := 1, callers := map[0 := Caller(Range(0, 1), Added)])
    requires s10 == s9.(callers := map[], issued := [Range(0, 1), Range(0, 1)])
    ensures NextStep(s5, s6, Save(0, true)) && NextStep(s6, s7, Crash) && NextStep(s7, s8, Load(true, true))
    ensures NextStep(s8, s9, Add(0, 1)) && NextStep(s9, s10, Fast(0))
  {
  }
}
