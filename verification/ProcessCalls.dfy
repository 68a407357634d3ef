/** What an operation or a heartbeat of `EpochProcess` publishes, and that either completes when left alone. */
module ProcessCalls {
  import opened EpochProcess

  /** Thread `t` read the frontier `f` at step `r`. */
  ghost predicate ReadsAt(states: seq<State>, steps: seq<Step>, t: Thread, r: nat, f: Epoch) {
    && r < |steps| < |states| && steps[r] == Advance(t, f)
    && t in states[r].pcs && (states[r].pcs[t].EnterRead? || states[r].pcs[t].BeatRead?)
  }

  lemma RunStep(states: seq<State>, steps: seq<Step>, j: nat)
    requires IsRun(states, steps) && j < |steps|
    ensures Inv(states[j]) && Next(states[j], steps[j], states[j + 1])
  {
    RunInv(states, steps, j);
    assert StepTaken(states, steps, j);
  }

  predicate BusyAt(states: seq<State>, t: Thread, u: nat)
    requires u < |states|
  {
    t in states[u].pcs && states[u].pcs[t] != Idle
  }

  lemma OtherPcs(s: State, step: Step, s': State, t: Thread)
    requires 0 < |s.counters| == |s.counted| && Next(s, step, s') && t != step.t
    ensures t in s'.pcs <==> t in s.pcs
    ensures t in s.pcs ==> s'.pcs[t] == s.pcs[t]
  {
    if step.Advance? { OtherAdvances(s, step.t, step.frontier, s', t); }
  }

  lemma OtherAdvances(s: State, u: Thread, f: Epoch, s': State, t: Thread)
    requires 0 < |s.counters| == |s.counted| && Next(s, Advance(u, f), s') && t != u
    ensures t in s'.pcs <==> t in s.pcs
    ensures t in s.pcs ==> s'.pcs[t] == s.pcs[t]
    ensures s'.reported == s.reported || HasMutex(s.pcs[u])
  {
    if SharedStep(s, u, s') {} else if CountStep(s, u, f, s') {} else { assert ExclusiveStep(s, u, f, s'); }
  }

  /** Only the holder of the mutex reports. */
  lemma OthersFrame(s: State, step: Step, s': State, t: Thread)
    requires Inv(s) && Next(s, step, s') && t in s.pcs && t != step.t
    ensures t in s'.pcs && s'.pcs[t] == s.pcs[t]
    ensures HasMutex(s.pcs[t]) ==> s'.reported == s.reported
  {
    assert ThreadOk(s, t);
    OtherPcs(s, step, s', t);
    if step.Advance? {
      assert ThreadOk(s, step.t);
      OtherAdvances(s, step.t, step.frontier, s', t);
    }
  }

  // ---------------------------------------------------------------- an operation that enters

  /** The thread has counted itself in at step `c`; if it was the first, it has read the frontier, at step `r`,
      and reports it; if not, the epoch is the one that was reported then. */
  ghost predicate EntrySoFar(states: seq<State>, steps: seq<Step>, t: Thread, c: nat, r: nat, j: nat)
    requires j <= |steps| < |states| && t in states[j].pcs
  {
    && c < j && steps[c].t == t && t in states[c].pcs && states[c].pcs[t].EnterCount?
    && match states[j].pcs[t]
       case EnterRead => states[c].count == 0
       case EnterReport(f) => states[c].count == 0 && c < r < j && ReadsAt(states, steps, t, r, f)
       case EnterDone => Agreed(states, steps, t, c, r, j, states[j].reported)
       case InOp(e) => Agreed(states, steps, t, c, r, j, e)
       case _ => false
  }

  ghost predicate Agreed(states: seq<State>, steps: seq<Step>, t: Thread, c: nat, r: nat, j: nat, e: Epoch)
    requires c < |states|
  {
    if states[c].count == 0 then c < r < j && ReadsAt(states, steps, t, r, e) else e == states[c].reported
  }

  /** The thread has counted itself in and has not begun to leave. */
  predicate Entered(pc: Pc) { pc.EnterRead? || pc.EnterReport? || pc.EnterDone? || pc.InOp? }

  /** What the thread's own step does on the way in. */
  ghost predicate EntryAdvances(s: State, t: Thread, f: Epoch, s': State)
    requires t in s.pcs && t in s'.pcs
  {
    match s'.pcs[t]
    case EnterRead => s.pcs[t].EnterCount? && s.count == 0
    case EnterReport(e) => s.pcs[t].EnterRead? && e == f
    case EnterDone =>
      (s.pcs[t].EnterCount? && s.count != 0 && s'.reported == s.reported) || s.pcs[t] == EnterReport(s'.reported)
    case InOp(e) => s.pcs[t].EnterDone? && e == s.reported
    case _ => true
  }

  lemma CountEntry(s: State, t: Thread, f: Epoch, s': State)
    requires t in s.pcs && CountStep(s, t, f, s')
    ensures t in s'.pcs && EntryAdvances(s, t, f, s')
  {}

  lemma OtherEntry(s: State, t: Thread, f: Epoch, s': State)
    requires 0 < |s.counters| == |s.counted| && t in s.pcs && (SharedStep(s, t, s') || ExclusiveStep(s, t, f, s'))
    ensures t in s'.pcs && !Entered(s'.pcs[t])
  {}

  lemma OwnEntry(s: State, step: Step, s': State)
    requires 0 < |s.counters| == |s.counted| && Next(s, step, s') && step.t in s'.pcs && Entered(s'.pcs[step.t])
    ensures step.t in s.pcs && step.Advance? && EntryAdvances(s, step.t, step.frontier, s')
  {
    if step.Advance? {
      var t, f := step.t, step.frontier;
      if CountStep(s, t, f, s') { CountEntry(s, t, f, s'); } else { OtherEntry(s, t, f, s'); }
    }
  }

  lemma {:induction false} EntryHolds(states: seq<State>, steps: seq<Step>, t: Thread, j: nat) returns (c: nat, r: nat)
    requires IsRun(states, steps) && j <= |steps| && t in states[j].pcs && Entered(states[j].pcs[t])
    ensures EntrySoFar(states, steps, t, c, r, j)
    decreases j
  {
    var i := j - 1;
    RunStep(states, steps, i);
    if steps[i].t != t {
      OtherPcs(states[i], steps[i], states[j], t);
      OthersFrame(states[i], steps[i], states[j], t);
      c, r := EntryHolds(states, steps, t, i);
    } else {
      OwnEntry(states[i], steps[i], states[j]);
      if states[i].pcs[t].EnterCount? {
        c, r := i, 0;
      } else {
        c, r := EntryHolds(states, steps, t, i);
        if states[i].pcs[t].EnterRead? { r := i; }
      }
    }
  }

  /** An operation that comes in first runs under the frontier it has read since; any other runs under the epoch
      that was reported when it came in. */
  lemma FirstInReadsFrontier(states: seq<State>, steps: seq<Step>, t: Thread, j: nat) returns (c: nat, r: nat)
    requires IsRun(states, steps) && j <= |steps| && t in states[j].pcs && states[j].pcs[t].InOp?
    ensures c < j && steps[c].t == t && t in states[c].pcs && states[c].pcs[t].EnterCount?
    ensures if states[c].count == 0 then c < r < j && ReadsAt(states, steps, t, r, states[j].reported)
            else states[j].reported == states[c].reported
  {
    c, r := EntryHolds(states, steps, t, j);
    EpochHeldByOps(states, steps, j, t);
  }

  /** On the way in, running, or on the way out. */
  predicate OnWayIn(pc: Pc) {
    pc.SharedAdd? || pc.SharedCheck? || pc.SharedUndo? || pc.SharedWait? || pc.EnterMutex? || pc.EnterCount?
    || pc.EnterRead? || pc.EnterReport? || pc.EnterDone?
  }

  predicate OnWayOut(pc: Pc) { pc.ExitMutex? || pc.ExitCount? || pc.ExitDone? || pc.SharedSub? }

  /** What one step of the thread makes of it: nobody turns back. */
  predicate Onward(pc: Pc, pc': Pc) {
    if OnWayIn(pc) then OnWayIn(pc') || pc'.InOp?
    else if pc.InOp? then OnWayOut(pc')
    else OnWayOut(pc) ==> OnWayOut(pc') || pc'.Idle?
  }

  lemma OwnOnward(s: State, step: Step, s': State)
    requires 0 < |s.counters| == |s.counted| && Next(s, step, s') && step.t in s.pcs
    ensures step.t in s'.pcs && Onward(s.pcs[step.t], s'.pcs[step.t])
  {
    if step.Advance? {
      var t, f := step.t, step.frontier;
      if SharedStep(s, t, s') {} else { OtherOnward(s, t, f, s'); }
    }
  }

  lemma OtherOnward(s: State, t: Thread, f: Epoch, s': State)
    requires t in s.pcs && (CountStep(s, t, f, s') || ExclusiveStep(s, t, f, s'))
    ensures t in s'.pcs && Onward(s.pcs[t], s'.pcs[t])
  {
    if CountStep(s, t, f, s') {} else {}
  }

  /** From step `b` to state `j` the thread is in the operation that step `b` begins. */
  ghost predicate Operates(states: seq<State>, steps: seq<Step>, t: Thread, b: nat, j: nat) {
    && IsRun(states, steps) && b < j <= |steps| && steps[b] == BeginOp(t)
    && BusyAt(states, t, j) && forall u :: b < u < j ==> BusyAt(states, t, u)
  }

  predicate RunsOpAt(states: seq<State>, t: Thread, u: nat)
    requires u < |states|
  {
    t in states[u].pcs && states[u].pcs[t].InOp?
  }

  lemma {:induction false} OperationHolds(states: seq<State>, steps: seq<Step>, t: Thread, b: nat, j: nat)
    returns (u: nat)
    requires Operates(states, steps, t, b, j)
    ensures OnWayIn(states[j].pcs[t])
            || ((states[j].pcs[t].InOp? || OnWayOut(states[j].pcs[t])) && b < u <= j && RunsOpAt(states, t, u))
    decreases j
  {
    var i := j - 1;
    RunStep(states, steps, i);
    if i == b {
      u := 0;
    } else {
      assert BusyAt(states, t, i);
      u := OperationHolds(states, steps, t, b, i);
      if steps[i].t != t {
        OtherPcs(states[i], steps[i], states[j], t);
      } else {
        OwnOnward(states[i], steps[i], states[j]);
        if states[j].pcs[t].InOp? { u := j; }
      }
    }
  }

  /** An operation that returns has run. */
  lemma OperationRuns(states: seq<State>, steps: seq<Step>, t: Thread, b: nat, j: nat) returns (u: nat)
    requires Operates(states, steps, t, b, j) && j < |steps| && t in states[j + 1].pcs && states[j + 1].pcs[t] == Idle
    ensures b < u <= j && RunsOpAt(states, t, u)
  {
    u := OperationHolds(states, steps, t, b, j);
    RunStep(states, steps, j);
    if steps[j].t != t {
      OtherPcs(states[j], steps[j], states[j + 1], t);
    } else {
      OwnOnward(states[j], steps[j], states[j + 1]);
    }
  }

  // ---------------------------------------------------------------- a heartbeat

  /** The thread is in the heartbeat it began at step `b`. */
  ghost predicate BeatSoFar(states: seq<State>, steps: seq<Step>, t: Thread, b: nat, r: nat, w: nat, j: nat)
    requires j <= |steps| < |states| && t in states[j].pcs
  {
    && b < j && steps[b] == BeginExclusive(t, Heartbeat)
    && match states[j].pcs[t]
       case ExclusiveCas(p) => p == Heartbeat
       case ExclusiveScan(p, _) => p == Heartbeat
       case ExclusiveIn(p) => p == Heartbeat
       case BeatCheck => true
       case BeatRead => true
       case BeatReport(f) => b < r < j && ReadsAt(states, steps, t, r, f)
       case BeatDone => PublishedAt(states, steps, t, b, r, w, j)
       case ExclusiveOut => PublishedAt(states, steps, t, b, r, w, j)
       case _ => false
  }

  /** It read the frontier at step `r` and published it at step `w`. */
  ghost predicate PublishedAt(states: seq<State>, steps: seq<Step>, t: Thread, b: nat, r: nat, w: nat, j: nat)
    requires j <= |steps| < |states|
  {
    && b < r < w < j && steps[w].t == t && t in states[w].pcs && states[w].pcs[t].BeatReport?
    && ReadsAt(states, steps, t, r, states[w + 1].reported)
  }

  predicate InBeat(pc: Pc) {
    match pc
    case ExclusiveCas(p) => p == Heartbeat
    case ExclusiveScan(p, _) => p == Heartbeat
    case ExclusiveIn(p) => p == Heartbeat
    case _ => Beating(pc)
  }

  lemma OwnBeat(s: State, step: Step, s': State)
    requires Inv(s) && Next(s, step, s') && step.t in s.pcs && InBeat(s.pcs[step.t])
    ensures step.t in s'.pcs && step.Advance?
    ensures match s.pcs[step.t]
            case BeatCheck => s'.pcs[step.t] == BeatRead
            case BeatRead => s'.pcs[step.t] == BeatReport(step.frontier)
            case BeatReport(f) => s'.pcs[step.t] == BeatDone && s'.reported == f
            case BeatDone => s'.pcs[step.t] == ExclusiveOut
            case _ => InBeat(s'.pcs[step.t]) && !s'.pcs[step.t].BeatReport? && !s'.pcs[step.t].BeatDone?
  {
    assert step.Advance? ==> !SharedStep(s, step.t, s') && !CountStep(s, step.t, step.frontier, s');
  }

  /** From step `b` to state `j` the thread is inside the heartbeat that step `b` begins. */
  ghost predicate Beats(states: seq<State>, steps: seq<Step>, t: Thread, b: nat, j: nat) {
    && IsRun(states, steps) && b < j <= |steps| && steps[b] == BeginExclusive(t, Heartbeat)
    && BusyAt(states, t, j) && forall u :: b < u < j ==> BusyAt(states, t, u)
  }

  lemma {:induction false} BeatHolds(states: seq<State>, steps: seq<Step>, t: Thread, b: nat, j: nat)
    returns (r: nat, w: nat)
    requires Beats(states, steps, t, b, j)
    ensures BeatSoFar(states, steps, t, b, r, w, j)
    decreases j
  {
    var i := j - 1;
    RunStep(states, steps, i);
    if i == b {
      r, w := 0, 0;
    } else {
      assert BusyAt(states, t, i);
      r, w := BeatHolds(states, steps, t, b, i);
      r, w := BeatStep(states, steps, t, b, r, w, i);
    }
  }

  lemma BeatStep(states: seq<State>, steps: seq<Step>, t: Thread, b: nat, r: nat, w: nat, i: nat)
    returns (r': nat, w': nat)
    requires IsRun(states, steps) && i < |steps| && t in states[i].pcs && BeatSoFar(states, steps, t, b, r, w, i)
    requires BusyAt(states, t, i + 1)
    ensures BeatSoFar(states, steps, t, b, r', w', i + 1)
  {
    RunStep(states, steps, i);
    r', w' := r, w;
    if steps[i].t != t {
      OthersFrame(states[i], steps[i], states[i + 1], t);
    } else if states[i].pcs[t].ExclusiveOut? {
      OutEnds(states[i], steps[i], states[i + 1]);
    } else {
      OwnBeat(states[i], steps[i], states[i + 1]);
      if states[i].pcs[t].BeatRead? { r' := i; }
      if states[i].pcs[t].BeatReport? { w' := i; }
    }
  }

  lemma OutEnds(s: State, step: Step, s': State)
    requires Inv(s) && Next(s, step, s') && step.t in s.pcs && s.pcs[step.t].ExclusiveOut?
    ensures step.t in s'.pcs && s'.pcs[step.t] == Idle
  {
  }

  /** A heartbeat that returns has published the frontier that it read since it began. */
  lemma HeartbeatPublishes(states: seq<State>, steps: seq<Step>, t: Thread, b: nat, j: nat) returns (r: nat, w: nat)
    requires Beats(states, steps, t, b, j) && j < |steps| && t in states[j + 1].pcs && states[j + 1].pcs[t] == Idle
    ensures PublishedAt(states, steps, t, b, r, w, j)
  {
    r, w := BeatHolds(states, steps, t, b, j);
    RunStep(states, steps, j);
    if steps[j].t != t {
      OthersFrame(states[j], steps[j], states[j + 1], t);
    } else if !states[j].pcs[t].ExclusiveOut? {
      OwnBeat(states[j], steps[j], states[j + 1]);
    }
  }

  // ---------------------------------------------------------------- calls left alone

  ghost predicate IsPath(states: seq<State>, steps: seq<Step>) {
    |states| == |steps| + 1 && forall j :: 0 <= j < |steps| ==> StepTaken(states, steps, j)
  }

  /** Call `first`, left alone while the frontier is `f`, takes the process from `s` to `s'`. */
  ghost predicate Done(s: State, first: Step, f: Epoch, s': State) {
    exists states, steps :: DoneBy(states, steps, s, first, f, s')
  }

  ghost predicate DoneBy(states: seq<State>, steps: seq<Step>, s: State, first: Step, f: Epoch, s': State) {
    && IsPath(states, steps) && states[0] == s && states[|steps|] == s' && steps != [] && steps[0] == first
    && forall j :: 0 < j < |steps| ==> steps[j] == Advance(first.t, f)
  }

  lemma Begin(s: State, first: Step, f: Epoch, s': State)
    requires 0 < |s.counters| == |s.counted| && Next(s, first, s')
    ensures Done(s, first, f, s')
  {
    assert StepTaken([s, s'], [first], 0);
    assert DoneBy([s, s'], [first], s, first, f, s');
  }

  lemma Then(s0: State, first: Step, f: Epoch, s: State, s': State)
    requires Done(s0, first, f, s) && 0 < |s.counters| == |s.counted| && Next(s, Advance(first.t, f), s')
    ensures Done(s0, first, f, s')
  {
    var states, steps :| DoneBy(states, steps, s0, first, f, s);
    var states', steps' := states + [s'], steps + [Advance(first.t, f)];
    forall j | 0 <= j < |steps'| ensures StepTaken(states', steps', j) {
      if j < |steps| { assert StepTaken(states, steps, j); }
    }
    assert DoneBy(states', steps', s0, first, f, s');
  }

  /** An operation that nobody disturbs gets in, under the frontier if it is the first. */
  lemma EnterAlone(s: State, t: Thread, f: Epoch) returns (s': State)
    requires 0 < |s.counters| == |s.counted| && t in s.pcs && s.pcs[t] == Idle
    requires s.writer == Nobody && s.mutex == Nobody
    ensures Done(s, BeginOp(t), f, s')
    ensures var e := if s.count == 0 then f else s.reported;
            s' == At(Add(s, t), t, InOp(e)).(reported := e, count := s.count + 1, active := s.active + {t})
  {
    var first := BeginOp(t);
    var s1 := At(s, t, SharedAdd);
    Begin(s, first, f, s1);
    var s2 := At(Add(s1, t), t, SharedCheck);
    Then(s, first, f, s1, s2);
    var s3 := At(s2, t, EnterMutex);
    Then(s, first, f, s2, s3);
    s' := CountInAlone(s, first, f, s3);
    assert s'.pcs == At(Add(s, t), t, s'.pcs[t]).pcs;
  }

  lemma CountInAlone(s0: State, first: Step, f: Epoch, s: State) returns (s': State)
    requires Done(s0, first, f, s) && 0 < |s.counters| == |s.counted|
    requires first.t in s.pcs && s.pcs[first.t] == EnterMutex && s.mutex == Nobody
    ensures Done(s0, first, f, s')
    ensures var e := if s.count == 0 then f else s.reported;
            s' == At(s, first.t, InOp(e)).(reported := e, count := s.count + 1, active := s.active + {first.t})
  {
    var t := first.t;
    var s1 := At(s, t, EnterCount).(mutex := By(t));
    Then(s0, first, f, s, s1);
    var s2 := At(s1, t, if s.count == 0 then EnterRead else EnterDone).(
                count := s.count + 1, active := s.active + {t});
    Then(s0, first, f, s1, s2);
    s' := InAlone(s0, first, f, s2);
    assert s'.pcs == s.pcs[t := s'.pcs[t]];
  }

  lemma InAlone(s0: State, first: Step, f: Epoch, s: State) returns (s': State)
    requires Done(s0, first, f, s) && 0 < |s.counters| == |s.counted| && first.t in s.pcs
    requires s.pcs[first.t] == EnterRead || s.pcs[first.t] == EnterDone
    ensures Done(s0, first, f, s')
    ensures var e := if s.pcs[first.t].EnterRead? then f else s.reported;
            s' == At(s, first.t, InOp(e)).(reported := e, mutex := Nobody)
  {
    var t, s1 := first.t, s;
    if s.pcs[t].EnterRead? { s1 := PublishAlone(s0, first, f, s); }
    s' := At(s1, t, InOp(s1.reported)).(mutex := Nobody);
    Then(s0, first, f, s1, s');
    assert s'.pcs == s.pcs[t := s'.pcs[t]];
  }

  lemma PublishAlone(s0: State, first: Step, f: Epoch, s: State) returns (s': State)
    requires Done(s0, first, f, s) && 0 < |s.counters| == |s.counted| && first.t in s.pcs
    requires s.pcs[first.t] == EnterRead
    ensures Done(s0, first, f, s') && s' == At(s, first.t, EnterDone).(reported := f)
  {
    var t := first.t;
    var s1 := At(s, t, EnterReport(f));
    Then(s0, first, f, s, s1);
    s' := At(s1, t, EnterDone).(reported := f);
    Then(s0, first, f, s1, s');
    assert s'.pcs == s.pcs[t := EnterDone];
  }

  /** An operation that nobody disturbs gets out. */
  lemma ExitAlone(s: State, t: Thread, f: Epoch) returns (s': State)
    requires 0 < |s.counters| == |s.counted| && t in s.pcs && s.pcs[t].InOp? && s.mutex == Nobody
    ensures Done(s, EndOp(t), f, s')
    ensures s' == At(Sub(s, t), t, Idle).(count := s.count - 1, active := s.active - {t})
  {
    var first := EndOp(t);
    var s1 := At(s, t, ExitMutex);
    Begin(s, first, f, s1);
    var s2 := At(s1, t, ExitCount).(mutex := By(t));
    Then(s, first, f, s1, s2);
    var s3 := At(s2, t, ExitDone).(count := s.count - 1, active := s.active - {t});
    Then(s, first, f, s2, s3);
    var s4 := At(s3, t, SharedSub).(mutex := Nobody);
    Then(s, first, f, s3, s4);
    s' := At(Sub(s4, t), t, Idle);
    Then(s, first, f, s4, s');
    assert s'.pcs == s.pcs[t := Idle];
  }

  /** The writer finds the counters from `k` on empty. */
  lemma {:induction false} ScanAlone(s0: State, first: Step, f: Epoch, s: State, p: Purpose, k: nat) returns (s': State)
    requires Done(s0, first, f, s) && 0 < |s.counters| == |s.counted| && first.t in s.pcs
    requires s.pcs[first.t] == ExclusiveScan(p, k) && k <= |s.counters|
    requires forall i :: 0 <= i < |s.counters| ==> s.counters[i] <= 0
    ensures Done(s0, first, f, s') && s' == At(s, first.t, ExclusiveIn(p))
    decreases |s.counters| - k
  {
    var t := first.t;
    if k == |s.counters| {
      s' := At(s, t, ExclusiveIn(p));
      Then(s0, first, f, s, s');
    } else {
      var s1 := At(s, t, ExclusiveScan(p, k + 1));
      Then(s0, first, f, s, s1);
      s' := ScanAlone(s0, first, f, s1, p, k + 1);
      assert s'.pcs == s.pcs[t := ExclusiveIn(p)];
    }
  }

  /** A heartbeat that nobody disturbs publishes the frontier and leaves everything else as it was. */
  lemma HeartbeatAlone(s: State, t: Thread, f: Epoch) returns (s': State)
    requires 0 < |s.counters| == |s.counted| && t in s.pcs && s.pcs[t] == Idle
    requires s.writer == Nobody && s.mutex == Nobody && forall i :: 0 <= i < |s.counters| ==> s.counters[i] <= 0
    ensures Done(s, BeginExclusive(t, Heartbeat), f, s') && s' == s.(reported := f)
  {
    var first := BeginExclusive(t, Heartbeat);
    var s1 := At(s, t, ExclusiveCas(Heartbeat));
    Begin(s, first, f, s1);
    var s2 := At(s1, t, ExclusiveScan(Heartbeat, 0)).(writer := By(t));
    Then(s, first, f, s1, s2);
    var s3 := ScanAlone(s, first, f, s2, Heartbeat, 0);
    s' := BeatAlone(s, first, f, s3);
    assert s'.pcs == s.pcs;
  }

  /** The scanner's exclusive section, left alone, changes nothing. */
  lemma InvalidateAlone(s: State, t: Thread, f: Epoch) returns (s': State)
    requires 0 < |s.counters| == |s.counted| && t in s.pcs && s.pcs[t] == Idle
    requires s.writer == Nobody && forall i :: 0 <= i < |s.counters| ==> s.counters[i] <= 0
    ensures Done(s, BeginExclusive(t, Invalidate), f, s') && s' == s
  {
    var first := BeginExclusive(t, Invalidate);
    var s1 := At(s, t, ExclusiveCas(Invalidate));
    Begin(s, first, f, s1);
    var s2 := At(s1, t, ExclusiveScan(Invalidate, 0)).(writer := By(t));
    Then(s, first, f, s1, s2);
    var s3 := ScanAlone(s, first, f, s2, Invalidate, 0);
    var s4 := At(s3, t, ExclusiveOut);
    Then(s, first, f, s3, s4);
    s' := At(s4, t, Idle).(writer := Nobody);
    Then(s, first, f, s4, s');
    assert s'.pcs == s.pcs;
  }

  lemma BeatAlone(s0: State, first: Step, f: Epoch, s: State) returns (s': State)
    requires Done(s0, first, f, s) && 0 < |s.counters| == |s.counted| && first.t in s.pcs && s.mutex == Nobody
    requires s.pcs[first.t] == ExclusiveIn(Heartbeat)
    ensures Done(s0, first, f, s') && s' == At(s, first.t, Idle).(reported := f, writer := Nobody)
  {
    var s1 := At(s, first.t, BeatCheck).(mutex := By(first.t));
    Then(s0, first, f, s, s1);
    var s3 := ReportAlone(s0, first, f, s1);
    s' := UnlockAlone(s0, first, f, s3);
    assert s'.pcs == s.pcs[first.t := Idle];
  }

  lemma UnlockAlone(s0: State, first: Step, f: Epoch, s: State) returns (s': State)
    requires Done(s0, first, f, s) && 0 < |s.counters| == |s.counted| && first.t in s.pcs
    requires s.pcs[first.t] == BeatDone
    ensures Done(s0, first, f, s') && s' == At(s, first.t, Idle).(mutex := Nobody, writer := Nobody)
  {
    var s1 := At(s, first.t, ExclusiveOut).(mutex := Nobody);
    Then(s0, first, f, s, s1);
    s' := At(s1, first.t, Idle).(writer := Nobody);
    Then(s0, first, f, s1, s');
    assert s'.pcs == s.pcs[first.t := Idle];
  }

  lemma ReportAlone(s0: State, first: Step, f: Epoch, s: State) returns (s': State)
    requires Done(s0, first, f, s) && 0 < |s.counters| == |s.counted| && first.t in s.pcs
    requires s.pcs[first.t] == BeatCheck
    ensures Done(s0, first, f, s') && s' == At(s, first.t, BeatDone).(reported := f)
  {
    var t := first.t;
    var s1 := At(s, t, BeatRead);
    Then(s0, first, f, s, s1);
    var s2 := At(s1, t, BeatReport(f));
    Then(s0, first, f, s1, s2);
    s' := At(s2, t, BeatDone).(reported := f);
    Then(s0, first, f, s2, s');
    assert s'.pcs == s.pcs[t := BeatDone];
  }
}
