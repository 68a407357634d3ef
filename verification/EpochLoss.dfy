/** A run of the epoch protocol in which a block is lost: its worker dies between the pop and the free. */
module EpochLoss {
  import opened EpochReclamation

  ghost predicate EndsIn(states: seq<State>, steps: seq<Step>, s: State) {
    IsRun(states, steps) && states[|steps|] == s
  }

  /** A run that defers `unit` `n` times ends in `s`. */
  ghost predicate Reached(s: State, unit: nat, n: nat) {
    exists states, steps :: EndsIn(states, steps, s) && Deferrals(steps, |steps|, unit) == n
  }

  lemma {:induction false} DeferralsSoFar(steps: seq<Step>, more: seq<Step>, t: nat, unit: nat)
    requires t <= |steps|
    ensures Deferrals(steps + more, t, unit) == Deferrals(steps, t, unit)
  {
    if t > 0 { DeferralsSoFar(steps, more, t - 1, unit); }
  }

  lemma ReachStep(s: State, step: Step, s': State, unit: nat, n: nat)
    requires Reached(s, unit, n) && WellShaped(s) && Next(s, step, s')
    ensures Reached(s', unit, n + if step.Defer? && step.unit == unit then 1 else 0)
  {
    var states, steps :| EndsIn(states, steps, s) && Deferrals(steps, |steps|, unit) == n;
    var states', steps' := states + [s'], steps + [step];
    forall t | 0 <= t < |steps'| ensures StepTaken(states', steps', t) {
      if t < |steps| { assert StepTaken(states, steps, t); }
    }
    DeferralsSoFar(steps, [step], |steps|, unit);
    assert EndsIn(states', steps', s');
  }

  /** One participant, in slot 0. */
  function Solo(p: Participant): (slots: seq<Participant>)
    ensures |slots| == PARTICIPANTS && slots[0] == p
    ensures forall k :: 0 < k < PARTICIPANTS ==> slots[k] == VacantSlot()
  {
    [p] + seq(PARTICIPANTS - 1, _ => VacantSlot())
  }

  ghost predicate Alone(s: State, p: Participant, unit: nat, n: nat) {
    && Reached(s, unit, n) && s.slots == Solo(p) && |s.lists| == LIST_COUNT && s.hands == map[] && s.lost == map[]
  }

  /** A step of the one participant that changes nothing but its slot. */
  lemma SoloStep(s: State, p: Participant, step: Step, q: Participant, unit: nat, n: nat) returns (s': State)
    requires Alone(s, p, unit, n) && step.i == 0 && !step.Defer? && Next(s, step, Set(s, 0, q))
    ensures s' == Set(s, 0, q) && Alone(s', q, unit, n)
  {
    s' := Set(s, 0, q);
    assert s'.slots == Solo(q);
    ReachStep(s, step, s', unit, n);
  }

  function Member(e: Epoch, cache: map<nat, Epoch>): Participant { Participant(Joined, e, cache, NoScan, {}) }

  /** The participant has reported the frontier and has nothing to do. */
  ghost predicate Resting(s: State, cache: map<nat, Epoch>, unit: nat, n: nat) {
    Alone(s, Member(s.frontier, cache), unit, n) && (0 in cache ==> cache[0] == s.frontier)
  }

  lemma Start(unit: nat) returns (s: State)
    ensures Alone(s, VacantSlot(), unit, 0)
    ensures s.frontier == MIN_ACTIVE && s.nextOp == 0 && forall l :: 0 <= l < LIST_COUNT ==> s.lists[l] == []
  {
    s := State(MIN_ACTIVE, seq(PARTICIPANTS, _ => VacantSlot()), seq(LIST_COUNT, _ => []), 0, map[], map[]);
    assert s.slots == Solo(VacantSlot());
    assert EndsIn([s], [], s) && Deferrals([], 0, unit) == 0;
  }

  lemma JoinAlone(unit: nat) returns (s: State)
    ensures Resting(s, map[0 := MIN_ACTIVE], unit, 0)
    ensures s.frontier == MIN_ACTIVE && forall l :: 0 <= l < LIST_COUNT ==> s.lists[l] == []
  {
    var s0 := Start(unit);
    var p1 := Participant(New, NEW_PARTICIPANT, map[], NoScan, {});
    var s1 := SoloStep(s0, VacantSlot(), Register(0), p1, unit, 0);
    var p2 := Publish(p1, 0, MIN_ACTIVE, Frozen);
    var s2 := SoloStep(s1, p1, Freeze(0), p2, unit, 0);
    var p3 := p2.(stage := Joining(MIN_ACTIVE));
    var s3 := SoloStep(s2, p2, ReadFrontierToJoin(0), p3, unit, 0);
    s := SoloStep(s3, p3, Join(0), Publish(p3, 0, MIN_ACTIVE, Joined), unit, 0);
    assert Publish(p3, 0, MIN_ACTIVE, Joined) == Member(MIN_ACTIVE, map[0 := MIN_ACTIVE]);
  }

  lemma Enter(s: State, cache: map<nat, Epoch>, unit: nat, n: nat) returns (s': State)
    requires Resting(s, cache, unit, n)
    ensures Alone(s', Member(s.frontier, cache).(ops := {s.nextOp}), unit, n)
    ensures s'.frontier == s.frontier && s'.lists == s.lists && s'.nextOp == s.nextOp + 1
  {
    var p := Member(s.frontier, cache);
    s' := Set(s, 0, p.(ops := {s.nextOp})).(nextOp := s.nextOp + 1);
    assert p.ops + {s.nextOp} == {s.nextOp} && s'.slots == Solo(p.(ops := {s.nextOp}));
    ReachStep(s, EnterOp(0), s', unit, n);
  }

  lemma OnlyOneRuns(s: State, p: Participant, op: OpId)
    requires s.slots == Solo(p) && p.ops == {op}
    ensures IsInProgressSet(s, {op})
  {
    forall o ensures o in {op} <==> InProgress(s, o) {
      assert op in s.slots[0].ops;
    }
  }

  /** An operation defers the block. */
  lemma DeferOne(s: State, cache: map<nat, Epoch>, unit: nat) returns (s': State, cache': map<nat, Epoch>)
    requires Resting(s, cache, unit, 0) && s.frontier == MIN_ACTIVE
    requires forall l :: 0 <= l < LIST_COUNT ==> s.lists[l] == []
    ensures Resting(s', cache', unit, 1) && s'.frontier == MIN_ACTIVE
    ensures |s'.lists[0]| == 1 && s'.lists[0][0].unit == unit
    ensures forall l :: 0 < l < LIST_COUNT ==> s'.lists[l] == []
  {
    var e, op := s.frontier, s.nextOp;
    var s1 := Enter(s, cache, unit, 0);
    var p1 := Member(e, cache).(ops := {op});
    OnlyOneRuns(s1, p1, op);
    cache' := cache[0 := e];
    var p2 := Member(e, cache').(ops := {op});
    var s2 := Set(s1, 0, p2).(lists := s1.lists[0 := [Parked(unit, e, e, {op})] + s1.lists[0]]);
    assert s2.slots == Solo(p2) && (e + 3) % LIST_COUNT == 0;
    ReachStep(s1, Defer(0, op, unit), s2, unit, 0);
    assert p2.(ops := p2.ops - {op}) == Member(e, cache');
    s' := SoloStep(s2, p2, ExitOp(0, op), Member(e, cache'), unit, 1);
  }

  /** A scan that has inspected the first `k` slots. */
  ghost predicate ScannedTo(s: State, cache: map<nat, Epoch>, k: nat, unit: nat, n: nat) {
    && Alone(s, Member(s.frontier, cache).(scan := Scanning(s.frontier, k, true)), unit, n)
    && (forall x :: x in cache ==> x < k) && (0 in cache ==> cache[0] == s.frontier)
  }

  lemma ScanOne(s: State, cache: map<nat, Epoch>, k: nat, unit: nat, n: nat)
    returns (s': State, cache': map<nat, Epoch>)
    requires ScannedTo(s, cache, k, unit, n) && k < PARTICIPANTS
    ensures ScannedTo(s', cache', k + 1, unit, n)
    ensures s'.frontier == s.frontier && s'.lists == s.lists
  {
    var p := Member(s.frontier, cache).(scan := Scanning(s.frontier, k, true));
    cache' := cache[k := Reads(s, 0, k)];
    var q := Member(s.frontier, cache').(scan := Scanning(s.frontier, k + 1, true));
    s' := SoloStep(s, p, ScanSlot(0), q, unit, n);
  }

  lemma {:induction false} ScanRest(s: State, cache: map<nat, Epoch>, k: nat, unit: nat, n: nat)
    returns (s': State, cache': map<nat, Epoch>)
    requires ScannedTo(s, cache, k, unit, n) && k <= PARTICIPANTS
    ensures ScannedTo(s', cache', PARTICIPANTS, unit, n)
    ensures s'.frontier == s.frontier && s'.lists == s.lists
    decreases PARTICIPANTS - k
  {
    s', cache' := s, cache;
    if k < PARTICIPANTS {
      s', cache' := ScanOne(s, cache, k, unit, n);
      s', cache' := ScanRest(s', cache', k + 1, unit, n);
    }
  }

  lemma Scan(s: State, cache: map<nat, Epoch>, unit: nat, n: nat) returns (s': State, cache': map<nat, Epoch>)
    requires Resting(s, cache, unit, n)
    ensures ScannedTo(s', cache', PARTICIPANTS, unit, n) && s'.frontier == s.frontier && s'.lists == s.lists
  {
    var p, e := Member(s.frontier, cache), s.frontier;
    var p1 := Member(e, map[]).(scan := Flushed);
    var s1 := SoloStep(s, p, Flush(0), p1, unit, n);
    var p2 := Member(e, map[]).(scan := Scanning(e, 0, true));
    var s2 := SoloStep(s1, p1, ScanFrontier(0), p2, unit, n);
    s', cache' := ScanRest(s2, map[], 0, unit, n);
  }

  /** The participant scans, advances the frontier and reports it. */
  lemma AdvanceOne(s: State, cache: map<nat, Epoch>, unit: nat, n: nat)
    returns (s': State, cache': map<nat, Epoch>)
    requires Resting(s, cache, unit, n)
    ensures Resting(s', cache', unit, n) && s'.frontier == s.frontier + 1 && s'.lists == s.lists
  {
    var e := s.frontier;
    var s1, cache1 := Scan(s, cache, unit, n);
    var p1 := Member(e, cache1).(scan := Scanning(e, PARTICIPANTS, true));
    var p2 := Member(e, cache1);
    var s2 := Set(s1, 0, p2).(frontier := e + 1);
    assert s2.slots == Solo(p2);
    ReachStep(s1, EndScan(0), s2, unit, n);
    var p3 := p2.(stage := Reporting(e + 1));
    var s3 := SoloStep(s2, p2, ReadFrontierToReport(0), p3, unit, n);
    cache' := cache1[0 := e + 1];
    assert Publish(p3, 0, e + 1, Joined) == Member(e + 1, cache');
    s' := SoloStep(s3, p3, Report(0), Member(e + 1, cache'), unit, n);
  }

  /** A worker pops the block and dies. */
  lemma TakeAndDie(s: State, cache: map<nat, Epoch>, unit: nat) returns (s': State)
    requires Resting(s, cache, unit, 1) && s.frontier == MIN_ACTIVE + 3
    requires |s.lists[0]| == 1 && s.lists[0][0].unit == unit
    requires forall l :: 0 < l < LIST_COUNT ==> s.lists[l] == []
    ensures Reached(s', unit, 1) && |s'.lists| == LIST_COUNT
    ensures (forall l :: 0 <= l < LIST_COUNT ==> s'.lists[l] == []) && s'.hands == map[]
    ensures s'.lost == map[s.nextOp := s.lists[0][0]]
  {
    var e, op, q := s.frontier, s.nextOp, s.lists[0][0];
    var s1 := Enter(s, cache, unit, 1);
    var p2 := Member(e, cache[0 := e]).(ops := {op});
    assert Reads(s1, 0, 0) == e && e % LIST_COUNT == 0;
    var s2 := Set(s1, 0, p2).(lists := s1.lists[0 := s1.lists[0][1..]], hands := map[op := q]);
    ReachStep(s1, Take(0, op), s2, unit, 1);
    var p3 := p2.(stage := Dead, ops := {});
    s' := Set(s2, 0, p3).(hands := map[], lost := map[op := q]);
    assert s2.hands - {op} == map[] && s2.lost + HeldBy(s2.hands, {op}) == map[op := q];
    ReachStep(s2, Die(0), s', unit, 1);
  }

  /** A deferred block that is never freed, waits nowhere and is in nobody's hands. */
  lemma DeathLosesBlock(unit: nat) returns (states: seq<State>, steps: seq<Step>)
    ensures IsRun(states, steps)
    ensures Deferrals(steps, |steps|, unit) == 1 && HandBacks(states, steps, |steps|, unit) == 0
    ensures Waiting(states[|steps|].lists, unit) == 0 && Held(states[|steps|].hands, unit) == 0
    ensures Held(states[|steps|].lost, unit) == 1 && DiedHolding(states, steps, |steps|, unit)
  {
    var s0 := JoinAlone(unit);
    var s1, cache1 := DeferOne(s0, map[0 := MIN_ACTIVE], unit);
    var s2, cache2 := AdvanceOne(s1, cache1, unit, 1);
    var s3, cache3 := AdvanceOne(s2, cache2, unit, 1);
    var s4, cache4 := AdvanceOne(s3, cache3, unit, 1);
    var s := TakeAndDie(s4, cache4, unit);
    states, steps :| EndsIn(states, steps, s) && Deferrals(steps, |steps|, unit) == 1;
    NothingWaiting(s.lists, unit);
    assert Holders(s.hands, unit) == {} && Holders(s.lost, unit) == {s4.nextOp};
    DeferredIsConserved(states, steps, |steps|, unit);
    NothingLostIff(states, steps, |steps|, unit);
  }
}
