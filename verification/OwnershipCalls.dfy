/** What becomes of an item in `Ownership` whose owner has died, and what each call does when left alone. */
module OwnershipCalls {
  import opened Ownership

  // ---------------------------------------------------------------- from a death to the next owner

  /** The owner word names a process that is dead, or one that is recovering the item. */
  ghost predicate Unrecovered(s: State, i: nat) {
    && i < |s.items| && s.items[i] != NOBODY
    && (s.items[i] in s.live ==> s.items[i] in s.pcs && Recovers(s.pcs[s.items[i]], i))
  }

  predicate Recovers(pc: Pc, i: nat) { pc.Recovering? && pc.item == i }

  /** A recovery of the item ends well, or a process revokes it that wants no recovery. */
  ghost predicate GivesUp(s: State, step: Step, i: nat) {
    && step.p in s.pcs
    && match step
       case EndRecovery(p, ok) => Recovers(s.pcs[p], i) && ok
       case Advance(p) =>
         match s.pcs[p] {
           case Revoke(j, recover, seen) => j == i < |s.items| && s.items[i] == seen && !recover
           case _ => false
         }
       case _ => false
  }

  lemma UnrecoveredStays(s: State, step: Step, s': State, i: nat)
    requires Inv(s) && Next(s, step, s') && Unrecovered(s, i) && !GivesUp(s, step, i)
    ensures Unrecovered(s', i)
  {
    assert Known(s, s.items[i]);
    match step
    case Advance(p) => AdvanceStays(s, p, i);
    case EndRecovery(p, _) => RecovererOwns(s, p);
    case _ => ClientStays(s, step, s', i);
  }

  lemma ClientStays(s: State, step: Step, s': State, i: nat)
    requires Next(s, step, s') && !step.Advance? && !step.EndRecovery?
    requires Unrecovered(s, i) && s.items[i] in s.started && s.live <= s.pcs.Keys
    ensures Unrecovered(s', i)
  {
  }

  lemma RecovererOwns(s: State, p: Id)
    requires Inv(s) && Runs(s, p) && s.pcs[p].Recovering? && s.pcs[p].item < |s.items|
    ensures s.items[s.pcs[p].item] == p && s.pcs[p].seen !in s.live && s.pcs[p].seen != NOBODY
  {
    assert Has(s, p, s.pcs[p].item) && PcOk(s, p);
  }

  lemma AdvanceStays(s: State, p: Id, i: nat)
    requires Inv(s) && Enabled(s, Advance(p)) && Unrecovered(s, i) && !GivesUp(s, Advance(p), i)
    ensures Unrecovered(Advanced(s, p), i)
  {
    assert PcOk(s, p);
  }

  ghost predicate NotGivenUp(states: seq<State>, steps: seq<Step>, i: nat, a: nat, t: nat)
    requires t <= |steps| < |states|
  {
    forall u :: a < u < t ==> !GivesUp(states[u], steps[u], i)
  }

  lemma {:induction false} UnrecoveredUntil(states: seq<State>, steps: seq<Step>, i: nat, a: nat, t: nat)
    requires IsRun(states, steps) && a < t <= |steps| && Safe(states[t].started)
    requires steps[a].Die? && i < |states[a].items| && states[a].items[i] == steps[a].p
    requires NotGivenUp(states, steps, i, a, t)
    ensures Unrecovered(states[t], i)
    decreases t
  {
    assert StepTaken(states, steps, t - 1);
    SafePrefix(states[t - 1].started, states[t].started);
    RunInv(states, steps, t - 1);
    if t - 1 == a {
      assert Known(states[a], steps[a].p);
    } else {
      assert NotGivenUp(states, steps, i, a, t - 1);
      UnrecoveredUntil(states, steps, i, a, t - 1);
      UnrecoveredStays(states[t - 1], steps[t - 1], states[t], i);
    }
  }

  /** After the death of its owner nobody acquires an item before a recovery of it has ended well or a process
      that wants no recovery has revoked it. */
  lemma AcquiredAfterRecovery(states: seq<State>, steps: seq<Step>, i: nat, a: nat, t: nat)
    requires IsRun(states, steps) && a < t < |steps| && Safe(states[t].started)
    requires steps[a].Die? && i < |states[a].items| && states[a].items[i] == steps[a].p
    requires steps[t].Acquire? && steps[t].item == i && states[t + 1].items != states[t].items
    ensures exists u :: a < u < t && GivesUp(states[u], steps[u], i)
  {
    assert StepTaken(states, steps, t);
    if NotGivenUp(states, steps, i, a, t) { UnrecoveredUntil(states, steps, i, a, t); }
  }

  /** Then it is free: any process that is alive and in the middle of nothing can acquire it. */
  lemma FreeAfterRecovery(s: State, step: Step, s': State, i: nat, q: Id)
    requires Inv(s) && Next(s, step, s') && GivesUp(s, step, i) && Runs(s', q) && s'.pcs[q] == Idle
    ensures i < |s'.items| && s'.items[i] == NOBODY
    ensures Enabled(s', Acquire(q, i)) && After(s', Acquire(q, i)).items == s'.items[i := q]
    ensures After(s', Acquire(q, i)).held[q] == s'.held[q] + {i}
  {
  }

  // ---------------------------------------------------------------- calls left alone

  /** What a check of item `i` by process `p` leaves when nobody disturbs it. */
  function Checked(s: State, p: Id, i: nat, recover: bool): State
    requires i < |s.items|
  {
    var d := s.items[i];
    if !IsValid(d) || d in s.live then s
    else if recover then At(Write(s, i, p), p, Recovering(i, d))
    else Write(s, i, NOBODY)
  }

  /** The steps of process `p` alone lead from `s` to `s'`. */
  ghost predicate Alone(s: State, p: Id, steps: seq<Step>, s': State)
    decreases |steps|
  {
    if steps == [] then s' == s
    else steps[0].p == p && Enabled(s, steps[0]) && Alone(After(s, steps[0]), p, steps[1..], s')
  }

  /** A check that nobody disturbs takes the item over when its owner is dead, for recovery where wanted, and
      otherwise leaves everything as it is. */
  lemma CheckAlone(s: State, p: Id, i: nat, recover: bool) returns (steps: seq<Step>)
    requires Runs(s, p) && s.pcs[p] == Idle && i < |s.items|
    ensures Alone(s, p, steps, Checked(s, p, i, recover)) && steps != [] && steps[0] == BeginCheck(p, i, recover)
  {
    var d, s' := s.items[i], Checked(s, p, i, recover);
    var begin, on := BeginCheck(p, i, recover), Advance(p);
    var s1 := After(s, begin);
    var s2 := After(s1, on);
    var s3 := After(s2, on);
    var s4 := After(s3, on);
    assert s.pcs[p := Idle] == s.pcs;
    assert s3.pcs[p] == CheckAlive(i, recover, d);
    if !IsValid(d) || d in s.live {
      steps := [begin, on, on, on];
      assert s4.pcs == s.pcs && s4 == s;
      assert Alone(s4, p, [], s);
      assert Alone(s3, p, [on], s);
      assert Alone(s2, p, [on, on], s) by { assert [on, on][1..] == [on]; }
      assert Alone(s1, p, [on, on, on], s) by { assert [on, on, on][1..] == [on, on]; }
      assert steps[1..] == [on, on, on];
    } else {
      steps := [begin, on, on, on, on];
      var s5 := After(s4, on);
      assert s5 == s';
      assert Alone(s5, p, [], s');
      assert Alone(s4, p, [on], s');
      assert Alone(s3, p, [on, on], s') by { assert [on, on][1..] == [on]; }
      assert Alone(s2, p, [on, on, on], s') by { assert [on, on, on][1..] == [on, on]; }
      assert Alone(s1, p, [on, on, on, on], s') by { assert [on, on, on, on][1..] == [on, on, on]; }
      assert steps[1..] == [on, on, on, on];
    }
  }

  /** A recovery that fails leaves the item for others to find: the next check by anybody, left alone, takes
      it over. */
  lemma FailedRecoveryIsFound(s: State, p: Id, s': State, q: Id, recover: bool) returns (steps: seq<Step>, s'': State)
    requires Inv(s) && Next(s, EndRecovery(p, false), s') && Runs(s', q) && s'.pcs[q] == Idle
    ensures Alone(s', q, steps, s'') && steps != [] && steps[0] == BeginCheck(q, s.pcs[p].item, recover)
    ensures var i, d := s.pcs[p].item, s.pcs[p].seen;
            s'' == if recover then At(Write(s', i, q), q, Recovering(i, d)) else Write(s', i, NOBODY)
  {
    RecovererOwns(s, p);
    assert PcOk(s, p);
    var i := s.pcs[p].item;
    steps := CheckAlone(s', q, i, recover);
    s'' := Checked(s', q, i, recover);
  }

  /** The same holds when the recovering process dies: its own id is then the dead owner's. */
  lemma DeadRecovererIsFound(s: State, p: Id, s': State, q: Id, recover: bool) returns (steps: seq<Step>, s'': State)
    requires Inv(s) && Next(s, Die(p), s') && s.pcs[p].Recovering? && Runs(s', q) && s'.pcs[q] == Idle
    ensures s.pcs[p].item < |s.items|
    ensures Alone(s', q, steps, s'') && steps != [] && steps[0] == BeginCheck(q, s.pcs[p].item, recover)
    ensures var i := s.pcs[p].item;
            s'' == if recover then At(Write(s', i, q), q, Recovering(i, p)) else Write(s', i, NOBODY)
  {
    assert Has(s, p, s.pcs[p].item) && p in s.started;
    var i := s.pcs[p].item;
    steps := CheckAlone(s', q, i, recover);
    s'' := Checked(s', q, i, recover);
  }

  /** Releasing undoes acquiring. */
  lemma ReleaseUndoesAcquire(s: State, p: Id, i: nat)
    requires Inv(s) && Runs(s, p) && s.pcs[p] == Idle && i < |s.items| && s.items[i] == NOBODY
    ensures var s1 := After(s, Acquire(p, i));
            && s1.items[i] == p && i in s1.held[p]
            && Enabled(s1, Release(p, i)) && After(s1, Release(p, i)) == s
  {
    NobodyIsDead(s);
    assert !Has(s, p, i);
    var s1 := After(s, Acquire(p, i));
    var s2 := After(s1, Release(p, i));
    assert s2.items == s.items;
    assert s2.held[p] == s.held[p];
    assert s2.held == s.held;
  }
}
