/** Which files are gone after a removal and after a recovery in `PoolMembership`, and what its calls do when
    left alone. */
module PoolCalls {
  import opened PoolMembership

  // ---------------------------------------------------------------- what is gone stays gone

  lemma GoneStays(s: State, step: Step, s': State, i: Index, v: Version)
    requires Inv(s) && Next(s, step, s') && (i, v) in s.added && Shelf(i, v) !in s.files
    ensures (i, v) in s'.added && Shelf(i, v) !in s'.files
  {
    if step.Advance? {
      assert TaskOk(s, step.p);
      if Adds(s, step.p, s') { AddsStays(s, step.p, s', i, v); }
    }
  }

  lemma AddsStays(s: State, p: Process, s': State, i: Index, v: Version)
    requires p in s.tasks && TaskOk(s, p) && Adds(s, p, s') && (i, v) in s.added && Shelf(i, v) !in s.files
    ensures (i, v) in s'.added && Shelf(i, v) !in s'.files
  {
  }

  /** The file of a shelf that was removed is gone, and stays so, as long as no slot has used up its versions. */
  lemma {:induction false} RemovedFileIsGone(states: seq<State>, steps: seq<Step>, p: Process, t: nat, u: nat)
    requires IsRun(states, steps) && t < u <= |steps| && InRange(states[u])
    requires steps[t] == Advance(p) && p in states[t].tasks && states[t].tasks[p].Destroy?
    ensures var d := states[t].tasks[p];
            (d.index, d.version) in states[u].added && Shelf(d.index, d.version) !in states[u].files
    decreases u
  {
    assert StepTaken(states, steps, u - 1);
    InRangeBefore(states[u - 1], steps[u - 1], states[u]);
    RunInv(states, steps, u - 1);
    var d := states[t].tasks[p];
    if u - 1 == t {
      assert TaskOk(states[t], p);
    } else {
      RemovedFileIsGone(states, steps, p, t, u - 1);
      GoneStays(states[u - 1], steps[u - 1], states[u], d.index, d.version);
    }
  }

  // ---------------------------------------------------------------- the versions an addition uses up

  /** From step `b` to state `t` process `p` is in the addition it began there. */
  ghost predicate Adding(states: seq<State>, steps: seq<Step>, p: Process, b: nat, t: nat) {
    && IsRun(states, steps) && b < t <= |steps| && steps[b].BeginAdd? && steps[b].p == p && !steps[b].other
    && AddsAt(states, p, t) && forall u :: b < u < t ==> AddsAt(states, p, u)
  }

  predicate AddsAt(states: seq<State>, p: Process, u: nat)
    requires u < |states|
  {
    p in states[u].tasks && InAdd(states[u].tasks[p])
  }

  predicate InAdd(task: Task) { task.Create? || task.Claim? || task.Rename? || task.MarkUsed? }

  /** Step `u` of process `p` claims a version. */
  ghost predicate ClaimsAt(states: seq<State>, steps: seq<Step>, p: Process, u: nat)
    requires u < |steps| && u + 1 < |states|
  {
    steps[u].p == p && states[u + 1].bumps != states[u].bumps
  }

  /** The call has claimed no version yet, or one, at step `c`. */
  ghost predicate ClaimsSoFar(states: seq<State>, steps: seq<Step>, p: Process, b: nat, c: nat, t: nat)
    requires t <= |steps| < |states| && p in states[t].tasks
  {
    var task := states[t].tasks[p];
    && InAdd(task) && !task.other
    && (if task.Create? || task.Claim? then forall u :: b <= u < t ==> !ClaimsAt(states, steps, p, u)
        else b < c < t && forall u :: b <= u < t && u != c ==> !ClaimsAt(states, steps, p, u))
  }

  lemma OthersTask(s: State, step: Step, s': State, p: Process)
    requires Next(s, step, s') && p in s.tasks && step.p != p
    ensures p in s'.tasks && s'.tasks[p] == s.tasks[p]
  {
  }

  lemma OwnAdd(s: State, step: Step, s': State)
    requires Next(s, step, s') && step.p in s.tasks && InAdd(s.tasks[step.p]) && !s.tasks[step.p].other
    requires step.p in s'.tasks && InAdd(s'.tasks[step.p])
    ensures !s'.tasks[step.p].other
    ensures match s.tasks[step.p]
            case Create(_, _) => s'.tasks[step.p].Claim? && s'.bumps == s.bumps
            case Claim(_, _, _) => s'.tasks[step.p].Rename?
            case Rename(_, _, _, _) => s'.tasks[step.p].MarkUsed? && s'.bumps == s.bumps
            case _ => false
  {
  }

  lemma {:induction false} ClaimsHold(states: seq<State>, steps: seq<Step>, p: Process, b: nat, t: nat) returns (c: nat)
    requires Adding(states, steps, p, b, t)
    ensures ClaimsSoFar(states, steps, p, b, c, t)
    decreases t
  {
    var i := t - 1;
    assert StepTaken(states, steps, i);
    if i == b {
      c := 0;
    } else {
      assert AddsAt(states, p, i);
      c := ClaimsHold(states, steps, p, b, i);
      if steps[i].p != p {
        OthersTask(states[i], steps[i], states[t], p);
      } else {
        OwnAdd(states[i], steps[i], states[t]);
        if states[i].tasks[p].Claim? { c := i; }
      }
    }
  }

  /** An addition to one given index uses up at most one version, whether or not it succeeds. */
  lemma OneVersionPerAdd(states: seq<State>, steps: seq<Step>, p: Process, b: nat, t: nat, u: nat, w: nat)
    requires Adding(states, steps, p, b, t) && b <= u < t && b <= w < t
    requires ClaimsAt(states, steps, p, u) && ClaimsAt(states, steps, p, w)
    ensures u == w
  {
    var c := ClaimsHold(states, steps, p, b, t);
  }

  // ---------------------------------------------------------------- a recovery among others

  /** From step `b` to state `t` recovery `p` is cleaning up the index whose slot it read at step `b`. */
  ghost predicate Cleaning(states: seq<State>, steps: seq<Step>, p: Process, b: nat, t: nat) {
    && IsRun(states, steps) && b < t <= |steps| && steps[b] == Advance(p)
    && p in states[b].tasks && states[b].tasks[p].ReadSlot?
    && forall u :: b < u <= t ==> CleansAt(states, p, states[b].tasks[p].index, u)
  }

  predicate CleansAt(states: seq<State>, p: Process, i: Index, u: nat)
    requires u < |states|
  {
    p in states[u].tasks && states[u].tasks[p].CleanUp? && states[u].tasks[p].index == i
  }

  /** Recovery `p` visited the file at some step between `b` and `t`. */
  ghost predicate Visited(steps: seq<Step>, p: Process, f: File, b: nat, t: nat)
    requires t <= |steps|
  {
    exists u :: b < u < t && steps[u] == Delete(p, f)
  }

  lemma OwnCleaning(s: State, step: Step, s': State)
    requires Next(s, step, s') && step.p in s.tasks && s.tasks[step.p].CleanUp?
    requires step.p in s'.tasks && s'.tasks[step.p].CleanUp?
    ensures step.Delete? && s'.tasks[step.p] == s.tasks[step.p].(left := s.tasks[step.p].left - {step.file})
  {
  }

  lemma {:induction false} CleaningHolds(states: seq<State>, steps: seq<Step>, p: Process, b: nat, t: nat)
    requires Cleaning(states, steps, p, b, t)
    ensures CleansAt(states, p, states[b].tasks[p].index, t) && states[b].tasks[p].index < |states[b].slots|
    ensures var i := states[b].tasks[p].index; var v := states[b].slots[i].version;
            && states[t].tasks[p].version == v
            && forall f :: f in OldFiles(states[b].files, i, v) ==>
                 f in states[t].tasks[p].left || Visited(steps, p, f, b, t)
    decreases t
  {
    var i := states[b].tasks[p].index;
    assert CleansAt(states, p, i, t);
    assert StepTaken(states, steps, t - 1);
    if t - 1 > b {
      CleaningHolds(states, steps, p, b, t - 1);
      CleaningStep(states, steps, p, b, t - 1);
    }
  }

  lemma CleaningStep(states: seq<State>, steps: seq<Step>, p: Process, b: nat, t: nat)
    requires IsRun(states, steps) && b < t < |steps|
    requires p in states[t].tasks && states[t].tasks[p].CleanUp?
    requires p in states[t + 1].tasks && states[t + 1].tasks[p].CleanUp?
    ensures states[t + 1].tasks[p].version == states[t].tasks[p].version
    ensures forall f :: f in states[t].tasks[p].left ==>
              f in states[t + 1].tasks[p].left || Visited(steps, p, f, b, t + 1)
    ensures forall f :: Visited(steps, p, f, b, t) ==> Visited(steps, p, f, b, t + 1)
  {
    assert StepTaken(states, steps, t);
    if steps[t].p != p {
      OthersTask(states[t], steps[t], states[t + 1], p);
    } else {
      OwnCleaning(states[t], steps[t], states[t + 1]);
      assert Visited(steps, p, steps[t].file, b, t + 1);
    }
    forall f | Visited(steps, p, f, b, t) ensures Visited(steps, p, f, b, t + 1) {
      var u :| b < u < t && steps[u] == Delete(p, f);
    }
  }

  /** A recovery that goes on to the next index has deleted every temporary file and every older version that
      was there when it read the slot, whatever others did meanwhile. */
  lemma RecoveryVisitsAll(states: seq<State>, steps: seq<Step>, p: Process, b: nat, t: nat)
    requires Cleaning(states, steps, p, b, t) && t < |steps| && steps[t] == NextIndex(p)
    ensures states[b].tasks[p].index < |states[b].slots|
    ensures var i := states[b].tasks[p].index; var v := states[b].slots[i].version;
            forall f :: f in OldFiles(states[b].files, i, v) ==> Visited(steps, p, f, b, t)
  {
    CleaningHolds(states, steps, p, b, t);
    assert StepTaken(states, steps, t);
  }

  // ---------------------------------------------------------------- calls left alone

  ghost predicate IsPath(states: seq<State>, steps: seq<Step>) {
    |states| == |steps| + 1 && forall t :: 0 <= t < |steps| ==> StepTaken(states, steps, t)
  }

  /** Process `p` alone, beginning with `first`, takes the pool from `s` to `s'`. */
  ghost predicate Alone(s: State, first: Step, s': State) {
    exists states, steps :: AloneBy(states, steps, s, first, s')
  }

  ghost predicate AloneBy(states: seq<State>, steps: seq<Step>, s: State, first: Step, s': State) {
    && IsPath(states, steps) && states[0] == s && states[|steps|] == s' && steps != [] && steps[0] == first
    && forall t :: 0 < t < |steps| ==> Continues(steps[t], first.p)
  }

  /** A step inside a call. */
  predicate Continues(step: Step, p: Process) {
    step.p == p && (step.Advance? || step.TryOther? || step.Delete? || step.NextIndex?)
  }

  lemma Begin(s: State, first: Step, s': State)
    requires Next(s, first, s')
    ensures Alone(s, first, s')
  {
    assert StepTaken([s, s'], [first], 0);
    assert AloneBy([s, s'], [first], s, first, s');
  }

  lemma Then(s0: State, first: Step, s: State, step: Step, s': State)
    requires Alone(s0, first, s) && Next(s, step, s') && Continues(step, first.p)
    ensures Alone(s0, first, s')
  {
    var states, steps :| AloneBy(states, steps, s0, first, s);
    var states', steps' := states + [s'], steps + [step];
    forall t | 0 <= t < |steps'| ensures StepTaken(states', steps', t) {
      if t < |steps| { assert StepTaken(states, steps, t); }
    }
    assert AloneBy(states', steps', s0, first, s');
  }

  /** An addition that nobody disturbs to a free slot gives it its next version and the file of that version. */
  lemma AddAlone(s: State, p: Process, i: Index, o: bool) returns (s': State)
    requires p in s.tasks && s.tasks[p] == Ready && i < |s.slots| == |s.bumps| && !s.slots[i].valid
    ensures Alone(s, BeginAdd(p, i, o), s') && s'.tasks == s.tasks
    ensures var v := NextVersion(s.slots[i].version);
            && s'.slots == s.slots[i := Slot(true, v)]
            && s'.files == s.files - {Temp(s.nextTemp, i)} + {Shelf(i, v)}
            && s'.bumps == s.bumps[i := s.bumps[i] + 1] && s'.added == s.added + {(i, v)}
  {
    var first, f, v := BeginAdd(p, i, o), Temp(s.nextTemp, i), NextVersion(s.slots[i].version);
    var s1 := At(s, p, Create(i, o));
    Begin(s, first, s1);
    var s2 := At(s1, p, Claim(i, o, f)).(files := s1.files + {f}, nextTemp := s1.nextTemp + 1);
    Then(s, first, s1, Advance(p), s2);
    var s3 := At(Bump(s2, i), p, Rename(i, o, f, v)).(claimed := s2.claimed + {(i, v)});
    Then(s, first, s2, Advance(p), s3);
    s' := FinishAlone(s, first, s3, i, o, f, v);
    assert s'.tasks == s.tasks;
    assert s'.files == s.files - {f} + {Shelf(i, v)};
  }

  lemma FinishAlone(s0: State, first: Step, s: State, i: Index, o: bool, f: File, v: Version) returns (s': State)
    requires Alone(s0, first, s) && first.p in s.tasks && s.tasks[first.p] == Rename(i, o, f, v) && f in s.files
    requires i < |s.slots| && s.slots[i] == Slot(false, v)
    ensures Alone(s0, first, s') && s'.tasks == s.tasks[first.p := Ready]
    ensures s'.slots == s.slots[i := Slot(true, v)] && s'.files == s.files - {f} + {Shelf(i, v)}
    ensures s'.bumps == s.bumps && s'.added == s.added + {(i, v)}
  {
    var p := first.p;
    var s1 := At(s, p, MarkUsed(i, o, v)).(files := s.files - {f} + {Shelf(i, v)});
    Then(s0, first, s, Advance(p), s1);
    s' := At(SetSlot(s1, i, Slot(true, v)), p, Ready).(added := s1.added + {(i, v)});
    Then(s0, first, s1, Advance(p), s');
    assert s'.tasks == s.tasks[p := Ready];
  }

  /** An addition that may choose goes on to any free index, its file in hand, when the slot it wanted is taken. */
  lemma AddElsewhereAlone(s: State, p: Process, i: Index, j: Index) returns (s': State)
    requires p in s.tasks && s.tasks[p] == Ready && i < |s.slots| && s.slots[i].valid
    requires j < |s.slots| == |s.bumps| && !s.slots[j].valid
    ensures Alone(s, BeginAdd(p, i, true), s') && s'.tasks == s.tasks
    ensures var v := NextVersion(s.slots[j].version);
            && s'.slots == s.slots[j := Slot(true, v)]
            && s'.files == s.files - {Temp(s.nextTemp, i)} + {Shelf(j, v)} && s'.added == s.added + {(j, v)}
  {
    var first, f := BeginAdd(p, i, true), Temp(s.nextTemp, i);
    var s1 := At(s, p, Create(i, true));
    Begin(s, first, s1);
    var s2 := At(s1, p, Claim(i, true, f)).(files := s1.files + {f}, nextTemp := s1.nextTemp + 1);
    Then(s, first, s1, Advance(p), s2);
    s' := ClaimElsewhere(s, first, s2, i, j, f);
    assert s'.tasks == s.tasks;
    assert s'.files == s.files - {f} + {Shelf(j, NextVersion(s.slots[j].version))};
  }

  lemma ClaimElsewhere(s0: State, first: Step, s: State, i: Index, j: Index, f: File) returns (s': State)
    requires Alone(s0, first, s) && first.p in s.tasks && s.tasks[first.p] == Claim(i, true, f) && f in s.files
    requires j < |s.slots| == |s.bumps| && !s.slots[j].valid
    ensures Alone(s0, first, s') && s'.tasks == s.tasks[first.p := Ready]
    ensures var v := NextVersion(s.slots[j].version);
            && s'.slots == s.slots[j := Slot(true, v)] && s'.files == s.files - {f} + {Shelf(j, v)}
            && s'.added == s.added + {(j, v)}
  {
    var p, v := first.p, NextVersion(s.slots[j].version);
    var s1 := At(s, p, Claim(j, true, f));
    Then(s0, first, s, TryOther(p, j), s1);
    var s2 := At(Bump(s1, j), p, Rename(j, true, f, v)).(claimed := s1.claimed + {(j, v)});
    Then(s0, first, s1, Advance(p), s2);
    s' := FinishAlone(s0, first, s2, j, true, f, v);
    assert s'.tasks == s.tasks[p := Ready] && s'.slots == s.slots[j := Slot(true, v)];
  }

  /** It does so too when it has lost the version it claimed to a removal, and takes its file along. */
  lemma LostRaceGoesOn(s0: State, first: Step, s: State, i: Index, v: Version, j: Index) returns (s': State)
    requires Alone(s0, first, s) && first.p in s.tasks && s.tasks[first.p] == MarkUsed(i, true, v)
    requires i < |s.slots| && s.slots[i] != Slot(false, v) && Shelf(i, v) in s.files
    requires j < |s.slots| == |s.bumps| && !s.slots[j].valid
    ensures Alone(s0, first, s') && s'.tasks == s.tasks[first.p := Ready]
    ensures var w := NextVersion(s.slots[j].version);
            s'.slots == s.slots[j := Slot(true, w)] && s'.files == s.files - {Shelf(i, v)} + {Shelf(j, w)}
  {
    var s1 := At(s, first.p, Claim(i, true, Shelf(i, v)));
    Then(s0, first, s, Advance(first.p), s1);
    s' := ClaimElsewhere(s0, first, s1, i, j, Shelf(i, v));
    assert s'.tasks == s.tasks[first.p := Ready];
  }

  /** A removal that nobody disturbs of a used slot frees it under the next version and deletes its file. */
  lemma RemoveAlone(s: State, p: Process, i: Index) returns (s': State)
    requires p in s.tasks && s.tasks[p] == Ready && i < |s.slots| == |s.bumps| && s.slots[i].valid
    ensures Alone(s, BeginRemove(p, i), s') && s'.tasks == s.tasks
    ensures var v := s.slots[i].version;
            && s'.slots == s.slots[i := Slot(false, NextVersion(v))] && s'.files == s.files - {Shelf(i, v)}
            && s'.bumps == s.bumps[i := s.bumps[i] + 1] && s'.removed == s.removed + {(i, v)}
  {
    var first, v := BeginRemove(p, i), s.slots[i].version;
    var s1 := At(s, p, MarkFree(i));
    Begin(s, first, s1);
    var s2 := At(Bump(s1, i), p, Destroy(i, v)).(removed := s1.removed + {(i, v)});
    Then(s, first, s1, Advance(p), s2);
    s' := At(s2, p, Ready).(files := s2.files - {Shelf(i, v)});
    Then(s, first, s2, Advance(p), s');
    assert s'.tasks == s.tasks;
  }

  /** What is left of the files once the first `n` indexes have been cleaned up: of an index whose slot was used
      before, no temporary file and no version before the slot's. */
  ghost function Recovered(s: State, n: nat): set<File> { set f | f in s.files && !(f.index < n && Stale(s, f)) }

  predicate Stale(s: State, f: File) {
    && f.index < |s.slots| && (s.slots[f.index].valid || s.slots[f.index].version != 0)
    && Old(f, f.index, s.slots[f.index].version)
  }

  /** Process `p` has cleaned up the first `n` indexes. */
  ghost predicate CleanedTo(s0: State, p: Process, s: State, n: nat) {
    && Alone(s0, BeginRecover(p), s) && p in s0.tasks
    && s == At(s0, p, ReadSlot(n)).(files := Recovered(s0, n))
  }

  lemma {:induction false} CleanAlone(s0: State, p: Process, s: State, i: Index, v: Version) returns (s': State)
    requires Alone(s0, BeginRecover(p), s) && p in s.tasks && s.tasks[p] == CleanUp(i, v, OldFiles(s.files, i, v))
    ensures Alone(s0, BeginRecover(p), s')
    ensures s' == At(s, p, ReadSlot(i + 1)).(files := s.files - OldFiles(s.files, i, v))
    decreases |OldFiles(s.files, i, v)|
  {
    var stale := OldFiles(s.files, i, v);
    if stale == {} {
      s' := At(s, p, ReadSlot(i + 1));
      Then(s0, BeginRecover(p), s, NextIndex(p), s');
      assert s.files - stale == s.files;
    } else {
      var f :| f in stale;
      var s1 := At(s, p, s.tasks[p].(left := stale - {f})).(files := s.files - {f});
      Then(s0, BeginRecover(p), s, Delete(p, f), s1);
      assert OldFiles(s1.files, i, v) == stale - {f};
      s' := CleanAlone(s0, p, s1, i, v);
      assert s1.files - OldFiles(s1.files, i, v) == s.files - stale;
    }
  }

  lemma CleanIndex(s0: State, p: Process, s: State, n: nat) returns (s': State)
    requires CleanedTo(s0, p, s, n) && n < |s0.slots|
    ensures CleanedTo(s0, p, s', n + 1)
  {
    var slot := s0.slots[n];
    if !slot.valid && slot.version == 0 {
      s' := At(s, p, ReadSlot(n + 1));
      Then(s0, BeginRecover(p), s, Advance(p), s');
      assert Recovered(s0, n + 1) == Recovered(s0, n);
    } else {
      var v := slot.version;
      var s1 := At(s, p, CleanUp(n, v, OldFiles(s.files, n, v)));
      Then(s0, BeginRecover(p), s, Advance(p), s1);
      s' := CleanAlone(s0, p, s1, n, v);
      assert Recovered(s0, n) - OldFiles(Recovered(s0, n), n, v) == Recovered(s0, n + 1);
    }
    assert s'.tasks == s0.tasks[p := ReadSlot(n + 1)];
  }

  lemma {:induction false} CleanIndexes(s0: State, p: Process, n: nat) returns (s: State)
    requires p in s0.tasks && s0.tasks[p] == Ready && n <= |s0.slots|
    ensures CleanedTo(s0, p, s, n)
  {
    if n == 0 {
      s := At(s0, p, ReadSlot(0));
      Begin(s0, BeginRecover(p), s);
      assert Recovered(s0, 0) == s0.files;
    } else {
      s := CleanIndexes(s0, p, n - 1);
      s := CleanIndex(s0, p, s, n - 1);
    }
  }

  /** A recovery that nobody disturbs deletes exactly the temporary files and the older versions of the indexes
      used before, and changes nothing else. */
  lemma RecoverAlone(s: State, p: Process) returns (s': State)
    requires p in s.tasks && s.tasks[p] == Ready
    ensures Alone(s, BeginRecover(p), s')
    ensures s' == s.(files := set f | f in s.files && !Stale(s, f))
  {
    var s1 := CleanIndexes(s, p, |s.slots|);
    s' := At(s1, p, Ready);
    Then(s, BeginRecover(p), s1, Advance(p), s');
    assert s'.tasks == s.tasks;
    assert s'.files == set f | f in s.files && !Stale(s, f);
  }

  /** Of every index ever used at most the file of its current version is left, and a valid slot has it. */
  lemma RecoverLeavesCurrent(states: seq<State>, steps: seq<Step>, t: nat, p: Process) returns (s': State)
    requires IsRun(states, steps) && t < |states| && InRange(states[t])
    requires p in states[t].tasks && states[t].tasks[p] == Ready
    ensures Alone(states[t], BeginRecover(p), s') && s'.slots == states[t].slots
    ensures forall f :: f in s'.files && f.index < |s'.slots| && s'.slots[f.index] != Slot(false, 0)
                        ==> f == Shelf(f.index, s'.slots[f.index].version)
    ensures forall i :: 0 <= i < |s'.slots| && s'.slots[i].valid ==> Shelf(i, s'.slots[i].version) in s'.files
  {
    var s := states[t];
    RunInv(states, steps, t);
    s' := RecoverAlone(s, p);
    forall f | f in s'.files && f.index < |s'.slots| && s'.slots[f.index] != Slot(false, 0)
      ensures f == Shelf(f.index, s'.slots[f.index].version)
    {
      assert f in s.files && !Stale(s, f);
      assert Reached(s, f.index, f.version);
    }
    forall i | 0 <= i < |s'.slots| && s'.slots[i].valid ensures Shelf(i, s'.slots[i].version) in s'.files {
      assert SlotOk(s, i);
    }
  }
}
