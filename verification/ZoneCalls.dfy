/** What a call of `alloc` or `free` gives its caller in `ZoneProtocol`, whatever everybody else does during
    the call, and that a call left alone completes. */
module ZoneCalls {
  import opened ZoneProtocol

  /** The step ends a call of `alloc` by process `p`. */
  predicate Ends(step: Step, p: nat) { step == SetBit(p) || step == GiveUp(p) || step == Crash(p) }

  /** From step `b` to state `t` process `p` is in a call `alloc` for a block of level `want`. */
  ghost predicate Allocating(states: seq<Zone>, steps: seq<Step>, p: nat, want: nat, b: nat, t: nat) {
    && IsRun(states, steps) && b < t <= |steps| && steps[b] == AllocStart(p, want)
    && forall u :: b < u < t ==> !Ends(steps[u], p)
  }

  /** The list of level `k` was empty in some state of the call. */
  ghost predicate SeenEmpty(states: seq<Zone>, k: nat, b: nat, t: nat)
    requires t < |states|
  {
    exists u :: b < u <= t && EmptyAt(states[u], k)
  }

  predicate EmptyAt(s: Zone, k: nat) { k < |s.free| && s.free[k] == [] }

  /** What the process is in the middle of, and what it has seen. */
  ghost predicate CallOk(states: seq<Zone>, p: nat, want: nat, b: nat, t: nat)
    requires t < |states|
  {
    var s := states[t];
    && p in s.procs
    && match s.procs[p]
       case Seeking(w, l) => w == want <= l && forall k :: want <= k < l && k <= s.top ==> SeenEmpty(states, k, b, t)
       case Splitting(_, l, w) => w == want <= l
       case _ => false
  }

  /** Nobody else's step touches what a process is in the middle of. */
  lemma OthersTask(s: Zone, step: Step, s': Zone, p: nat)
    requires Inv(s) && Next(s, step, s') && p in s.procs
    requires !OfProcess(step, p)
    ensures p in s'.procs && s'.procs[p] == s.procs[p]
  {
  }

  predicate OfProcess(step: Step, p: nat) {
    match step
    case Spawn(q) => q == p
    case Crash(q) => q == p
    case AllocStart(q, _) => q == p
    case PopLevel(q) => q == p
    case GiveUp(q) => q == p
    case Split(q) => q == p
    case SetBit(q) => q == p
    case FreeStart(q, _) => q == p
    case ClearBit(q) => q == p
    case PushBack(q) => q == p
    case _ => false
  }

  /** A step of the process inside its call: it seeks on, finds a block, or splits it. */
  lemma OwnTask(s: Zone, step: Step, s': Zone, p: nat)
    requires Inv(s) && Next(s, step, s') && p in s.procs && OfProcess(step, p) && !Ends(step, p)
    requires s.procs[p].Seeking? || s.procs[p].Splitting?
    ensures p in s'.procs
    ensures match s.procs[p]
            case Seeking(w, l) =>
              && step == PopLevel(p) && l <= s.top
              && (if EmptyAt(s, l) then s'.procs[p] == Seeking(w, l + 1)
                  else s'.procs[p] == Splitting(s.free[l][0], l, w))
            case Splitting(u, l, w) => w < l && s'.procs[p] == Splitting(u, l - 1, w)
  {
  }

  lemma SeenStays(states: seq<Zone>, k: nat, b: nat, t: nat)
    requires t + 1 < |states|
    ensures SeenEmpty(states, k, b, t) ==> SeenEmpty(states, k, b, t + 1)
    ensures b < t && EmptyAt(states[t], k) ==> SeenEmpty(states, k, b, t + 1)
  {
    if SeenEmpty(states, k, b, t) {
      var u :| b < u <= t && EmptyAt(states[u], k);
    }
  }

  lemma SameTop(states: seq<Zone>, steps: seq<Step>, t: nat)
    requires IsRun(states, steps) && t < |steps|
    ensures Inv(states[t]) && Next(states[t], steps[t], states[t + 1]) && states[t + 1].top == states[t].top
  {
    RunInv(states, steps, t);
    assert StepTaken(states, steps, t);
    InvKept(states[t], steps[t], states[t + 1]);
  }

  lemma CallStep(states: seq<Zone>, steps: seq<Step>, p: nat, want: nat, b: nat, t: nat)
    requires IsRun(states, steps) && b < t < |steps| && CallOk(states, p, want, b, t) && !Ends(steps[t], p)
    ensures CallOk(states, p, want, b, t + 1)
  {
    SameTop(states, steps, t);
    var s, s' := states[t], states[t + 1];
    if OfProcess(steps[t], p) { OwnTask(s, steps[t], s', p); } else { OthersTask(s, steps[t], s', p); }
    if s.procs[p].Seeking? {
      forall k: nat | want <= k <= s.procs[p].level && (k < s.procs[p].level || EmptyAt(s, k)) && k <= s.top
        ensures SeenEmpty(states, k, b, t + 1)
      {
        SeenStays(states, k, b, t);
      }
    }
  }

  lemma {:induction false} CallHolds(states: seq<Zone>, steps: seq<Step>, p: nat, want: nat, b: nat, t: nat)
    requires Allocating(states, steps, p, want, b, t)
    ensures CallOk(states, p, want, b, t)
    decreases t
  {
    if t == b + 1 {
      SameTop(states, steps, b);
    } else {
      CallHolds(states, steps, p, want, b, t - 1);
      CallStep(states, steps, p, want, b, t - 1);
    }
  }

  /** A call that succeeds: the block was nobody's, and it is marked allocated at the level asked for. */
  lemma AllocGivesLevel(states: seq<Zone>, steps: seq<Step>, p: nat, want: nat, b: nat, t: nat)
    requires Allocating(states, steps, p, want, b, t) && t < |steps| && steps[t] == SetBit(p)
    ensures p in states[t].procs && states[t].procs[p].Splitting?
    ensures var u := states[t].procs[p].unit;
            && u !in states[t].alloc && states[t + 1].alloc == states[t].alloc[u := want]
            && p in states[t + 1].procs && states[t + 1].procs[p] == Ready
  {
    CallHolds(states, steps, p, want, b, t);
    SameTop(states, steps, t);
    SetBitTiled(states[t], p, states[t + 1]);
  }

  /** Where it finds a block, the lists of all levels from the one asked for up to there were empty when it
      looked. */
  lemma AllocTakesFirst(states: seq<Zone>, steps: seq<Step>, p: nat, want: nat, b: nat, t: nat)
    requires Allocating(states, steps, p, want, b, t) && t < |steps| && steps[t] == PopLevel(p)
    requires p in states[t].procs && states[t].procs[p].Seeking?
    ensures var l := states[t].procs[p].level;
            && want <= l < |states[t].free| && (forall k :: want <= k < l ==> SeenEmpty(states, k, b, t))
            && (states[t].free[l] != [] ==>
                  p in states[t + 1].procs && states[t + 1].procs[p] == Splitting(states[t].free[l][0], l, want)
                  && states[t + 1].free == states[t].free[l := states[t].free[l][1..]])
  {
    CallHolds(states, steps, p, want, b, t);
    SameTop(states, steps, t);
  }

  /** A call that fails has seen every list from the level asked for up to the top empty. */
  lemma AllocFailsOnEmpty(states: seq<Zone>, steps: seq<Step>, p: nat, want: nat, b: nat, t: nat)
    requires Allocating(states, steps, p, want, b, t) && t < |steps| && steps[t] == GiveUp(p)
    ensures forall k :: want <= k <= states[t].top ==> SeenEmpty(states, k, b, t)
    ensures states[t + 1].alloc == states[t].alloc && states[t + 1].free == states[t].free
  {
    CallHolds(states, steps, p, want, b, t);
    SameTop(states, steps, t);
  }

  // ---------------------------------------------------------------- calls left alone

  ghost predicate IsPath(states: seq<Zone>, steps: seq<Step>) {
    |states| == |steps| + 1 && forall t :: 0 <= t < |steps| ==> StepTaken(states, steps, t)
  }

  /** Process `p` alone takes the zone from `s` to `s'`. */
  ghost predicate Alone(s: Zone, p: nat, s': Zone) { exists states, steps :: AloneBy(states, steps, s, p, s') }

  ghost predicate AloneBy(states: seq<Zone>, steps: seq<Step>, s: Zone, p: nat, s': Zone) {
    && IsPath(states, steps) && states[0] == s && states[|steps|] == s'
    && forall t :: 0 <= t < |steps| ==> OfProcess(steps[t], p) && !steps[t].Crash?
  }

  lemma Nothing(s: Zone, p: nat)
    ensures Alone(s, p, s)
  {
    assert AloneBy([s], [], s, p, s);
  }

  lemma StepFirst(s: Zone, step: Step, s1: Zone, p: nat, s': Zone)
    requires |s.free| == s.top + 1 && Next(s, step, s1) && OfProcess(step, p) && !step.Crash? && Alone(s1, p, s')
    ensures Alone(s, p, s')
  {
    var states, steps :| AloneBy(states, steps, s1, p, s');
    var states', steps' := [s] + states, [step] + steps;
    forall t | 0 <= t < |steps'| ensures StepTaken(states', steps', t) {
      if t > 0 { assert StepTaken(states, steps, t - 1); }
    }
    assert AloneBy(states', steps', s, p, s');
  }

  /** The splitting loop and the mark. */
  lemma {:induction false} SplitAlone(s: Zone, p: nat) returns (s': Zone)
    requires Inv(s) && p in s.procs && s.procs[p].Splitting?
    ensures Alone(s, p, s') && Inv(s') && p in s'.procs && s'.procs[p] == Ready
    ensures s'.alloc == s.alloc[s.procs[p].unit := s.procs[p].want] && s.procs[p].unit !in s.alloc
    decreases s.procs[p].level
  {
    var Splitting(u, l, w) := s.procs[p];
    assert TaskOk(s, p);
    if l == w {
      s' := With(s, p, Ready).(alloc := s.alloc[u := w]);
      Nothing(s', p);
      StepFirst(s, SetBit(p), s', p, s');
      SetBitTiled(s, p, s');
      InvKept(s, SetBit(p), s');
    } else {
      var s1 := With(Push(s, l - 1, u + Dyadic.Pow2(l - 1)), p, Splitting(u, l - 1, w));
      assert Next(s, Split(p), s1);
      InvKept(s, Split(p), s1);
      s' := SplitAlone(s1, p);
      StepFirst(s, Split(p), s1, p, s');
    }
  }

  /** The first level from `l` up with a free block, or one past the top. */
  function FirstFree(s: Zone, l: nat): (k: nat)
    ensures l <= k && forall j :: l <= j < k && j < |s.free| ==> s.free[j] == []
    ensures k < |s.free| ==> s.free[k] != []
    decreases |s.free| - l
  {
    if l >= |s.free| || s.free[l] != [] then l else FirstFree(s, l + 1)
  }

  lemma {:induction false} SeekAlone(s: Zone, p: nat) returns (s': Zone)
    requires Inv(s) && p in s.procs && s.procs[p].Seeking?
    ensures Alone(s, p, s') && Inv(s') && p in s'.procs && s'.procs[p] == Ready
    ensures var k := FirstFree(s, s.procs[p].level);
            if k < |s.free| then s.free[k][0] !in s.alloc && s'.alloc == s.alloc[s.free[k][0] := s.procs[p].want]
            else s'.alloc == s.alloc && s'.free == s.free
    decreases s.top + 1 - s.procs[p].level
  {
    var Seeking(w, l) := s.procs[p];
    if l > s.top {
      s' := GiveUpAlone(s, p);
    } else {
      var s1 := PopAlone(s, p);
      if s.free[l] == [] { s' := SeekAlone(s1, p); } else { s' := SplitAlone(s1, p); }
      StepFirst(s, PopLevel(p), s1, p, s');
    }
  }

  lemma GiveUpAlone(s: Zone, p: nat) returns (s': Zone)
    requires Inv(s) && p in s.procs && s.procs[p].Seeking? && s.procs[p].level > s.top
    ensures Alone(s, p, s') && Inv(s') && s' == With(s, p, Ready)
  {
    s' := With(s, p, Ready);
    Nothing(s', p);
    StepFirst(s, GiveUp(p), s', p, s');
    InvKept(s, GiveUp(p), s');
  }

  lemma PopAlone(s: Zone, p: nat) returns (s': Zone)
    requires Inv(s) && p in s.procs && s.procs[p].Seeking? && s.procs[p].level <= s.top
    ensures |s.free| == s.top + 1 && Next(s, PopLevel(p), s') && Inv(s') && s'.alloc == s.alloc && s'.top == s.top
    ensures var Seeking(w, l) := s.procs[p];
            && p in s'.procs
            && if s.free[l] == [] then s'.free == s.free && s'.procs[p] == Seeking(w, l + 1)
               else s'.procs[p] == Splitting(s.free[l][0], l, w)
    ensures var l := s.procs[p].level;
            FirstFree(s, l) == if s.free[l] == [] then FirstFree(s', l + 1) else l
  {
    var Seeking(w, l) := s.procs[p];
    s' := if s.free[l] == [] then With(s, p, Seeking(w, l + 1))
          else With(Pop(s, l), p, Splitting(s.free[l][0], l, w));
    assert Next(s, PopLevel(p), s');
    InvKept(s, PopLevel(p), s');
    if s.free[l] == [] { SameFirst(s, s', l + 1); }
  }

  lemma {:induction false} SameFirst(s: Zone, s': Zone, l: nat)
    requires s'.free == s.free
    ensures FirstFree(s', l) == FirstFree(s, l)
    decreases |s.free| - l
  {
    if l < |s.free| && s.free[l] == [] { SameFirst(s, s', l + 1); }
  }

  /** A call of `alloc` that nobody disturbs takes the newest block of the first level that has one, and fails
      only when none has. */
  lemma AllocAlone(s: Zone, p: nat, want: nat) returns (s': Zone)
    requires Inv(s) && p in s.procs && s.procs[p] == Ready
    ensures Alone(s, p, s') && Inv(s') && p in s'.procs && s'.procs[p] == Ready
    ensures var k := FirstFree(s, want);
            if k < |s.free| then s.free[k][0] !in s.alloc && s'.alloc == s.alloc[s.free[k][0] := want]
            else s'.alloc == s.alloc && s'.free == s.free
  {
    var s1 := With(s, p, Seeking(want, want));
    assert Next(s, AllocStart(p, want), s1);
    InvKept(s, AllocStart(p, want), s1);
    SameFirst(s, s1, want);
    s' := SeekAlone(s1, p);
    StepFirst(s, AllocStart(p, want), s1, p, s');
  }

  /** A call of `free` that nobody disturbs puts the block on top of the list of the level it was allocated
      at. */
  lemma FreeAlone(s: Zone, p: nat, u: nat) returns (s': Zone)
    requires Inv(s) && p in s.procs && s.procs[p] == Ready && u != 0 && u in s.alloc && NotBeingFreed(s, u)
    ensures Alone(s, p, s') && Inv(s') && s'.procs == s.procs
    ensures s.alloc[u] < |s.free| && s'.alloc == s.alloc - {u}
    ensures s'.free == s.free[s.alloc[u] := [u] + s.free[s.alloc[u]]]
  {
    var l := s.alloc[u];
    var s1 := StartFree(s, p, u);
    var s2 := With(s1, p, Returning(u, l)).(alloc := s.alloc - {u});
    assert Next(s1, ClearBit(p), s2);
    InvKept(s1, ClearBit(p), s2);
    s' := PushAlone(s2, p);
    StepFirst(s1, ClearBit(p), s2, p, s');
    StepFirst(s, FreeStart(p, u), s1, p, s');
    assert s'.procs == s.procs;
  }

  lemma StartFree(s: Zone, p: nat, u: nat) returns (s': Zone)
    requires Inv(s) && p in s.procs && s.procs[p] == Ready && u != 0 && u in s.alloc && NotBeingFreed(s, u)
    ensures |s.free| == s.top + 1 && s.alloc[u] < |s.free|
    ensures Next(s, FreeStart(p, u), s') && Inv(s') && s' == With(s, p, Freeing(u, s.alloc[u]))
  {
    AllocLevel(s, u);
    s' := With(s, p, Freeing(u, s.alloc[u]));
    InvKept(s, FreeStart(p, u), s');
  }

  lemma PushAlone(s: Zone, p: nat) returns (s': Zone)
    requires Inv(s) && p in s.procs && s.procs[p].Returning?
    ensures var Returning(u, l) := s.procs[p];
            l < |s.free| && s' == With(Push(s, l, u), p, Ready) && Alone(s, p, s') && Inv(s')
  {
    var Returning(u, l) := s.procs[p];
    assert TaskOk(s, p);
    s' := With(Push(s, l, u), p, Ready);
    InvKept(s, PushBack(p), s');
    Nothing(s', p);
    StepFirst(s, PushBack(p), s', p, s');
  }
}
