/** What one call of `push`, `pop` or the list swap does between its begin and its return in `LockFreeStack`,
    whatever everybody else does meanwhile; that a call left alone returns; and that a failed
    compare-and-store is always somebody else's success. */
module StackCalls {
  import opened LockFreeStack

  // ---------------------------------------------------------------- one event a call

  /** What thread `t` is in the middle of. */
  predicate Runs(pc: Pc, op: Op) {
    match pc
    case LoadFirst(o) => o == op
    case LoadAba(o, _) => o == op
    case Sampled(o, _, _) => o == op
    case Cas(o, _, _, _) => o == op
    case SampleFirst(o, _, _, _) => o == op
    case SampleAba(o, _, _, _, _) => o == op
    case _ => false
  }

  /** The call has had its event and is about to return: a pop that has seen a null head. */
  predicate Answered(pc: Pc) {
    match pc
    case LoadAba(op, first) => op.Pop? && first == 0
    case Sampled(op, first, _) => op.Pop? && first == 0
    case SampleAba(op, _, _, _, f) => op.Pop? && f == 0
    case _ => false
  }

  /** The event is the one a call `op` of thread `t` is for. */
  predicate Answers(e: Event, t: Thread, op: Op) {
    match op
    case Push(k, n) => e == Pushed(t, k, n)
    case Pop(k) => (e.Popped? && e.t == t && e.k == k) || e == FoundEmpty(t, k)
  }

  /** From step `b` to state `j` thread `t` is inside the call that step `b` begins. */
  ghost predicate Inside(states: seq<Machine>, steps: seq<Step>, events: seq<Event>, t: Thread, b: nat, j: nat) {
    && IsRun(states, steps, events) && b < j <= |steps| && steps[b].t == t
    && BusyAt(states, t, j) && forall u :: b < u < j ==> BusyAt(states, t, u)
  }

  predicate BusyAt(states: seq<Machine>, t: Thread, u: nat)
    requires u < |states|
  {
    t in states[u].pcs && states[u].pcs[t] != Idle
  }

  /** Between the steps `b` and `j` thread `t` has no event. */
  ghost predicate Quiet(steps: seq<Step>, events: seq<Event>, t: Thread, b: nat, j: nat)
    requires j <= |steps| == |events|
  {
    forall u :: b <= u < j && steps[u].t == t ==> events[u].Silent?
  }

  /** It has exactly one, at step `y`. */
  ghost predicate OnlyEvent(steps: seq<Step>, events: seq<Event>, t: Thread, b: nat, j: nat, y: nat)
    requires j <= |steps| == |events|
  {
    && b < y < j && steps[y].t == t && !events[y].Silent?
    && forall u :: b <= u < j && steps[u].t == t && u != y ==> events[u].Silent?
  }

  /** One step of the call: nothing happens yet, or its event does. */
  predicate CallAdvances(pc: Pc, e: Event, pc': Pc, t: Thread, op: Op) {
    && (pc' != Idle ==> Runs(pc', op))
    && if Answered(pc) then e.Silent? && (pc' == Idle || Answered(pc'))
       else if pc' == Idle || Answered(pc') then Answers(e, t, op) else e.Silent?
  }

  lemma OwnStep(m: Machine, step: Step, e: Event, m': Machine, op: Op)
    requires MachineStep(m, step, e, m') && step.t in m.pcs && PcOk(m, step.t) && Runs(m.pcs[step.t], op)
    ensures step.t in m'.pcs && CallAdvances(m.pcs[step.t], e, m'.pcs[step.t], step.t, op)
  {}

  lemma RunStep(states: seq<Machine>, steps: seq<Step>, events: seq<Event>, j: nat) returns (a: Stacks)
    requires IsRun(states, steps, events) && j < |steps|
    ensures Simulates(states[j], a) && MachineStep(states[j], steps[j], events[j], states[j + 1])
  {
    a := RunSimulates(states, steps, events, j);
    assert StepTaken(states, steps, events, j);
  }

  /** So far the call has had no event, or it has had its one event and is about to return. */
  ghost predicate SoFar(
      steps: seq<Step>, events: seq<Event>, pc: Pc, t: Thread, op: Op, b: nat, j: nat, y: nat)
    requires j <= |steps| == |events|
  {
    && (pc != Idle ==> Runs(pc, op))
    && if pc == Idle || Answered(pc) then OnlyEvent(steps, events, t, b, j, y) && Answers(events[y], t, op)
       else Quiet(steps, events, t, b, j)
  }

  lemma {:induction false} CallSoFar(
      states: seq<Machine>, steps: seq<Step>, events: seq<Event>, t: Thread, op: Op, b: nat, j: nat)
    returns (y: nat)
    requires Inside(states, steps, events, t, b, j) && steps[b] == Begin(t, op)
    ensures SoFar(steps, events, states[j].pcs[t], t, op, b, j, y)
    decreases j
  {
    if j == b + 1 {
      y := 0;
      assert StepTaken(states, steps, events, b);
    } else {
      assert BusyAt(states, t, j - 1);
      y := CallSoFar(states, steps, events, t, op, b, j - 1);
      y := CallStep(states, steps, events, t, op, b, j - 1, y);
    }
  }

  lemma OtherPcAt(states: seq<Machine>, steps: seq<Step>, events: seq<Event>, t: Thread, j: nat)
    requires IsRun(states, steps, events) && j < |steps| && steps[j].t != t
    ensures (t in states[j + 1].pcs) == (t in states[j].pcs)
    ensures t in states[j].pcs ==> states[j + 1].pcs[t] == states[j].pcs[t]
  {
    var a := RunStep(states, steps, events, j);
    StepEffect(states[j], a, steps[j], events[j], states[j + 1]);
  }

  lemma OwnStepAt(states: seq<Machine>, steps: seq<Step>, events: seq<Event>, t: Thread, op: Op, j: nat)
    requires IsRun(states, steps, events) && j < |steps| && steps[j].t == t
    requires t in states[j].pcs && Runs(states[j].pcs[t], op)
    ensures t in states[j + 1].pcs && CallAdvances(states[j].pcs[t], events[j], states[j + 1].pcs[t], t, op)
  {
    var a := RunStep(states, steps, events, j);
    OwnStep(states[j], steps[j], events[j], states[j + 1], op);
  }

  lemma CallStep(
      states: seq<Machine>, steps: seq<Step>, events: seq<Event>, t: Thread, op: Op, b: nat, j: nat, y: nat)
    returns (y': nat)
    requires IsRun(states, steps, events) && b < j < |steps| && BusyAt(states, t, j)
    requires SoFar(steps, events, states[j].pcs[t], t, op, b, j, y)
    ensures t in states[j + 1].pcs && SoFar(steps, events, states[j + 1].pcs[t], t, op, b, j + 1, y')
    ensures steps[j].t != t ==> states[j + 1].pcs[t] == states[j].pcs[t]
  {
    y' := y;
    if steps[j].t != t {
      OtherPcAt(states, steps, events, t, j);
    } else {
      OwnStepAt(states, steps, events, t, op, j);
      if !events[j].Silent? { y' := j; }
    }
  }

  /** A call of `push` or `pop` that returns has had exactly one event: a push has put its node on its stack,
      a pop has taken the top or has seen the stack empty. */
  lemma OneEventPerCall(
      states: seq<Machine>, steps: seq<Step>, events: seq<Event>, t: Thread, op: Op, b: nat, j: nat)
    returns (y: nat)
    requires Inside(states, steps, events, t, b, j) && steps[b] == Begin(t, op)
    requires j < |steps| && t in states[j + 1].pcs && states[j + 1].pcs[t] == Idle
    ensures OnlyEvent(steps, events, t, b, j + 1, y) && Answers(events[y], t, op)
  {
    y := CallSoFar(states, steps, events, t, op, b, j);
    assert BusyAt(states, t, j);
    y := CallStep(states, steps, events, t, op, b, j, y);
  }

  predicate Swaps(pc: Pc, k: nat) { match pc case SwapLoad(l) => l == k case SwapCas(l, _) => l == k case _ => false }

  lemma {:induction false} SwapSoFar(
      states: seq<Machine>, steps: seq<Step>, events: seq<Event>, t: Thread, k: nat, b: nat, j: nat)
    requires Inside(states, steps, events, t, b, j) && steps[b] == BeginSwap(t, k)
    ensures Swaps(states[j].pcs[t], k) && Quiet(steps, events, t, b, j)
    decreases j
  {
    if j == b + 1 {
      assert StepTaken(states, steps, events, b);
    } else {
      assert BusyAt(states, t, j - 1);
      SwapSoFar(states, steps, events, t, k, b, j - 1);
      SwapStep(states, steps, events, t, k, j - 1);
    }
  }

  lemma SwapStep(states: seq<Machine>, steps: seq<Step>, events: seq<Event>, t: Thread, k: nat, j: nat)
    requires IsRun(states, steps, events) && j < |steps| && BusyAt(states, t, j) && Swaps(states[j].pcs[t], k)
    ensures t in states[j + 1].pcs
    ensures if states[j + 1].pcs[t] == Idle then
              steps[j].t == t && events[j].SwappedOut? && events[j].t == t && events[j].k == k
            else
              Swaps(states[j + 1].pcs[t], k) && (steps[j].t == t ==> events[j].Silent?)
  {
    assert StepTaken(states, steps, events, j);
    if steps[j].t == t {
      OwnSwapStep(states[j], steps[j], events[j], states[j + 1], k);
    } else {
      OtherPcAt(states, steps, events, t, j);
    }
  }

  lemma OwnSwapStep(m: Machine, step: Step, e: Event, m': Machine, k: nat)
    requires MachineStep(m, step, e, m') && step.t in m.pcs && Swaps(m.pcs[step.t], k)
    ensures step.t in m'.pcs
    ensures if m'.pcs[step.t] == Idle then e.SwappedOut? && e.t == step.t && e.k == k
            else Swaps(m'.pcs[step.t], k) && e.Silent?
  {}

  /** A swap that returns has had exactly one event: it took the whole list. */
  lemma OneEventPerSwap(
      states: seq<Machine>, steps: seq<Step>, events: seq<Event>, t: Thread, k: nat, b: nat, j: nat)
    requires Inside(states, steps, events, t, b, j) && steps[b] == BeginSwap(t, k)
    requires j < |steps| && t in states[j + 1].pcs && states[j + 1].pcs[t] == Idle
    ensures OnlyEvent(steps, events, t, b, j + 1, j)
    ensures events[j].SwappedOut? && events[j].t == t && events[j].k == k
  {
    SwapSoFar(states, steps, events, t, k, b, j);
    SwapStep(states, steps, events, t, k, j);
  }

  // ---------------------------------------------------------------- calls left alone

  ghost predicate IsPath(states: seq<Machine>, steps: seq<Step>, events: seq<Event>) {
    |states| == |steps| + 1 == |events| + 1 && forall j :: 0 <= j < |steps| ==> StepTaken(states, steps, events, j)
  }

  /** Thread `t` alone, with one call, takes the machine from `m` to `m'`. */
  ghost predicate Alone(m: Machine, t: Thread, m': Machine) {
    exists states, steps, events :: AloneBy(states, steps, events, m, t, m')
  }

  ghost predicate AloneBy(
      states: seq<Machine>, steps: seq<Step>, events: seq<Event>, m: Machine, t: Thread, m': Machine)
  {
    && IsPath(states, steps, events) && states[0] == m && states[|steps|] == m' && steps != []
    && (steps[0].Begin? || steps[0].BeginSwap?) && steps[0].t == t
    && forall j :: 0 < j < |steps| ==> steps[j] == Advance(t)
  }

  lemma First(m: Machine, a: Stacks, step: Step, m': Machine)
    requires Simulates(m, a) && MachineStep(m, step, Silent, m') && (step.Begin? || step.BeginSwap?)
    ensures Alone(m, step.t, m') && Simulates(m', a)
  {
    StepSimulated(m, a, step, Silent, m');
    var states, steps, events := [m, m'], [step], [Silent];
    assert StepTaken(states, steps, events, 0);
    assert AloneBy(states, steps, events, m, step.t, m');
  }

  lemma Then(m0: Machine, m: Machine, a: Stacks, t: Thread, e: Event, m': Machine)
    requires Alone(m0, t, m) && Simulates(m, a) && t in m.pcs && Advances(m, t, e, m')
    ensures Alone(m0, t, m') && Simulates(m', Matching(a, e))
  {
    StepSimulated(m, a, Advance(t), e, m');
    var states, steps, events :| AloneBy(states, steps, events, m0, t, m);
    var states', steps', events' := states + [m'], steps + [Advance(t)], events + [e];
    forall j | 0 <= j < |steps'| ensures StepTaken(states', steps', events', j) {
      if j < |steps| { assert StepTaken(states, steps, events, j); }
    }
    assert AloneBy(states', steps', events', m0, t, m');
  }

  /** The call reads the head. */
  lemma SampleAlone(m: Machine, a: Stacks, t: Thread, op: Op) returns (m': Machine)
    requires Simulates(m, a) && t in m.pcs && m.pcs[t] == Idle && op.k < |m.heads|
    requires op.Push? ==> Owns(m, t, op.node)
    ensures var head := m.heads[op.k];
            m' == At(m, t, Sampled(op, head.first, head.aba)) && Alone(m, t, m') && Simulates(m', a)
  {
    var head := m.heads[op.k];
    var m1 := At(m, t, LoadFirst(op));
    First(m, a, Begin(t, op), m1);
    var m2 := At(m, t, LoadAba(op, head.first));
    assert Chain(m.links, head.first, a.lists[op.k]);
    Then(m, m1, a, t, if op.Pop? && head.first == 0 then FoundEmpty(t, op.k) else Silent, m2);
    m' := At(m, t, Sampled(op, head.first, head.aba));
    Then(m, m2, a, t, Silent, m');
  }

  /** A push that nobody disturbs puts its node on top of its stack. */
  lemma PushAlone(m: Machine, a: Stacks, t: Thread, k: nat, n: Node) returns (m': Machine)
    requires Simulates(m, a) && t in m.pcs && m.pcs[t] == Idle && k < |m.heads| && Owns(m, t, n)
    ensures Alone(m, t, m') && m'.pcs == m.pcs && |a.lists| == |m.heads|
    ensures Simulates(m', Stacks(a.lists[k := [n] + a.lists[k]], a.owner - {n}))
  {
    var op, head := Push(k, n), m.heads[k];
    var m3 := SampleAlone(m, a, t, op);
    var m4 := At(m3, t, Cas(op, head.first, head.aba, n)).(links := m.links[n := head.first]);
    Then(m, m3, a, t, Silent, m4);
    m' := At(m4, t, Idle).(heads := m.heads[k := Head(n, head.aba + 1)], owner := m.owner - {n});
    Then(m, m4, a, t, Pushed(t, k, n), m');
    assert m'.pcs == m.pcs;
  }

  lemma PopEmptyAlone(m: Machine, a: Stacks, t: Thread, k: nat) returns (m': Machine)
    requires Simulates(m, a) && t in m.pcs && m.pcs[t] == Idle && k < |m.heads| && m.heads[k].first == 0
    ensures Alone(m, t, m') && m'.pcs == m.pcs && Simulates(m', a)
  {
    var m3 := SampleAlone(m, a, t, Pop(k));
    m' := At(m3, t, Idle);
    Then(m, m3, a, t, Silent, m');
    assert m'.pcs == m.pcs;
  }

  lemma ReadLinkAlone(m: Machine, a: Stacks, t: Thread, k: nat) returns (m': Machine)
    requires Simulates(m, a) && t in m.pcs && m.pcs[t] == Idle && k < |m.heads| && m.heads[k].first != 0
    ensures var head := m.heads[k];
            && head.first < |m.links| && m' == At(m, t, Cas(Pop(k), head.first, head.aba, m.links[head.first]))
            && Alone(m, t, m') && Simulates(m', a)
  {
    HeadNotOwned(m, a, k);
    var m3 := SampleAlone(m, a, t, Pop(k));
    m' := At(m3, t, Cas(Pop(k), m.heads[k].first, m.heads[k].aba, m.links[m.heads[k].first]));
    Then(m, m3, a, t, Silent, m');
  }

  lemma PopTopAlone(m: Machine, a: Stacks, t: Thread, k: nat) returns (m': Machine)
    requires Simulates(m, a) && t in m.pcs && m.pcs[t] == Idle && k < |m.heads| && m.heads[k].first != 0
    ensures Alone(m, t, m') && m'.pcs == m.pcs && Simulates(m', Matching(a, Popped(t, k, m.heads[k].first)))
  {
    var head := m.heads[k];
    var m4 := ReadLinkAlone(m, a, t, k);
    m' := At(m4, t, Idle).(
            heads := m.heads[k := Head(m.links[head.first], head.aba + 1)], owner := m.owner[head.first := t]);
    Then(m, m4, a, t, Popped(t, k, head.first), m');
    assert m'.pcs == m.pcs;
  }

  /** A pop that nobody disturbs takes the top node, and finds the stack empty only when it is. */
  lemma PopAlone(m: Machine, a: Stacks, t: Thread, k: nat) returns (m': Machine)
    requires Simulates(m, a) && t in m.pcs && m.pcs[t] == Idle && k < |m.heads|
    ensures Alone(m, t, m') && m'.pcs == m.pcs && |a.lists| == |m.heads|
    ensures var list := a.lists[k];
            Simulates(m', if list == [] then a else Stacks(a.lists[k := list[1..]], a.owner[list[0] := t]))
  {
    ChainEnds(m.links, m.heads[k].first, a.lists[k]);
    if m.heads[k].first == 0 { m' := PopEmptyAlone(m, a, t, k); } else { m' := PopTopAlone(m, a, t, k); }
  }

  lemma SwapLoadAlone(m: Machine, a: Stacks, t: Thread, k: nat) returns (m': Machine)
    requires Simulates(m, a) && t in m.pcs && m.pcs[t] == Idle && k < |m.heads|
    ensures m' == At(m, t, SwapCas(k, m.heads[k].first)) && Alone(m, t, m') && Simulates(m', a)
  {
    var m1 := At(m, t, SwapLoad(k));
    First(m, a, BeginSwap(t, k), m1);
    m' := At(m, t, SwapCas(k, m.heads[k].first));
    Then(m, m1, a, t, Silent, m');
  }

  lemma SwapCasSucceeds(m: Machine, t: Thread, k: nat, list: seq<Node>, m': Machine)
    requires t in m.pcs && k < |m.heads| && m.pcs[t] == SwapCas(k, m.heads[k].first)
    requires Chain(m.links, m.heads[k].first, list)
    requires m' == At(m, t, Idle).(
                     heads := m.heads[k := m.heads[k].(first := 0)], owner := TakeAll(m.owner, list, t))
    ensures Advances(m, t, SwappedOut(t, k, m.heads[k].first), m')
  {
  }

  lemma SwapCasAlone(m0: Machine, m: Machine, a: Stacks, t: Thread, k: nat) returns (m': Machine)
    requires Alone(m0, t, m) && Simulates(m, a)
    requires t in m.pcs && k < |m.heads| && m.pcs[t] == SwapCas(k, m.heads[k].first)
    ensures Alone(m0, t, m') && Simulates(m', Matching(a, SwappedOut(t, k, m.heads[k].first)))
    ensures m'.pcs == m.pcs[t := Idle]
  {
    assert Chain(m.links, m.heads[k].first, a.lists[k]);
    m' := At(m, t, Idle).(
            heads := m.heads[k := m.heads[k].(first := 0)], owner := TakeAll(m.owner, a.lists[k], t));
    SwapCasSucceeds(m, t, k, a.lists[k], m');
    Then(m0, m, a, t, SwappedOut(t, k, m.heads[k].first), m');
  }

  /** A swap that nobody disturbs takes the whole list. */
  lemma SwapAlone(m: Machine, a: Stacks, t: Thread, k: nat) returns (m': Machine)
    requires Simulates(m, a) && t in m.pcs && m.pcs[t] == Idle && k < |m.heads|
    ensures Alone(m, t, m') && m'.pcs == m.pcs && |a.lists| == |m.heads|
    ensures Simulates(m', Stacks(a.lists[k := []], TakeAll(a.owner, a.lists[k], t)))
  {
    var m2 := SwapLoadAlone(m, a, t, k);
    m' := SwapCasAlone(m, m2, a, t, k);
    assert m'.pcs == m.pcs;
  }

  // ---------------------------------------------------------------- lock freedom

  /** The event moves head `k`. */
  predicate Moves(e: Event, k: nat) { (e.Pushed? || e.Popped? || e.SwappedOut?) && e.k == k }

  lemma UnmovedAt(states: seq<Machine>, steps: seq<Step>, events: seq<Event>, k: nat, j: nat)
    requires IsRun(states, steps, events) && j < |steps| && k < |states[j].heads| && !Moves(events[j], k)
    ensures |states[j + 1].heads| == |states[j].heads| && states[j + 1].heads[k] == states[j].heads[k]
  {
    var a := RunStep(states, steps, events, j);
    StepEffect(states[j], a, steps[j], events[j], states[j + 1]);
  }

  /** Since step `w` no other thread has moved head `k`. */
  ghost predicate Unmoved(steps: seq<Step>, events: seq<Event>, t: Thread, k: nat, w: nat, j: nat)
    requires j <= |steps| == |events|
  {
    forall u :: w <= u < j && steps[u].t != t ==> !Moves(events[u], k)
  }

  /** Thread `t` took its current sample of the head from step `w` on: there it loaded the head word. */
  ghost predicate SampledFrom(states: seq<Machine>, steps: seq<Step>, t: Thread, k: nat, w: nat, j: nat) {
    && w < j <= |steps| < |states| && steps[w] == Advance(t) && LoadsHead(states, t, k, w)
    && forall u :: w < u < j ==> StillSampled(states, steps, t, k, u)
  }

  predicate LoadsHead(states: seq<Machine>, t: Thread, k: nat, u: nat)
    requires u < |states|
  {
    t in states[u].pcs && match states[u].pcs[t]
                          case LoadFirst(op) => op.k == k
                          case SampleFirst(op, _, _, _) => op.k == k
                          case _ => false
  }

  predicate StillSampled(states: seq<Machine>, steps: seq<Step>, t: Thread, k: nat, u: nat)
    requires u < |steps| && u < |states|
  {
    steps[u].t == t ==> !LoadsHead(states, t, k, u)
  }

  /** The thread has read the head, in part or whole, and acts on it. */
  predicate InSample(pc: Pc, k: nat) {
    match pc
    case LoadAba(op, _) => op.k == k
    case Sampled(op, _, _) => op.k == k
    case Cas(op, _, _, _) => op.k == k
    case SampleAba(op, _, _, _, _) => op.k == k
    case _ => false
  }

  /** What it has read is still the head. */
  predicate Current(m: Machine, t: Thread, k: nat)
    requires t in m.pcs
  {
    k < |m.heads| && match m.pcs[t]
                     case LoadAba(_, first) => first == m.heads[k].first
                     case Sampled(_, first, aba) => Head(first, aba) == m.heads[k]
                     case Cas(_, first, aba, _) => Head(first, aba) == m.heads[k]
                     case SampleAba(_, _, _, _, f) => f == m.heads[k].first
                     case _ => false
  }

  /** A step of the thread itself: it loads the head, or goes on with what it has. */
  predicate SampleAdvances(m: Machine, m': Machine, t: Thread, k: nat)
    requires t in m.pcs && t in m'.pcs
  {
    match m.pcs[t]
    case LoadFirst(op) => op.k == k && Current(m', t, k)
    case SampleFirst(op, _, _, _) => op.k == k && Current(m', t, k)
    case _ => InSample(m.pcs[t], k) && (Current(m, t, k) ==> Current(m', t, k))
  }

  lemma OwnSample(m: Machine, step: Step, e: Event, m': Machine, k: nat)
    requires MachineStep(m, step, e, m') && PcOk(m, step.t) && step.t in m'.pcs && InSample(m'.pcs[step.t], k)
    ensures step == Advance(step.t) && SampleAdvances(m, m', step.t, k)
  {}

  lemma OwnSampleAt(states: seq<Machine>, steps: seq<Step>, events: seq<Event>, t: Thread, k: nat, j: nat)
    requires IsRun(states, steps, events) && j < |steps| && steps[j].t == t
    requires t in states[j + 1].pcs && InSample(states[j + 1].pcs[t], k)
    ensures steps[j] == Advance(t) && t in states[j].pcs && SampleAdvances(states[j], states[j + 1], t, k)
  {
    var a := RunStep(states, steps, events, j);
    OwnSample(states[j], steps[j], events[j], states[j + 1], k);
  }

  lemma StaysCurrent(states: seq<Machine>, steps: seq<Step>, events: seq<Event>, t: Thread, k: nat, j: nat)
    requires IsRun(states, steps, events) && j < |steps| && steps[j].t != t && !Moves(events[j], k)
    requires t in states[j].pcs && Current(states[j], t, k)
    ensures t in states[j + 1].pcs && Current(states[j + 1], t, k)
  {
    OtherPcAt(states, steps, events, t, j);
    UnmovedAt(states, steps, events, k, j);
  }

  ghost predicate SampleOk(
      states: seq<Machine>, steps: seq<Step>, events: seq<Event>, t: Thread, k: nat, w: nat, j: nat)
    requires j <= |steps| == |events| && j < |states| && t in states[j].pcs
  {
    SampledFrom(states, steps, t, k, w, j) && (Unmoved(steps, events, t, k, w, j) ==> Current(states[j], t, k))
  }

  lemma {:induction false} SampleHolds(
      states: seq<Machine>, steps: seq<Step>, events: seq<Event>, t: Thread, k: nat, j: nat) returns (w: nat)
    requires IsRun(states, steps, events) && j <= |steps| && t in states[j].pcs && InSample(states[j].pcs[t], k)
    ensures SampleOk(states, steps, events, t, k, w, j)
    decreases j
  {
    if steps[j - 1].t != t {
      OtherPcAt(states, steps, events, t, j - 1);
      w := SampleHolds(states, steps, events, t, k, j - 1);
      OthersSample(states, steps, events, t, k, w, j - 1);
    } else {
      OwnSampleAt(states, steps, events, t, k, j - 1);
      if LoadsHead(states, t, k, j - 1) {
        w := j - 1;
      } else {
        w := SampleHolds(states, steps, events, t, k, j - 1);
      }
    }
  }

  lemma OthersSample(
      states: seq<Machine>, steps: seq<Step>, events: seq<Event>, t: Thread, k: nat, w: nat, j: nat)
    requires IsRun(states, steps, events) && j < |steps| && steps[j].t != t && t in states[j].pcs
    requires SampleOk(states, steps, events, t, k, w, j)
    ensures t in states[j + 1].pcs && SampleOk(states, steps, events, t, k, w, j + 1)
  {
    OtherPcAt(states, steps, events, t, j);
    if Unmoved(steps, events, t, k, w, j + 1) {
      assert Unmoved(steps, events, t, k, w, j);
      StaysCurrent(states, steps, events, t, k, j);
    }
  }

  /** Lock freedom: a compare-and-store fails only if, since its thread last loaded the head, another
      thread's operation on the same stack has succeeded. */
  lemma FailureIsPaid(states: seq<Machine>, steps: seq<Step>, events: seq<Event>, t: Thread, k: nat, j: nat)
    returns (w: nat, u: nat)
    requires IsRun(states, steps, events) && j < |steps| && steps[j] == Advance(t) && t in states[j].pcs
    requires states[j].pcs[t].Cas? && states[j].pcs[t].op.k == k
    requires t in states[j + 1].pcs && states[j + 1].pcs[t].SampleFirst?
    ensures SampledFrom(states, steps, t, k, w, j) && w < u < j && steps[u].t != t && Moves(events[u], k)
  {
    w := SampleHolds(states, steps, events, t, k, j);
    assert StepTaken(states, steps, events, j);
    assert !Current(states[j], t, k);
    u :| w <= u < j && steps[u].t != t && Moves(events[u], k);
  }
}
