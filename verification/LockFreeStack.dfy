/** The intrusive lock-free stacks, word by word, as a refinement of atomic stacks. */
module LockFreeStack {

  // Any number of threads push, pop and swap out whole lists over one table of link words.
  //
  // A head is two words, the first node and an ABA counter.  Reading it takes two loads, head word first;
  // a failing compare-and-store samples it the same way.  Popped nodes are overwritten by their owners at
  // will.  Swapping a list out zeroes the head word and leaves the counter alone.

  type Node = nat      // 0 is the null link
  type Thread = nat

  datatype Head = Head(first: Node, aba: nat)

  datatype Op = Push(k: nat, node: Node) | Pop(k: nat)

  datatype Pc =
    | Idle
    | LoadFirst(op: Op)
    | LoadAba(op: Op, first: Node)
    | Sampled(op: Op, first: Node, aba: nat)
    | Cas(op: Op, first: Node, aba: nat, next: Node)
    | SampleFirst(op: Op, first: Node, aba: nat, next: Node)
    | SampleAba(op: Op, first: Node, aba: nat, next: Node, newFirst: Node)
    | SwapLoad(k: nat)
    | SwapCas(k: nat, first: Node)

  /** The shared memory, the threads, and who may write which link word. */
  datatype Machine = Machine(heads: seq<Head>, links: seq<Node>, pcs: map<Thread, Pc>, owner: map<Node, Thread>)

  /** The atomic stacks the machine is meant to implement. */
  datatype Stacks = Stacks(lists: seq<seq<Node>>, owner: map<Node, Thread>)

  datatype Event =
    | Silent
    | Pushed(t: Thread, k: nat, node: Node)
    | Popped(t: Thread, k: nat, node: Node)
    | FoundEmpty(t: Thread, k: nat)
    | SwappedOut(t: Thread, k: nat, first: Node)
    | Handed(t: Thread, to: Thread, node: Node)

  // ---------------------------------------------------------------- the atomic stacks

  function Top(list: seq<Node>): Node { if list == [] then 0 else list[0] }

  function TakeAll(owner: map<Node, Thread>, list: seq<Node>, t: Thread): map<Node, Thread> {
    owner + map n | n in list :: t
  }

  ghost predicate AtomicStep(a: Stacks, e: Event, a': Stacks) {
    match e
    case Silent => a' == a
    case Pushed(t, k, n) =>
      && k < |a.lists| && n in a.owner && a.owner[n] == t
      && a' == Stacks(a.lists[k := [n] + a.lists[k]], a.owner - {n})
    case Popped(t, k, n) =>
      && k < |a.lists| && a.lists[k] != [] && a.lists[k][0] == n
      && a' == Stacks(a.lists[k := a.lists[k][1..]], a.owner[n := t])
    case FoundEmpty(t, k) => k < |a.lists| && a.lists[k] == [] && a' == a
    case SwappedOut(t, k, first) =>
      && k < |a.lists| && first == Top(a.lists[k])
      && a' == Stacks(a.lists[k := []], TakeAll(a.owner, a.lists[k], t))
    case Handed(t, to, n) => n in a.owner && a.owner[n] == t && a' == a.(owner := a.owner[n := to])
  }

  // ---------------------------------------------------------------- the machine

  datatype Step =
    | Begin(t: Thread, op: Op)
    | BeginSwap(t: Thread, k: nat)
    | Overwrite(t: Thread, node: Node, value: Node)
    | Hand(t: Thread, to: Thread, node: Node)
    | Advance(t: Thread)

  function At(m: Machine, t: Thread, pc: Pc): Machine { m.(pcs := m.pcs[t := pc]) }

  predicate Owns(m: Machine, t: Thread, n: Node) { n in m.owner && m.owner[n] == t }

  ghost predicate MachineStep(m: Machine, step: Step, e: Event, m': Machine) {
    && step.t in m.pcs
    && var t := step.t;
    var pc := m.pcs[t];
    match step
    case Begin(_, op) =>
      && pc == Idle && op.k < |m.heads| && (op.Push? ==> Owns(m, t, op.node))
      && e == Silent && m' == At(m, t, LoadFirst(op))
    case BeginSwap(_, k) => pc == Idle && k < |m.heads| && e == Silent && m' == At(m, t, SwapLoad(k))
    case Overwrite(_, n, v) =>
      pc == Idle && Owns(m, t, n) && n < |m.links| && e == Silent && m' == m.(links := m.links[n := v])
    case Hand(_, to, n) =>
      pc == Idle && Owns(m, t, n) && e == Handed(t, to, n) && m' == m.(owner := m.owner[n := to])
    case Advance(_) => Advances(m, t, e, m')
  }

  /** The next memory access of `push`, `pop` or the list swap. */
  ghost predicate Advances(m: Machine, t: Thread, e: Event, m': Machine)
    requires t in m.pcs
  {
    match m.pcs[t]
    case Idle => false
    case LoadFirst(op) =>
      && op.k < |m.heads|
      && var first := m.heads[op.k].first;
      // a pop that loads a null head has seen the stack empty
      e == (if op.Pop? && first == 0 then FoundEmpty(t, op.k) else Silent) && m' == At(m, t, LoadAba(op, first))
    case LoadAba(op, first) =>
      op.k < |m.heads| && e == Silent && m' == At(m, t, Sampled(op, first, m.heads[op.k].aba))
    case Sampled(op, first, aba) =>
      && e == Silent
      && (match op
          case Push(_, n) => n < |m.links| && m' == At(m, t, Cas(op, first, aba, n)).(links := m.links[n := first])
          case Pop(_) =>
            if first == 0 then m' == At(m, t, Idle)
            else first < |m.links| && m' == At(m, t, Cas(op, first, aba, m.links[first])))
    case Cas(op, first, aba, next) =>
      && op.k < |m.heads|
      && if m.heads[op.k] != Head(first, aba) then e == Silent && m' == At(m, t, SampleFirst(op, first, aba, next))
      else
        && var after := At(m, t, Idle).(heads := m.heads[op.k := Head(next, aba + 1)]);
        (match op
         case Push(k, n) => e == Pushed(t, k, n) && m' == after.(owner := m.owner - {n})
         case Pop(k) => e == Popped(t, k, first) && m' == after.(owner := m.owner[first := t]))
    case SampleFirst(op, first, aba, next) =>
      && op.k < |m.heads|
      && var f := m.heads[op.k].first;
      e == (if op.Pop? && f == 0 then FoundEmpty(t, op.k) else Silent)
      && m' == At(m, t, SampleAba(op, first, aba, next, f))
    case SampleAba(op, first, aba, next, f) =>
      && op.k < |m.heads| && e == Silent
      && var c := m.heads[op.k].aba;
      // a sample equal to the comparand does not report failure: try again
      m' == At(m, t, if f == first && c == aba then Cas(op, first, aba, next) else Sampled(op, f, c))
    case SwapLoad(k) => k < |m.heads| && e == Silent && m' == At(m, t, SwapCas(k, m.heads[k].first))
    case SwapCas(k, first) =>
      && k < |m.heads|
      && if m.heads[k].first != first then e == Silent && m' == At(m, t, SwapCas(k, m.heads[k].first))
      else
        && e == SwappedOut(t, k, first)
        && exists list: seq<Node> :: Chain(m.links, first, list)
             && m' == At(m, t, Idle).(
                        heads := m.heads[k := m.heads[k].(first := 0)], owner := TakeAll(m.owner, list, t))
  }

  /** Following links from `first` visits exactly `list`. */
  ghost predicate Chain(links: seq<Node>, first: Node, list: seq<Node>) {
    && first == Top(list)
    && forall i :: 0 <= i < |list| ==> 0 < list[i] < |links| && links[list[i]] == After(list, i)
  }

  /** The node below position `i`, null at the bottom. */
  function After(list: seq<Node>, i: nat): Node { if i + 1 < |list| then list[i + 1] else 0 }

  // ---------------------------------------------------------------- simulation

  ghost predicate PcOk(m: Machine, t: Thread)
    requires t in m.pcs
  {
    var pc := m.pcs[t];
    match pc
    case Idle => true
    case LoadFirst(op) => OpOk(m, t, op)
    case LoadAba(op, first) => OpOk(m, t, op) && first < |m.links|
    case Sampled(op, first, aba) => OpOk(m, t, op) && first < |m.links| && aba <= m.heads[op.k].aba
    case Cas(op, first, aba, next) => ReadyToCas(m, t, op, first, aba, next)
    case SampleFirst(op, first, aba, next) => ReadyToCas(m, t, op, first, aba, next)
    case SampleAba(op, first, aba, next, f) =>
      // having seen the stack empty, a pop does not go back to the compare-and-store
      ReadyToCas(m, t, op, first, aba, next) && f < |m.links|
    case SwapLoad(k) => k < |m.heads|
    case SwapCas(k, first) => k < |m.heads|
  }

  ghost predicate OpOk(m: Machine, t: Thread, op: Op) {
    op.k < |m.heads| && (op.Push? ==> Owns(m, t, op.node))
  }

  /** The ABA argument: as long as the counter has not moved, the head is `first` only if it has been
      `first` all along, so the link read earlier is the one the head still has. */
  ghost predicate ReadyToCas(m: Machine, t: Thread, op: Op, first: Node, aba: nat, next: Node) {
    && OpOk(m, t, op)
    && aba <= m.heads[op.k].aba
    && match op
       case Push(_, n) => next == n && n < |m.links| && m.links[n] == first
       case Pop(k) => 0 < first < |m.links| && (m.heads[k] == Head(first, aba) ==> m.links[first] == next)
  }

  ghost predicate NodesOk(a: Stacks, size: nat) {
    && (forall k, i :: 0 <= k < |a.lists| && 0 <= i < |a.lists[k]| ==> a.lists[k][i] !in a.owner)
    && (forall k, l, i, j | 0 <= k < |a.lists| && 0 <= l < |a.lists|
                            && 0 <= i < |a.lists[k]| && 0 <= j < |a.lists[l]| ::
          a.lists[k][i] == a.lists[l][j] ==> k == l && i == j)
    && (forall n :: n in a.owner ==> 0 < n < size)
  }

  ghost predicate Simulates(m: Machine, a: Stacks) {
    && m.owner == a.owner
    && |m.heads| == |a.lists|
    && |m.links| > 0
    && (forall k :: 0 <= k < |m.heads| ==> Chain(m.links, m.heads[k].first, a.lists[k]))
    && NodesOk(a, |m.links|)
    && (forall t :: t in m.pcs ==> PcOk(m, t))
  }

  // ---------------------------------------------------------------- chains

  lemma ChainTail(links: seq<Node>, first: Node, p: seq<Node>)
    requires Chain(links, first, p) && p != []
    ensures first < |links| && Chain(links, links[first], p[1..])
  {
    var q := p[1..];
    assert links[p[0]] == After(p, 0);
    forall i | 0 <= i < |q|
      ensures 0 < q[i] < |links| && links[q[i]] == After(q, i)
    {
      assert q[i] == p[i + 1] && After(q, i) == After(p, i + 1);
    }
  }

  lemma ChainPush(links: seq<Node>, first: Node, list: seq<Node>, n: Node)
    requires Chain(links, first, list) && 0 < n < |links| && links[n] == first
    ensures Chain(links, n, [n] + list)
  {
    var q := [n] + list;
    forall i | 0 <= i < |q|
      ensures 0 < q[i] < |links| && links[q[i]] == After(q, i)
    {
      if i > 0 { assert q[i] == list[i - 1] && After(q, i) == After(list, i - 1); }
    }
  }

  lemma ChainEnds(links: seq<Node>, first: Node, p: seq<Node>)
    requires Chain(links, first, p)
    ensures p == [] <==> first == 0
    ensures p != [] ==> p[0] == first
  {
  }

  /** A chain is determined by its first node. */
  lemma {:induction false} ChainUnique(links: seq<Node>, first: Node, p: seq<Node>, q: seq<Node>)
    requires Chain(links, first, p) && Chain(links, first, q)
    ensures p == q
    decreases |p|
  {
    ChainEnds(links, first, p);
    ChainEnds(links, first, q);
    if p != [] {
      ChainTail(links, first, p);
      ChainTail(links, first, q);
      ChainUnique(links, links[first], p[1..], q[1..]);
      assert p == [first] + p[1..] && q == [first] + q[1..];
    }
  }

  // ---------------------------------------------------------------- what other threads rely on

  /** What a step may change under the feet of a thread `t` that does not take it: a head moves only
      with its counter, or to null; only links of nodes that `t` does not own are written. */
  ghost predicate Evolves(m: Machine, m': Machine, t: Thread) {
    && |m'.heads| == |m.heads| && |m'.links| == |m.links|
    && (forall k :: 0 <= k < |m.heads| ==>
          m'.heads[k] == m.heads[k] || m'.heads[k].aba > m.heads[k].aba || m'.heads[k] == Head(0, m.heads[k].aba))
    && (forall n :: 0 <= n < |m.links| ==> m'.links[n] == m.links[n] || (n in m.owner && m.owner[n] != t))
    && (forall n :: Owns(m, t, n) ==> Owns(m', t, n))
  }

  lemma HeadNotOwned(m: Machine, a: Stacks, k: nat)
    requires Simulates(m, a) && k < |m.heads|
    ensures m.heads[k].first != 0 ==> m.heads[k].first !in m.owner && m.heads[k].first < |m.links|
  {
    assert Chain(m.links, m.heads[k].first, a.lists[k]);
  }

  lemma PcFrame(m: Machine, a: Stacks, m': Machine, t: Thread)
    requires Simulates(m, a) && Evolves(m, m', t)
    requires t in m.pcs && t in m'.pcs && m'.pcs[t] == m.pcs[t]
    ensures PcOk(m', t)
  {
    assert PcOk(m, t);
    forall k | 0 <= k < |m.heads| ensures m.heads[k].first != 0 ==> m.heads[k].first !in m.owner {
      HeadNotOwned(m, a, k);
    }
  }

  // ---------------------------------------------------------------- steps

  /** What a step of thread `t` does to the shared memory, by its event alone. */
  ghost predicate Effect(m: Machine, a: Stacks, t: Thread, e: Event, m': Machine) {
    && m'.pcs.Keys == m.pcs.Keys && (forall u :: u in m.pcs && u != t ==> m'.pcs[u] == m.pcs[u])
    && |m'.links| == |m.links|
    && (match e
        case Pushed(_, k, n) =>
          && k < |m.heads| && Owns(m, t, n) && 0 < n < |m.links| && m.links[n] == m.heads[k].first
          && m'.heads == m.heads[k := Head(n, m.heads[k].aba + 1)] && m'.links == m.links && m'.owner == m.owner - {n}
        case Popped(_, k, n) =>
          && k < |m.heads| && n == m.heads[k].first && 0 < n < |m.links|
          && m'.heads == m.heads[k := Head(m.links[n], m.heads[k].aba + 1)] && m'.links == m.links
          && m'.owner == m.owner[n := t]
        case SwappedOut(_, k, _) =>
          && k < |m.heads| && k < |a.lists|
          && m'.heads == m.heads[k := m.heads[k].(first := 0)] && m'.links == m.links
          && m'.owner == TakeAll(m.owner, a.lists[k], t)
        case Handed(_, to, n) => Owns(m, t, n) && m'.heads == m.heads && m'.links == m.links
          && m'.owner == m.owner[n := to]
        case _ =>
          && m'.heads == m.heads && m'.owner == m.owner
          && (forall n :: 0 <= n < |m.links| && m'.links[n] != m.links[n] ==> Owns(m, t, n)))
  }

  ghost predicate OwnersInRange(m: Machine) { forall n :: n in m.owner ==> 0 < n < |m.links| }

  /** A step that touches only the thread's own program counter. */
  lemma QuietEffect(m: Machine, a: Stacks, t: Thread, e: Event, m': Machine, pc: Pc)
    requires t in m.pcs && m' == At(m, t, pc) && (e.Silent? || e.FoundEmpty?)
    ensures Effect(m, a, t, e, m')
  {}

  lemma CasEffect(m: Machine, a: Stacks, t: Thread, e: Event, m': Machine)
    requires t in m.pcs && m.pcs[t].Cas? && PcOk(m, t) && OwnersInRange(m) && Advances(m, t, e, m')
    ensures Effect(m, a, t, e, m')
  {
    var Cas(op, first, aba, next) := m.pcs[t];
    if m.heads[op.k] != Head(first, aba) { QuietEffect(m, a, t, e, m', SampleFirst(op, first, aba, next)); }
  }

  lemma SampledEffect(m: Machine, a: Stacks, t: Thread, e: Event, m': Machine)
    requires t in m.pcs && m.pcs[t].Sampled? && PcOk(m, t) && Advances(m, t, e, m')
    ensures Effect(m, a, t, e, m')
  {}

  lemma SwapEffect(m: Machine, a: Stacks, t: Thread, e: Event, m': Machine)
    requires Simulates(m, a) && t in m.pcs && m.pcs[t].SwapCas? && Advances(m, t, e, m')
    ensures Effect(m, a, t, e, m')
  {
    if e.SwappedOut? { SwapTakesList(m, a, t, e, m'); }
  }

  lemma ReadEffect(m: Machine, a: Stacks, t: Thread, e: Event, m': Machine)
    requires t in m.pcs && Advances(m, t, e, m') && !m.pcs[t].Cas? && !m.pcs[t].Sampled? && !m.pcs[t].SwapCas?
    ensures Effect(m, a, t, e, m')
  {
    QuietEffect(m, a, t, e, At(m, t, m'.pcs[t]), m'.pcs[t]);
  }

  lemma ClientEffect(m: Machine, a: Stacks, step: Step, e: Event, m': Machine)
    requires MachineStep(m, step, e, m') && !step.Advance?
    ensures Effect(m, a, step.t, e, m')
  {}

  lemma StepEffect(m: Machine, a: Stacks, step: Step, e: Event, m': Machine)
    requires Simulates(m, a) && MachineStep(m, step, e, m')
    ensures Effect(m, a, step.t, e, m')
  {
    var t := step.t;
    assert PcOk(m, t);
    if !step.Advance? {
      ClientEffect(m, a, step, e, m');
    } else if m.pcs[t].Cas? {
      CasEffect(m, a, t, e, m');
    } else if m.pcs[t].Sampled? {
      SampledEffect(m, a, t, e, m');
    } else if m.pcs[t].SwapCas? {
      SwapEffect(m, a, t, e, m');
    } else {
      ReadEffect(m, a, t, e, m');
    }
  }

  lemma Evolution(m: Machine, a: Stacks, s: Thread, e: Event, m': Machine, t: Thread)
    requires Simulates(m, a) && Effect(m, a, s, e, m') && t in m.pcs && t != s
    ensures Evolves(m, m', t) && t in m'.pcs && m'.pcs[t] == m.pcs[t]
  {
    if e.Popped? {
      HeadNotOwned(m, a, e.k);
    }
    if e.SwappedOut? {
      assert forall i :: 0 <= i < |a.lists[e.k]| ==> a.lists[e.k][i] !in a.owner;
    }
  }

  lemma SwapTakesList(m: Machine, a: Stacks, t: Thread, e: Event, m': Machine)
    requires Simulates(m, a) && t in m.pcs && Advances(m, t, e, m') && e.SwappedOut?
    ensures e.k < |a.lists| && m'.owner == TakeAll(m.owner, a.lists[e.k], t)
    ensures m' == At(m, t, Idle).(heads := m.heads[e.k := m.heads[e.k].(first := 0)], owner := m'.owner)
  {
    var list: seq<Node> :| Chain(m.links, e.first, list)
      && m' == At(m, t, Idle).(heads := m.heads[e.k := m.heads[e.k].(first := 0)], owner := TakeAll(m.owner, list, t));
    ChainUnique(m.links, e.first, list, a.lists[e.k]);
  }

  ghost predicate HeadsInRange(m: Machine) { forall k :: 0 <= k < |m.heads| ==> m.heads[k].first < |m.links| }

  lemma CasPcKept(m: Machine, t: Thread, e: Event, m': Machine)
    requires t in m.pcs && m.pcs[t].Cas? && PcOk(m, t) && Advances(m, t, e, m')
    ensures t in m'.pcs && PcOk(m', t)
  {}

  lemma SampledPcKept(m: Machine, t: Thread, e: Event, m': Machine)
    requires t in m.pcs && m.pcs[t].Sampled? && PcOk(m, t) && HeadsInRange(m) && Advances(m, t, e, m')
    ensures t in m'.pcs && PcOk(m', t)
  {}

  lemma ReadPcKept(m: Machine, t: Thread, e: Event, m': Machine)
    requires t in m.pcs && PcOk(m, t) && HeadsInRange(m) && Advances(m, t, e, m') && !m.pcs[t].Cas?
             && !m.pcs[t].Sampled?
    ensures t in m'.pcs && PcOk(m', t)
  {}

  /** The thread that takes the step. */
  lemma OwnPcKept(m: Machine, a: Stacks, t: Thread, e: Event, m': Machine)
    requires Simulates(m, a) && t in m.pcs && Advances(m, t, e, m')
    ensures t in m'.pcs && PcOk(m', t)
  {
    assert PcOk(m, t);
    forall k | 0 <= k < |m.heads| ensures m.heads[k].first < |m.links| {
      HeadNotOwned(m, a, k);
    }
    if m.pcs[t].Cas? { CasPcKept(m, t, e, m'); }
    else if m.pcs[t].Sampled? { SampledPcKept(m, t, e, m'); }
    else { ReadPcKept(m, t, e, m'); }
  }

  /** The abstract state after a step: the event says what happened. */
  ghost function Matching(a: Stacks, e: Event): Stacks {
    match e
    case Silent => a
    case FoundEmpty(_, _) => a
    case Pushed(t, k, n) =>
      if k < |a.lists| then Stacks(a.lists[k := [n] + a.lists[k]], a.owner - {n}) else a
    case Popped(t, k, n) =>
      if k < |a.lists| && a.lists[k] != [] then Stacks(a.lists[k := a.lists[k][1..]], a.owner[n := t]) else a
    case SwappedOut(t, k, _) =>
      if k < |a.lists| then Stacks(a.lists[k := []], TakeAll(a.owner, a.lists[k], t)) else a
    case Handed(_, to, n) => a.(owner := a.owner[n := to])
  }

  lemma PushIsAtomic(m: Machine, a: Stacks, t: Thread, e: Event, m': Machine)
    requires t in m.pcs && Advances(m, t, e, m') && e.Pushed? && PcOk(m, t)
    requires m.owner == a.owner && |m.heads| == |a.lists|
    ensures AtomicStep(a, e, Matching(a, e)) && m'.owner == Matching(a, e).owner
  {
  }

  lemma PopIsAtomic(m: Machine, a: Stacks, t: Thread, e: Event, m': Machine)
    requires t in m.pcs && Advances(m, t, e, m') && (e.Popped? || e.FoundEmpty?) && PcOk(m, t)
    requires m.owner == a.owner && |m.heads| == |a.lists|
    requires e.k < |m.heads| ==> Chain(m.links, m.heads[e.k].first, a.lists[e.k])
    ensures AtomicStep(a, e, Matching(a, e)) && m'.owner == Matching(a, e).owner
  {
  }

  lemma SwapIsAtomic(m: Machine, a: Stacks, t: Thread, e: Event, m': Machine)
    requires Simulates(m, a) && t in m.pcs && Advances(m, t, e, m') && e.SwappedOut?
    ensures AtomicStep(a, e, Matching(a, e)) && m'.owner == Matching(a, e).owner
  {
    SwapTakesList(m, a, t, e, m');
    assert Chain(m.links, m.heads[e.k].first, a.lists[e.k]);
  }

  lemma SilentIsAtomic(m: Machine, a: Stacks, step: Step, e: Event, m': Machine)
    requires MachineStep(m, step, e, m') && (e.Silent? || e.Handed?) && m.owner == a.owner
    ensures AtomicStep(a, e, Matching(a, e)) && m'.owner == Matching(a, e).owner
  {
  }

  lemma StepIsAtomic(m: Machine, a: Stacks, step: Step, e: Event, m': Machine)
    requires Simulates(m, a) && MachineStep(m, step, e, m')
    ensures AtomicStep(a, e, Matching(a, e)) && m'.owner == Matching(a, e).owner
  {
    assert PcOk(m, step.t);
    match e
    case Pushed(t, _, _) => PushIsAtomic(m, a, t, e, m');
    case Popped(t, _, _) => PopIsAtomic(m, a, t, e, m');
    case FoundEmpty(t, _) => PopIsAtomic(m, a, t, e, m');
    case SwappedOut(t, _, _) => SwapIsAtomic(m, a, t, e, m');
    case _ => SilentIsAtomic(m, a, step, e, m');
  }

  lemma PushNodes(a: Stacks, e: Event, a': Stacks, size: nat)
    requires NodesOk(a, size) && AtomicStep(a, e, a') && e.Pushed?
    ensures NodesOk(a', size)
  {
    var k := e.k;
    forall l, j | 0 <= l < |a.lists| && 0 <= j < |a'.lists[l]|
      ensures a'.lists[l][j] == if l == k then (if j == 0 then e.node else a.lists[k][j - 1]) else a.lists[l][j]
    {}
  }

  lemma PopNodes(a: Stacks, e: Event, a': Stacks, size: nat)
    requires NodesOk(a, size) && AtomicStep(a, e, a') && e.Popped? && 0 < e.node < size
    ensures NodesOk(a', size)
  {
    var k := e.k;
    assert a.lists[k][0] == e.node;
    forall l, j | 0 <= l < |a.lists| && 0 <= j < |a'.lists[l]|
      ensures a'.lists[l][j] == if l == k then a.lists[k][j + 1] else a.lists[l][j]
    {}
  }

  lemma SwapNodes(a: Stacks, e: Event, a': Stacks, size: nat)
    requires NodesOk(a, size) && AtomicStep(a, e, a') && e.SwappedOut?
    requires forall n :: n in a.lists[e.k] ==> 0 < n < size
    ensures NodesOk(a', size)
  {
    forall l, j | 0 <= l < |a.lists| && 0 <= j < |a'.lists[l]| ensures l != e.k && a'.lists[l][j] == a.lists[l][j] {}
  }

  lemma NodesKept(m: Machine, a: Stacks, step: Step, e: Event, m': Machine)
    requires Simulates(m, a) && MachineStep(m, step, e, m') && AtomicStep(a, e, Matching(a, e))
    ensures NodesOk(Matching(a, e), |m.links|)
  {
    var a', size := Matching(a, e), |m.links|;
    if e.Popped? || e.SwappedOut? { assert Chain(m.links, m.heads[e.k].first, a.lists[e.k]); }
    match e
    case Pushed(_, _, _) => PushNodes(a, e, a', size);
    case Popped(_, _, _) => PopNodes(a, e, a', size);
    case SwappedOut(_, _, _) => SwapNodes(a, e, a', size);
    case _ =>
  }

  /** Nobody owns a listed node, so nobody has written its link. */
  lemma LinksKept(m: Machine, a: Stacks, t: Thread, e: Event, m': Machine, k: nat)
    requires Simulates(m, a) && Effect(m, a, t, e, m') && k < |m.heads|
    ensures Chain(m'.links, m.heads[k].first, a.lists[k])
  {
    var list := a.lists[k];
    assert Chain(m.links, m.heads[k].first, list);
    forall i | 0 <= i < |list| ensures m'.links[list[i]] == m.links[list[i]] {
      assert list[i] !in a.owner;
    }
  }

  lemma ChainsKept(m: Machine, a: Stacks, t: Thread, e: Event, m': Machine, k: nat)
    requires Simulates(m, a) && Effect(m, a, t, e, m') && k < |m.heads|
    ensures |m'.heads| == |m.heads| == |Matching(a, e).lists| && |m'.links| == |m.links|
    ensures Chain(m'.links, m'.heads[k].first, Matching(a, e).lists[k])
  {
    LinksKept(m, a, t, e, m', k);
    if e.Pushed? && e.k == k {
      ChainPush(m'.links, m.heads[k].first, a.lists[k], e.node);
    } else if e.Popped? && e.k == k {
      ChainTail(m'.links, m.heads[k].first, a.lists[k]);
    }
  }

  lemma ChainsKeptAll(m: Machine, a: Stacks, t: Thread, e: Event, m': Machine)
    requires Simulates(m, a) && Effect(m, a, t, e, m')
    ensures |m'.links| == |m.links|
    ensures |m'.heads| == |m.heads| == |Matching(a, e).lists| && |m'.links| == |m.links|
    ensures forall k :: 0 <= k < |m'.heads| ==> Chain(m'.links, m'.heads[k].first, Matching(a, e).lists[k])
  {
    forall k | 0 <= k < |m.heads|
      ensures |m'.heads| == |m.heads| == |Matching(a, e).lists|
      ensures |m'.links| == |m.links| && Chain(m'.links, m'.heads[k].first, Matching(a, e).lists[k])
    {
      ChainsKept(m, a, t, e, m', k);
    }
    HeadCount(m, a, t, e, m');
  }

  lemma HeadCount(m: Machine, a: Stacks, t: Thread, e: Event, m': Machine)
    requires Simulates(m, a) && Effect(m, a, t, e, m')
    ensures |m'.heads| == |m.heads| == |Matching(a, e).lists|
  {}

  lemma PcsKept(m: Machine, a: Stacks, step: Step, e: Event, m': Machine, t: Thread)
    requires Simulates(m, a) && MachineStep(m, step, e, m') && t in m'.pcs
    ensures PcOk(m', t)
  {
    if t != step.t {
      StepEffect(m, a, step, e, m');
      Evolution(m, a, step.t, e, m', t);
      PcFrame(m, a, m', t);
    } else if step.Advance? {
      OwnPcKept(m, a, t, e, m');
    } else {
      ClientPcKept(m, a, step, e, m');
    }
  }

  lemma ClientPcKept(m: Machine, a: Stacks, step: Step, e: Event, m': Machine)
    requires Simulates(m, a) && MachineStep(m, step, e, m') && !step.Advance?
    ensures step.t in m'.pcs && PcOk(m', step.t)
  {}

  /** Every step of the machine is a step of the atomic stacks, or changes nothing they show. */
  lemma StepSimulated(m: Machine, a: Stacks, step: Step, e: Event, m': Machine)
    requires Simulates(m, a) && MachineStep(m, step, e, m')
    ensures AtomicStep(a, e, Matching(a, e)) && Simulates(m', Matching(a, e))
  {
    StepIsAtomic(m, a, step, e, m');
    NodesKept(m, a, step, e, m');
    StepEffect(m, a, step, e, m');
    ChainsKeptAll(m, a, step.t, e, m');
    forall t | t in m'.pcs ensures PcOk(m', t) {
      PcsKept(m, a, step, e, m', t);
    }
  }

  // ---------------------------------------------------------------- runs

  /** Empty stacks; every node belongs to some thread; nobody is inside an operation. */
  ghost predicate Init(m: Machine) {
    && |m.links| > 0
    && (forall k :: 0 <= k < |m.heads| ==> m.heads[k].first == 0)
    && (forall n :: n in m.owner <==> 0 < n < |m.links|)
    && (forall t :: t in m.pcs ==> m.pcs[t] == Idle)
  }

  ghost predicate IsRun(states: seq<Machine>, steps: seq<Step>, events: seq<Event>) {
    && |states| == |steps| + 1 == |events| + 1
    && Init(states[0])
    && forall i :: 0 <= i < |steps| ==> StepTaken(states, steps, events, i)
  }

  ghost predicate StepTaken(states: seq<Machine>, steps: seq<Step>, events: seq<Event>, i: nat)
    requires i < |steps| && i < |events| && i + 1 < |states|
  {
    MachineStep(states[i], steps[i], events[i], states[i + 1])
  }

  ghost predicate IsAtomicRun(states: seq<Stacks>, events: seq<Event>) {
    && |states| == |events| + 1
    && (forall k :: 0 <= k < |states[0].lists| ==> states[0].lists[k] == [])
    && forall i :: 0 <= i < |events| ==> AtomicStepTaken(states, events, i)
  }

  ghost predicate AtomicStepTaken(states: seq<Stacks>, events: seq<Event>, i: nat)
    requires i < |events| && i + 1 < |states|
  {
    AtomicStep(states[i], events[i], states[i + 1])
  }

  /** Refinement: the events of any run of the machine are the events of a run of the atomic stacks,
      and at its end the links lay out exactly the atomic lists. */
  lemma {:induction false} RunRefinesAtomicStacks(states: seq<Machine>, steps: seq<Step>, events: seq<Event>)
    returns (atomic: seq<Stacks>)
    requires IsRun(states, steps, events)
    ensures IsAtomicRun(atomic, events) && Simulates(states[|steps|], atomic[|steps|])
  {
    if steps == [] {
      atomic := [EmptyStacks(states[0])];
      InitSimulates(states[0]);
    } else {
      var n := |steps| - 1;
      ShorterRun(states, steps, events, n);
      var before := RunRefinesAtomicStacks(states[..n + 1], steps[..n], events[..n]);
      var after := LastStepRefines(states, steps, events, before[n]);
      ExtendAtomic(before, events, after);
      atomic := before + [after];
    }
  }

  lemma LastStepRefines(states: seq<Machine>, steps: seq<Step>, events: seq<Event>, a: Stacks) returns (a': Stacks)
    requires IsRun(states, steps, events) && steps != [] && Simulates(states[|steps| - 1], a)
    ensures AtomicStep(a, events[|steps| - 1], a') && Simulates(states[|steps|], a')
  {
    var n := |steps| - 1;
    assert StepTaken(states, steps, events, n);
    StepSimulated(states[n], a, steps[n], events[n], states[n + 1]);
    a' := Matching(a, events[n]);
  }

  lemma ExtendAtomic(before: seq<Stacks>, events: seq<Event>, after: Stacks)
    requires events != [] && IsAtomicRun(before, events[..|events| - 1])
    requires AtomicStep(before[|events| - 1], events[|events| - 1], after)
    ensures IsAtomicRun(before + [after], events)
  {
    var n := |events| - 1;
    forall i | 0 <= i < |events| ensures AtomicStepTaken(before + [after], events, i) {
      assert i < n ==> AtomicStepTaken(before, events[..n], i);
    }
  }

  function EmptyStacks(m: Machine): Stacks { Stacks(seq(|m.heads|, _ => []), m.owner) }

  lemma InitSimulates(m: Machine)
    requires Init(m)
    ensures Simulates(m, EmptyStacks(m))
  {
  }

  lemma ShorterRun(states: seq<Machine>, steps: seq<Step>, events: seq<Event>, n: nat)
    requires IsRun(states, steps, events) && n <= |steps|
    ensures IsRun(states[..n + 1], steps[..n], events[..n])
  {
    var m := n + 1;
    var states', steps', events' := states[..m], steps[..n], events[..n];
    forall i | 0 <= i < |steps'| ensures StepTaken(states', steps', events', i) {
      assert StepTaken(states, steps, events, i);
    }
  }

  /** A node is popped at most once per push, and never while it is listed anywhere: popping a node
      that its holder has not pushed back is impossible. */
  lemma PoppedNodeWasListed(m: Machine, a: Stacks, step: Step, e: Event, m': Machine)
    requires Simulates(m, a) && MachineStep(m, step, e, m') && e.Popped?
    ensures e.node !in m.owner && e.node in m'.owner && m'.owner[e.node] == step.t
    ensures forall l :: 0 <= l < |a.lists| ==> e.node !in Matching(a, e).lists[l]
  {
    StepSimulated(m, a, step, e, m');
    assert a.lists[e.k][0] == e.node;
  }

  // ---------------------------------------------------------------- a list swapped out

  lemma RunSimulates(states: seq<Machine>, steps: seq<Step>, events: seq<Event>, i: nat) returns (a: Stacks)
    requires IsRun(states, steps, events) && i < |states|
    ensures Simulates(states[i], a)
  {
    ShorterRun(states, steps, events, i);
    var atomic := RunRefinesAtomicStacks(states[..i + 1], steps[..i], events[..i]);
    a := atomic[i];
  }

  /** Thread `t` owns the nodes that the links lay out from `first`. */
  ghost predicate OwnsChain(m: Machine, t: Thread, first: Node, list: seq<Node>) {
    Chain(m.links, first, list) && t in m.pcs && forall n :: n in list ==> Owns(m, t, n)
  }

  lemma ChainEvolves(m: Machine, m': Machine, t: Thread, first: Node, list: seq<Node>)
    requires OwnsChain(m, t, first, list) && Evolves(m, m', t) && t in m'.pcs
    ensures OwnsChain(m', t, first, list)
  {
    forall i | 0 <= i < |list| ensures m'.links[list[i]] == m.links[list[i]] {
      assert list[i] in list && Owns(m, t, list[i]);
    }
  }

  lemma SwapOwnsChain(m: Machine, a: Stacks, step: Step, e: Event, m': Machine)
    requires Simulates(m, a) && MachineStep(m, step, e, m') && e.SwappedOut?
    ensures e.k < |a.lists| && OwnsChain(m', step.t, e.first, a.lists[e.k])
  {
    SwapTakesList(m, a, step.t, e, m');
    assert Chain(m.links, m.heads[e.k].first, a.lists[e.k]);
  }

  /** A list that a thread has swapped out stays laid out from its first node for as long as the thread does
      nothing but read, or is dead, whatever all the others do: a walk from the saved head visits exactly
      the list that was taken, also when another process does it after a crash. */
  lemma {:induction false} SwappedChainStays(
      states: seq<Machine>, steps: seq<Step>, events: seq<Event>, i: nat, j: nat) returns (list: seq<Node>)
    requires IsRun(states, steps, events) && i < j < |states| && events[i].SwappedOut?
    requires forall u :: i < u < j ==> steps[u].t != steps[i].t
    ensures Chain(states[i].links, events[i].first, list)
    ensures OwnsChain(states[j], steps[i].t, events[i].first, list)
    decreases j
  {
    var t := steps[i].t;
    if j == i + 1 {
      var a := RunSimulates(states, steps, events, i);
      assert StepTaken(states, steps, events, i);
      SwapOwnsChain(states[i], a, steps[i], events[i], states[j]);
      list := a.lists[events[i].k];
    } else {
      list := SwappedChainStays(states, steps, events, i, j - 1);
      var a := RunSimulates(states, steps, events, j - 1);
      assert StepTaken(states, steps, events, j - 1);
      StepEffect(states[j - 1], a, steps[j - 1], events[j - 1], states[j]);
      Evolution(states[j - 1], a, steps[j - 1].t, events[j - 1], states[j], t);
      ChainEvolves(states[j - 1], states[j], t, events[i].first, list);
    }
  }
}
