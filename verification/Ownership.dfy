/** Ownership of items by processes, and the revocation of items whose owner has died. */
module Ownership {

  // An item has a 128-bit word, zero or the id of its owner.  Processes acquire, release, and revoke items
  // whose owner has died, some with a recovery function in between; any of them may die at any step.
  //
  // A process id is a pid and the clock tick in which the process began.  The owner word is written and
  // compared whole but read in two halves, so a reader may see the pid of one owner beside the tick of
  // another.  Whether that can cost a live owner its item depends on which ids the system hands out:
  // `OwnersKeptIff` gives the exact condition.

  datatype Id = Id(pid: nat, btime: nat)

  const NOBODY := Id(0, 0)

  /** What a process is in the middle of. */
  datatype Pc =
    | Idle
    | ReadPid(item: nat, recover: bool)                     // check-and-revoke, about to read the first half
    | ReadBtime(item: nat, recover: bool, pid: nat)
    | CheckAlive(item: nat, recover: bool, seen: Id)
    | Revoke(item: nat, recover: bool, seen: Id)            // saw that `seen` is not alive
    | Recovering(item: nat, seen: Id)                       // took the item over, running the recovery function

  /** `started` lists the processes in the order in which they began; `held` is what each process believes
      it owns: acquired, not yet released. */
  datatype State = State(items: seq<Id>, started: seq<Id>, live: set<Id>, pcs: map<Id, Pc>, held: map<Id, set<nat>>)

  datatype Step =
    | Start(p: Id)
    | Die(p: Id)
    | Acquire(p: Id, item: nat)
    | Release(p: Id, item: nat)
    | BeginCheck(p: Id, item: nat, recover: bool)
    | Advance(p: Id)                                        // the next step of a check-and-revoke
    | EndRecovery(p: Id, ok: bool)

  predicate IsValid(id: Id) { id.pid != 0 && id.btime != 0 }

  ghost predicate Init(s: State) {
    && (forall i :: 0 <= i < |s.items| ==> s.items[i] == NOBODY)
    && s.started == [] && s.live == {} && s.pcs == map[] && s.held == map[]
  }

  function At(s: State, p: Id, pc: Pc): State { s.(pcs := s.pcs[p := pc]) }

  function Write(s: State, i: nat, id: Id): State
    requires i < |s.items|
  {
    s.(items := s.items[i := id])
  }

  predicate Runs(s: State, p: Id) { p in s.live && p in s.pcs && p in s.held }

  /** Ids come in the order of the clock and never twice; several processes may begin in one tick. */
  predicate Fresh(started: seq<Id>, p: Id) {
    IsValid(p) && p !in started && forall q :: q in started ==> q.btime <= p.btime
  }

  /** What an operating system grants: a new id whose pid no living process has. */
  predicate CanStart(s: State, p: Id) {
    Fresh(s.started, p) && forall q :: q in s.live ==> q.pid != p.pid
  }

  predicate Enabled(s: State, step: Step) {
    if step.Start? then CanStart(s, step.p) else
      && Runs(s, step.p)
      && var pc := s.pcs[step.p];
         match step
         case Acquire(_, i) => pc.Idle? && i < |s.items|
         case Release(_, i) => pc.Idle? && i < |s.items|
         case BeginCheck(_, i, _) => pc.Idle? && i < |s.items|
         case Advance(_) => !pc.Idle? && !pc.Recovering? && pc.item < |s.items|
         case EndRecovery(_, _) => pc.Recovering? && pc.item < |s.items|
         case _ => true
  }

  function After(s: State, step: Step): State
    requires Enabled(s, step)
  {
    match step
    case Start(p) =>
      s.(started := s.started + [p], live := s.live + {p}, pcs := s.pcs[p := Idle], held := s.held[p := {}])
    case Die(p) => s.(live := s.live - {p}, pcs := s.pcs - {p}, held := s.held - {p})
    case Acquire(p, i) =>
      if s.items[i] == NOBODY then Write(s, i, p).(held := s.held[p := s.held[p] + {i}]) else s
    case Release(p, i) =>
      if s.items[i] == p then Write(s, i, NOBODY).(held := s.held[p := s.held[p] - {i}]) else s
    case BeginCheck(p, i, r) => At(s, p, ReadPid(i, r))
    case Advance(p) => Advanced(s, p)
    case EndRecovery(p, ok) =>
      // the write is unconditional: nobody when recovered, else the dead owner for others to find
      At(Write(s, s.pcs[p].item, if ok then NOBODY else s.pcs[p].seen), p, Idle)
  }

  /** The next step of `CheckAndRevokeItem`. */
  function Advanced(s: State, p: Id): State
    requires Enabled(s, Advance(p))
  {
    var pc := s.pcs[p];
    var word := s.items[pc.item];
    match pc
    case ReadPid(i, r) => At(s, p, ReadBtime(i, r, word.pid))
    case ReadBtime(i, r, pid) => At(s, p, CheckAlive(i, r, Id(pid, word.btime)))
    case CheckAlive(i, r, seen) => At(s, p, if IsValid(seen) && seen !in s.live then Revoke(i, r, seen) else Idle)
    case Revoke(i, r, seen) =>
      if word != seen then At(s, p, Idle)
      else if r then At(Write(s, i, p), p, Recovering(i, seen))
      else At(Write(s, i, NOBODY), p, Idle)
  }

  ghost predicate Next(s: State, step: Step, s': State) {
    Enabled(s, step) && s' == After(s, step)
  }

  // ---------------------------------------------------------------- which ids are safe

  /** No process begins in the same tick as the one before it with a pid that was used before, unless no
      third pid was ever used. */
  ghost predicate Safe(started: seq<Id>) {
    !exists i, r, j :: Reused(started, i, r, j)
  }

  ghost predicate Reused(started: seq<Id>, i: int, r: int, j: int) {
    && 0 <= i < j < |started| && 0 <= r < j
    && started[j - 1].btime == started[j].btime && started[i].pid == started[j].pid
    && started[r].pid != started[j].pid && started[r].pid != started[j - 1].pid
  }

  // ---------------------------------------------------------------- invariant

  ghost predicate Known(s: State, id: Id) { id == NOBODY || id in s.started }

  /** `id` never was and never will be alive again, as long as the ids handed out are safe: it has begun
      and died, or it is the pid of one process beside the tick of another, which is not its reader. */
  ghost predicate Gone(s: State, p: Id, id: Id) {
    IsValid(id) && id !in s.live && (id in s.started || exists a, b :: Torn(s, p, id, a, b))
  }

  ghost predicate Torn(s: State, p: Id, id: Id, a: Id, b: Id) {
    a in s.started && b in s.started && id == Id(a.pid, b.btime) && b != p
  }

  /** What `p` read is the pid of `a`, which owned the item, and it still owns it if it did. */
  ghost predicate FirstHalf(s: State, p: Id, i: nat, pid: nat, a: Id) {
    Known(s, a) && a.pid == pid && i < |s.items| && (s.items[i] == p ==> a == p)
  }

  ghost predicate BothHalves(s: State, p: Id, seen: Id, a: Id, b: Id) {
    Known(s, a) && Known(s, b) && seen == Id(a.pid, b.btime) && (b == p ==> a == p)
  }

  ghost predicate PcOk(s: State, p: Id)
    requires p in s.pcs
  {
    match s.pcs[p]
    case ReadBtime(i, _, pid) => exists a :: FirstHalf(s, p, i, pid, a)
    case CheckAlive(_, _, seen) => exists a, b :: BothHalves(s, p, seen, a, b)
    case Revoke(_, _, seen) => Gone(s, p, seen)
    case Recovering(_, seen) => seen in s.started && seen !in s.live
    case _ => true
  }

  /** The process owns the item, or has taken it over to recover it. */
  ghost predicate Has(s: State, p: Id, i: nat) {
    p in s.pcs && p in s.held && (i in s.held[p] || (s.pcs[p].Recovering? && s.pcs[p].item == i))
  }

  /** No later process got the pid of one that is alive. */
  ghost predicate Newest(started: seq<Id>, p: Id) {
    exists x :: LastOf(started, p, x)
  }

  ghost predicate LastOf(started: seq<Id>, p: Id, x: int) {
    0 <= x < |started| && started[x] == p && forall y :: x < y < |started| ==> started[y].pid != p.pid
  }

  ghost predicate Ordered(started: seq<Id>) {
    forall x, y :: 0 <= x < y < |started| ==> started[x].btime <= started[y].btime
  }

  /** What holds of the ids. */
  ghost predicate IdsOk(s: State) {
    && (forall p :: p in s.started ==> IsValid(p)) && Ordered(s.started)
    && (forall p :: p in s.live ==> p in s.started && Newest(s.started, p))
  }

  /** Processes and owner words agree. */
  ghost predicate OwnsOk(s: State) {
    && s.pcs.Keys == s.live && s.held.Keys == s.live
    && (forall p, i :: p in s.live && 0 <= i < |s.items| ==> (Has(s, p, i) <==> s.items[i] == p))
    && (forall p, i: nat :: p in s.live && Has(s, p, i) ==> i < |s.items|)
    // what a process holds and what it recovers are different items
    && (forall p :: p in s.live && s.pcs[p].Recovering? ==> s.pcs[p].item !in s.held[p])
  }

  /** What the processes know, and the words themselves. */
  ghost predicate KnowsOk(s: State) {
    && s.live <= s.pcs.Keys
    && (forall i :: 0 <= i < |s.items| ==> Known(s, s.items[i]))
    && (forall p :: p in s.live ==> PcOk(s, p))
  }

  ghost predicate Inv(s: State) { IdsOk(s) && OwnsOk(s) && KnowsOk(s) }

  lemma SameIds(s: State, s': State)
    requires IdsOk(s) && s'.started == s.started && s'.live <= s.live
    ensures IdsOk(s')
  {
  }

  lemma StartIds(s: State, p: Id)
    requires IdsOk(s) && CanStart(s, p)
    ensures IdsOk(After(s, Start(p)))
  {
    var s' := After(s, Start(p));
    assert LastOf(s'.started, p, |s.started|);
    forall q | q in s.live ensures Newest(s'.started, q) {
      var x :| LastOf(s.started, q, x);
      assert LastOf(s'.started, q, x);
    }
  }

  /** The process that begins is not one that a reader has found dead. */
  lemma GoneStays(s: State, p: Id, id: Id, q: Id)
    requires IdsOk(s) && p in s.live && Gone(s, p, id) && CanStart(s, q) && Safe(s.started + [q])
    ensures Gone(After(s, Start(q)), p, id)
  {
    if id !in s.started {
      var a, b :| Torn(s, p, id, a, b);
      if id == q {
        TornId(s, p, a, b, q);
      }
      assert Torn(After(s, Start(q)), p, id, a, b);
    }
  }

  /** An id made of the pid of one process and the tick of another, which is not the reader, is not safe to
      hand out. */
  lemma TornId(s: State, p: Id, a: Id, b: Id, q: Id)
    requires IdsOk(s) && p in s.live && CanStart(s, q)
    requires Torn(s, p, q, a, b)
    ensures !Safe(s.started + [q])
  {
    var all := s.started + [q];
    var j := |s.started|;
    var i :| 0 <= i < j && s.started[i] == a;
    var k :| 0 <= k < j && s.started[k] == b;
    var prev := s.started[j - 1];
    SameTick(s, b, k, q);
    if b != prev {
      assert Reused(all, i, k, j);
    } else {
      var x :| LastOf(s.started, p, x);
      assert Reused(all, i, x, j);
    }
  }

  lemma SameTick(s: State, b: Id, k: nat, q: Id)
    requires IdsOk(s) && CanStart(s, q) && k < |s.started| && s.started[k] == b && b.btime == q.btime
    ensures s.started[|s.started| - 1].btime == q.btime
  {
    assert s.started[|s.started| - 1] in s.started;
  }

  /** What a reader knows of the two halves stays true when further processes begin or die, and when the item
      does not become its own. */
  lemma HalvesStay(s: State, p: Id, s': State)
    requires p in s.pcs && p in s'.pcs && s.pcs[p] == s'.pcs[p] && PcOk(s, p)
    requires s.started <= s'.started && |s'.items| == |s.items|
    requires forall j :: 0 <= j < |s.items| && s'.items[j] == p ==> s.items[j] == p
    ensures s.pcs[p].ReadBtime? || s.pcs[p].CheckAlive? ==> PcOk(s', p)
  {
    match s.pcs[p]
    case ReadBtime(i, r, pid) =>
      var a :| FirstHalf(s, p, i, pid, a);
      assert FirstHalf(s', p, i, pid, a);
    case CheckAlive(i, r, seen) =>
      var a, b :| BothHalves(s, p, seen, a, b);
      assert BothHalves(s', p, seen, a, b);
    case _ =>
  }

  lemma StartPc(s: State, p: Id, q: Id)
    requires IdsOk(s) && KnowsOk(s) && p in s.live && CanStart(s, q) && Safe(s.started + [q])
    ensures PcOk(After(s, Start(q)), p)
  {
    assert PcOk(s, p) && p != q;
    HalvesStay(s, p, After(s, Start(q)));
    if s.pcs[p].Revoke? { GoneStays(s, p, s.pcs[p].seen, q); }
  }

  lemma StartOwns(s: State, p: Id)
    requires Inv(s) && CanStart(s, p)
    ensures OwnsOk(After(s, Start(p)))
  {
    var s' := After(s, Start(p));
    assert p !in s.live;
    forall q, i | q in s.live ensures Has(s', q, i) == Has(s, q, i) {}
    forall i | 0 <= i < |s.items| ensures s.items[i] != p { assert Known(s, s.items[i]); }
  }

  lemma StartKept(s: State, p: Id, s': State)
    requires Inv(s) && Next(s, Start(p), s') && Safe(s'.started)
    ensures Inv(s')
  {
    StartIds(s, p);
    StartOwns(s, p);
    forall q | q in s'.live ensures PcOk(s', q) { if q != p { StartPc(s, q, p); } }
    forall i | 0 <= i < |s.items| ensures Known(s', s'.items[i]) { assert Known(s, s.items[i]); }
  }

  /** What a process knows stays true when others die and when no word becomes its own. */
  lemma PcFrame(s: State, s': State, q: Id)
    requires q in s.pcs && q in s'.pcs && s.pcs[q] == s'.pcs[q] && PcOk(s, q)
    requires s'.started == s.started && s'.live <= s.live && |s'.items| == |s.items|
    requires forall j :: 0 <= j < |s.items| && s'.items[j] == q ==> s.items[j] == q
    ensures PcOk(s', q)
  {
    HalvesStay(s, q, s');
    if s.pcs[q].Revoke? { GoneFrame(s, q, s.pcs[q].seen, s'); }
  }

  lemma GoneFrame(s: State, p: Id, id: Id, s': State)
    requires Gone(s, p, id) && s'.started == s.started && s'.live <= s.live
    ensures Gone(s', p, id)
  {
    if id !in s.started {
      var a, b :| Torn(s, p, id, a, b);
      assert Torn(s', p, id, a, b);
    }
  }

  lemma DieKept(s: State, p: Id, s': State)
    requires Inv(s) && Next(s, Die(p), s')
    ensures Inv(s')
  {
    SameIds(s, s');
    forall q, i {:trigger Has(s', q, i)} | q in s'.live ensures Has(s, q, i) == Has(s', q, i) {}
    forall q | q in s'.live ensures PcOk(s', q) { PcFrame(s, s', q); }
    forall i | 0 <= i < |s.items| ensures Known(s', s'.items[i]) { assert Known(s, s.items[i]); }
  }

  /** A step of `p` that leaves the items alone and neither takes nor drops any. */
  lemma ThinkKept(s: State, p: Id, pc: Pc, s': State)
    requires Inv(s) && p in s.live && !s.pcs[p].Recovering? && !pc.Recovering? && s' == At(s, p, pc) && PcOk(s', p)
    ensures Inv(s')
  {
    SameIds(s, s');
    forall q, i {:trigger Has(s', q, i)} | q in s'.live ensures Has(s, q, i) == Has(s', q, i) {}
    forall q | q in s'.live && q != p ensures PcOk(s', q) { PcFrame(s, s', q); }
    forall i | 0 <= i < |s.items| ensures Known(s', s'.items[i]) { assert Known(s, s.items[i]); }
  }

  /** `p` writes the owner word of an item that is its own or that of a process no longer alive. */
  ghost predicate Writes(s: State, p: Id, i: nat, id: Id, pc: Pc, mine: set<nat>, s': State) {
    && p in s.live && i < |s.items|
    && s' == s.(items := s.items[i := id], pcs := s.pcs[p := pc], held := s.held[p := mine])
    && (s.items[i] == p || s.items[i] !in s.live) && (id == p || id !in s.live)
  }

  lemma WriteOwns(s: State, p: Id, i: nat, id: Id, pc: Pc, mine: set<nat>, s': State)
    requires OwnsOk(s) && Writes(s, p, i, id, pc, mine, s')
    requires forall j: nat :: j != i ==> (Has(s', p, j) <==> Has(s, p, j))
    requires Has(s', p, i) <==> id == p
    requires pc.Recovering? ==> pc.item !in mine
    ensures OwnsOk(s')
  {
    assert s'.pcs.Keys == s.live && s'.held.Keys == s.live;
    forall q, j {:trigger Has(s', q, j)} | q in s'.live && q != p ensures Has(s, q, j) == Has(s', q, j) {}
    forall q, j | q in s'.live && 0 <= j < |s.items| ensures Has(s', q, j) <==> s'.items[j] == q {
      assert Has(s, q, j) <==> s.items[j] == q;
    }
    forall q, j: nat | q in s'.live && Has(s', q, j) ensures j < |s'.items| {
      assert j == i || Has(s, q, j);
    }
  }

  lemma WriteKnows(s: State, p: Id, i: nat, id: Id, pc: Pc, mine: set<nat>, s': State)
    requires KnowsOk(s) && Writes(s, p, i, id, pc, mine, s') && Known(s, id) && PcOk(s', p)
    ensures KnowsOk(s')
  {
    forall q | q in s'.live && q != p ensures PcOk(s', q) { PcFrame(s, s', q); }
    forall j | 0 <= j < |s'.items| ensures Known(s', s'.items[j]) { assert j == i || Known(s, s.items[j]); }
  }

  /** The owner word of one item changes hands. */
  lemma WriteKept(s: State, p: Id, i: nat, id: Id, pc: Pc, mine: set<nat>, s': State)
    requires Inv(s) && Writes(s, p, i, id, pc, mine, s') && Known(s, id) && PcOk(s', p)
    requires forall j: nat :: j != i ==> (Has(s', p, j) <==> Has(s, p, j))
    requires Has(s', p, i) <==> id == p
    requires pc.Recovering? ==> pc.item !in mine
    ensures Inv(s')
  {
    SameIds(s, s');
    WriteOwns(s, p, i, id, pc, mine, s');
    WriteKnows(s, p, i, id, pc, mine, s');
  }

  lemma NobodyIsDead(s: State)
    requires IdsOk(s)
    ensures NOBODY !in s.live && NOBODY !in s.started
  {
    assert !IsValid(NOBODY);
  }

  lemma AcquireKept(s: State, p: Id, i: nat, s': State)
    requires Inv(s) && Next(s, Acquire(p, i), s')
    ensures Inv(s')
  {
    if s.items[i] == NOBODY {
      NobodyIsDead(s);
      WriteKept(s, p, i, p, s.pcs[p], s.held[p] + {i}, s');
    }
  }

  lemma ReleaseKept(s: State, p: Id, i: nat, s': State)
    requires Inv(s) && Next(s, Release(p, i), s')
    ensures Inv(s')
  {
    if s.items[i] == p {
      NobodyIsDead(s);
      WriteKept(s, p, i, NOBODY, s.pcs[p], s.held[p] - {i}, s');
    }
  }

  /** What `p` knows after a step that only reads. */
  lemma ThoughtOk(s: State, p: Id, s': State)
    requires KnowsOk(s) && Next(s, Advance(p), s') && s'.items == s.items
    ensures PcOk(s', p)
  {
    assert PcOk(s, p);
    match s.pcs[p]
    case ReadPid(i, r) => assert FirstHalf(s', p, i, s.items[i].pid, s.items[i]);
    case ReadBtime(i, r, pid) =>
      var a :| FirstHalf(s, p, i, pid, a);
      assert BothHalves(s', p, Id(pid, s.items[i].btime), a, s.items[i]);
    case CheckAlive(i, r, seen) =>
      var a, b :| BothHalves(s, p, seen, a, b);
      if s'.pcs[p].Revoke? {
        SeenIsGone(s, p, seen, a, b);
        GoneFrame(s, p, seen, s');
      }
    case _ =>
  }

  lemma SeenIsGone(s: State, p: Id, seen: Id, a: Id, b: Id)
    requires p in s.live && BothHalves(s, p, seen, a, b) && IsValid(seen) && seen !in s.live
    ensures Gone(s, p, seen)
  {
    assert Torn(s, p, seen, a, b);
  }

  lemma AdvanceKept(s: State, p: Id, s': State)
    requires Inv(s) && Next(s, Advance(p), s')
    ensures Inv(s')
  {
    var pc := s.pcs[p];
    assert PcOk(s, p);
    if pc.Revoke? && s.items[pc.item] == pc.seen {
      NobodyIsDead(s);
      assert Known(s, pc.seen) && !Has(s, p, pc.item);
      WriteKept(s, p, pc.item, if pc.recover then p else NOBODY, s'.pcs[p], s.held[p], s');
    } else {
      ThoughtOk(s, p, s');
      ThinkKept(s, p, s'.pcs[p], s');
    }
  }

  lemma EndRecoveryKept(s: State, p: Id, ok: bool, s': State)
    requires Inv(s) && Next(s, EndRecovery(p, ok), s')
    ensures Inv(s')
  {
    var i := s.pcs[p].item;
    assert PcOk(s, p);
    assert Has(s, p, i);
    NobodyIsDead(s);
    WriteKept(s, p, i, if ok then NOBODY else s.pcs[p].seen, Idle, s.held[p], s');
  }

  lemma InvKept(s: State, step: Step, s': State)
    requires Inv(s) && Next(s, step, s') && Safe(s'.started)
    ensures Inv(s')
  {
    match step
    case Start(p) => StartKept(s, p, s');
    case Die(p) => DieKept(s, p, s');
    case Acquire(p, i) => AcquireKept(s, p, i, s');
    case Release(p, i) => ReleaseKept(s, p, i, s');
    case BeginCheck(p, i, r) => ThinkKept(s, p, ReadPid(i, r), s');
    case Advance(p) => AdvanceKept(s, p, s');
    case EndRecovery(p, ok) => EndRecoveryKept(s, p, ok, s');
  }

  // ---------------------------------------------------------------- runs

  ghost predicate IsRun(states: seq<State>, steps: seq<Step>) {
    && |states| == |steps| + 1
    && Init(states[0])
    && forall t :: 0 <= t < |steps| ==> StepTaken(states, steps, t)
  }

  ghost predicate StepTaken(states: seq<State>, steps: seq<Step>, t: nat)
    requires t < |steps| && t + 1 < |states|
  {
    Next(states[t], steps[t], states[t + 1])
  }

  lemma SafePrefix(some: seq<Id>, all: seq<Id>)
    requires some <= all
    ensures Safe(all) ==> Safe(some)
  {
    if !Safe(some) {
      var i, r, j :| Reused(some, i, r, j);
      assert Reused(all, i, r, j);
    }
  }

  lemma {:induction false} RunInv(states: seq<State>, steps: seq<Step>, t: nat)
    requires IsRun(states, steps) && t < |states| && Safe(states[t].started)
    ensures Inv(states[t])
  {
    if t > 0 {
      assert StepTaken(states, steps, t - 1);
      SafePrefix(states[t - 1].started, states[t].started);
      RunInv(states, steps, t - 1);
      InvKept(states[t - 1], steps[t - 1], states[t]);
    }
  }

  /** In every run with safe ids at most one live process owns an item or recovers it, whoever has died,
      and the owner word says which. */
  lemma OneOwner(states: seq<State>, steps: seq<Step>, t: nat, p: Id, q: Id, i: nat)
    requires IsRun(states, steps) && t < |states| && Safe(states[t].started)
    requires p in states[t].live && q in states[t].live && Has(states[t], p, i) && Has(states[t], q, i)
    ensures p == q && i < |states[t].items| && states[t].items[i] == p
  {
    RunInv(states, steps, t);
  }

  /** A live owner is displaced by nobody but itself. */
  lemma DisplacedOnlyWhenDead(states: seq<State>, steps: seq<Step>, t: nat, i: nat)
    requires IsRun(states, steps) && t < |steps| && Safe(states[t].started) && i < |states[t].items|
    ensures |states[t + 1].items| == |states[t].items|
    ensures states[t + 1].items[i] != states[t].items[i]
            ==> steps[t].p == states[t].items[i] || states[t].items[i] !in states[t].live
  {
    RunInv(states, steps, t);
    assert StepTaken(states, steps, t);
    WriterOwns(states[t], steps[t], states[t + 1], i);
  }

  lemma WriterOwns(s: State, step: Step, s': State, i: nat)
    requires Inv(s) && Next(s, step, s') && i < |s.items|
    ensures |s'.items| == |s.items|
    ensures s'.items[i] != s.items[i] ==> step.p == s.items[i] || s.items[i] !in s.live
  {
    NobodyIsDead(s);
    if step.EndRecovery? {
      assert Has(s, step.p, s.pcs[step.p].item);
    } else if step.Advance? {
      AdvanceWrites(s, step.p, i);
    }
  }

  lemma AdvanceWrites(s: State, p: Id, i: nat)
    requires KnowsOk(s) && Enabled(s, Advance(p)) && i < |s.items|
    ensures var items := Advanced(s, p).items;
            |items| == |s.items| && (items[i] != s.items[i] ==> s.items[i] !in s.live)
  {
    assert PcOk(s, p);
  }

  // ---------------------------------------------------------------- unsafe ids cost a live owner its item

  /** Ids that a system could hand out in this order. */
  ghost predicate Startable(ids: seq<Id>) {
    forall n :: 0 <= n < |ids| ==> FreshAt(ids, n)
  }

  ghost predicate FreshAt(ids: seq<Id>, n: nat)
    requires n < |ids|
  {
    Fresh(ids[..n], ids[n])
  }

  ghost predicate EndsIn(states: seq<State>, steps: seq<Step>, s: State) {
    IsRun(states, steps) && states[|steps|] == s
  }

  ghost predicate Reachable(s: State) {
    exists states, steps :: EndsIn(states, steps, s)
  }

  lemma ReachStep(s: State, step: Step)
    requires Reachable(s) && Enabled(s, step)
    ensures Reachable(After(s, step))
  {
    var states, steps :| EndsIn(states, steps, s);
    var states', steps' := states + [After(s, step)], steps + [step];
    forall t | 0 <= t < |steps'| ensures StepTaken(states', steps', t) {
      if t < |steps| { assert StepTaken(states, steps, t); }
    }
    assert EndsIn(states', steps', After(s, step));
  }

  /** A reachable state in which the processes that are alive differ in pid. */
  ghost predicate Sound(s: State) {
    && Reachable(s) && s.pcs.Keys == s.live && s.held.Keys == s.live
    && (forall p :: p in s.live ==> p in s.started)
    && (forall p, q :: p in s.live && q in s.live && p.pid == q.pid ==> p == q)
  }

  /** The process is alive, in the middle of nothing, and owns nothing. */
  ghost predicate Unoccupied(s: State, p: Id) {
    p in s.live && p in s.pcs && p in s.held && s.pcs[p] == Idle && s.held[p] == {}
  }

  /** The pid of `p` is free: an earlier process that had it has died. */
  lemma FreePid(s: State, pid: nat) returns (s': State)
    requires Sound(s)
    ensures Sound(s') && s'.items == s.items && s'.started == s.started
    ensures forall q :: q in s.live && q.pid != pid ==> Undisturbed(s, s', q)
    ensures forall q :: q in s'.live ==> q.pid != pid && Undisturbed(s, s', q)
  {
    s' := s;
    if q :| q in s.live && q.pid == pid {
      ReachStep(s, Die(q));
      s' := After(s, Die(q));
    }
  }

  /** The state after `p` has begun. */
  lemma Launch(s: State, p: Id) returns (s': State)
    requires Sound(s) && Fresh(s.started, p)
    ensures Sound(s') && s'.items == s.items && s'.started == s.started + [p] && Unoccupied(s', p)
    ensures forall q :: q in s.live && q.pid != p.pid ==> Undisturbed(s, s', q)
    ensures forall q :: q in s'.live && q != p ==> Undisturbed(s, s', q)
  {
    var s0 := FreePid(s, p.pid);
    ReachStep(s0, Start(p));
    s' := After(s0, Start(p));
    forall q | q in s0.live ensures Undisturbed(s, s', q) { assert Undisturbed(s, s0, q); }
    forall q | q in s.live && q.pid != p.pid ensures Undisturbed(s, s', q) { assert Undisturbed(s, s0, q); }
  }

  ghost predicate Undisturbed(s: State, s': State, q: Id) {
    Runs(s, q) && Runs(s', q) && s'.pcs[q] == s.pcs[q] && s'.held[q] == s.held[q]
  }

  /** Nothing has happened yet but that processes began: for every pid one is alive. */
  ghost predicate Settled(s: State) {
    && Sound(s) && s.items == [NOBODY]
    && (forall p :: p in s.live ==> Unoccupied(s, p))
    && (forall p :: p in s.started ==> PidAlive(s, p.pid))
  }

  ghost predicate PidAlive(s: State, pid: nat) { exists p :: p in s.live && p.pid == pid }

  lemma {:induction false} Settle(ids: seq<Id>, n: nat) returns (s: State)
    requires Startable(ids) && n <= |ids|
    ensures Settled(s) && s.started == ids[..n]
  {
    if n == 0 {
      s := State([NOBODY], [], {}, map[], map[]);
      assert EndsIn([s], [], s);
    } else {
      var s0 := Settle(ids, n - 1);
      assert FreshAt(ids, n - 1);
      s := SettleOne(s0, ids[n - 1]);
      assert ids[..n] == ids[..n - 1] + [ids[n - 1]];
    }
  }

  lemma SettleOne(s: State, p: Id) returns (s': State)
    requires Settled(s) && Fresh(s.started, p)
    ensures Settled(s') && s'.started == s.started + [p]
  {
    s' := Launch(s, p);
    assert p in s'.live;
    forall q | q in s'.started ensures PidAlive(s', q.pid) {
      if q.pid != p.pid {
        assert PidAlive(s, q.pid);
        var r :| r in s.live && r.pid == q.pid;
        assert Undisturbed(s, s', r);
      }
    }
    forall q | q in s'.live && q != p ensures Unoccupied(s', q) { assert Undisturbed(s, s', q); }
  }

  /** A reader `r` has read the pid of one owner, which then gave the item up. */
  ghost predicate HalfRead(s: State, a: Id, r: Id) {
    && Sound(s) && s.items == [NOBODY] && Unoccupied(s, a)
    && r in s.live && s.pcs[r] == ReadBtime(0, true, a.pid)
  }

  lemma ReadFirstHalf(s: State, a: Id, r: Id) returns (s': State)
    requires Sound(s) && s.items == [NOBODY] && Unoccupied(s, a) && Unoccupied(s, r) && a != r
    ensures HalfRead(s', a, r) && s'.started == s.started
  {
    ReachStep(s, Acquire(a, 0));
    var s1 := After(s, Acquire(a, 0));
    ReachStep(s1, BeginCheck(r, 0, true));
    var s2 := After(s1, BeginCheck(r, 0, true));
    ReachStep(s2, Advance(r));
    var s3 := After(s2, Advance(r));
    ReachStep(s3, Release(a, 0));
    s' := After(s3, Release(a, 0));
    assert s'.held[a] == {};
  }

  /** The reader then reads the tick of the next owner, which gives the item up as well, and finds nobody
      alive under the two halves. */
  lemma ReadSecondHalf(s: State, pid: nat, b: Id, r: Id) returns (s': State)
    requires Sound(s) && s.items == [NOBODY] && Unoccupied(s, b) && b != r
    requires r in s.live && s.pcs[r] == ReadBtime(0, true, pid)
    requires IsValid(Id(pid, b.btime)) && Id(pid, b.btime) !in s.started
    ensures Sound(s') && s'.items == [NOBODY] && s'.started == s.started
    ensures r in s'.live && s'.pcs[r] == Revoke(0, true, Id(pid, b.btime))
  {
    ReachStep(s, Acquire(b, 0));
    var s1 := After(s, Acquire(b, 0));
    ReachStep(s1, Advance(r));
    var s2 := After(s1, Advance(r));
    ReachStep(s2, Advance(r));
    var s3 := After(s2, Advance(r));
    ReachStep(s3, Release(b, 0));
    s' := After(s3, Release(b, 0));
  }

  /** A process begins under these two halves, acquires the item, and the reader takes it away. */
  lemma TakeFromLive(s: State, c: Id, r: Id) returns (s': State)
    requires Sound(s) && s.items == [NOBODY] && Unoccupied(s, c) && c != r
    requires r in s.live && s.pcs[r] == Revoke(0, true, c)
    ensures Sound(s') && s'.started == s.started
    ensures c in s'.live && r in s'.live && Has(s', c, 0) && Has(s', r, 0)
  {
    ReachStep(s, Acquire(c, 0));
    var s1 := After(s, Acquire(c, 0));
    ReachStep(s1, Advance(r));
    s' := After(s1, Advance(r));
  }

  /** Where the ids are not safe, two live processes can have the same item. */
  lemma UnsafeFails(ids: seq<Id>, i: nat, x: nat, j: nat) returns (s: State, c: Id, r: Id)
    requires Startable(ids) && Reused(ids, i, x, j)
    ensures Reachable(s) && s.started == ids[..j + 1]
    ensures c in s.live && r in s.live && c != r && Has(s, c, 0) && Has(s, r, 0)
  {
    c := ids[j];
    NotLast(ids, i, x, j);
    var s0, a;
    s0, a, r := Gather(ids, j - 1, i, x);
    s := Displace(s0, a, ids[j - 1], c, r);
  }

  /** `a` owns the item, then `b`, then `c`, which has the pid of the one and the tick of the other. */
  lemma Displace(s: State, a: Id, b: Id, c: Id, r: Id) returns (s': State)
    requires Sound(s) && s.items == [NOBODY] && Unoccupied(s, a) && Unoccupied(s, r)
    requires Fresh(s.started, b) && Fresh(s.started + [b], c)
    requires c == Id(a.pid, b.btime) && r.pid != a.pid && r.pid != b.pid
    ensures Reachable(s') && s'.started == s.started + [b] + [c]
    ensures c in s'.live && r in s'.live && Has(s', c, 0) && Has(s', r, 0)
  {
    var s1 := ReadFirstHalf(s, a, r);
    var s2 := Launch(s1, b);
    assert Undisturbed(s1, s2, r);
    var s3 := ReadSecondHalf(s2, a.pid, b, r);
    var s4 := Launch(s3, c);
    assert Undisturbed(s3, s4, r);
    s' := TakeFromLive(s4, c, r);
  }

  lemma NotLast(ids: seq<Id>, i: nat, x: nat, j: nat)
    requires Startable(ids) && Reused(ids, i, x, j)
    ensures i < j - 1 && x < j - 1
    ensures Fresh(ids[..j - 1], ids[j - 1]) && Fresh(ids[..j - 1] + [ids[j - 1]], ids[j])
    ensures ids[..j - 1] + [ids[j - 1]] + [ids[j]] == ids[..j + 1]
  {
    assert FreshAt(ids, j - 1) && FreshAt(ids, j);
    assert ids[..j] == ids[..j - 1] + [ids[j - 1]];
    assert ids[j] != ids[j - 1];
    assert ids[..j + 1] == ids[..j] + [ids[j]];
  }

  /** The process whose pid will come round again, and the reader. */
  lemma Gather(ids: seq<Id>, n: nat, i: nat, x: nat) returns (s: State, a: Id, r: Id)
    requires Startable(ids) && n <= |ids| && i < n && x < n
    ensures Sound(s) && s.items == [NOBODY] && s.started == ids[..n]
    ensures a.pid == ids[i].pid && Unoccupied(s, a) && r.pid == ids[x].pid && Unoccupied(s, r)
  {
    s := Settle(ids, n);
    assert s.started[i] == ids[i] && s.started[x] == ids[x];
    a :| a in s.live && a.pid == ids[i].pid;
    r :| r in s.live && r.pid == ids[x].pid;
  }

  /** No two live processes have the same item. */
  ghost predicate OwnersKept(s: State) {
    forall p, q, i: nat :: p in s.live && q in s.live && Has(s, p, i) && Has(s, q, i) ==> p == q
  }

  lemma SafeKeeps(ids: seq<Id>, s: State)
    requires Safe(ids) && Reachable(s) && s.started <= ids
    ensures OwnersKept(s)
  {
    var states, steps :| EndsIn(states, steps, s);
    SafePrefix(s.started, ids);
    RunInv(states, steps, |steps|);
  }

  /** The ids are safe exactly when no run in which processes begin under them, in this order, lets two live
      processes have the same item. */
  lemma OwnersKeptIff(ids: seq<Id>)
    requires Startable(ids)
    ensures Safe(ids) <==> forall s :: Reachable(s) && s.started <= ids ==> OwnersKept(s)
  {
    if Safe(ids) {
      forall s | Reachable(s) && s.started <= ids ensures OwnersKept(s) { SafeKeeps(ids, s); }
    } else {
      var i, r, j :| Reused(ids, i, r, j);
      var s, c, q := UnsafeFails(ids, i, r, j);
      assert s.started <= ids && !OwnersKept(s);
    }
  }

  /** Four processes suffice, the last two of them begun in the same tick. */
  lemma SharedTickFails()
    ensures exists s, p, q :: Reachable(s) && s.started == [Id(1, 1), Id(7, 2), Id(2, 3), Id(1, 3)]
              && p in s.live && q in s.live && p != q && Has(s, p, 0) && Has(s, q, 0)
  {
    var ids := [Id(1, 1), Id(7, 2), Id(2, 3), Id(1, 3)];
    assert Reused(ids, 0, 1, 3) && FreshAt(ids, 0) && FreshAt(ids, 1) && FreshAt(ids, 2) && FreshAt(ids, 3);
    var s, p, q := UnsafeFails(ids, 0, 1, 3);
    assert s.started == ids;
  }
}
