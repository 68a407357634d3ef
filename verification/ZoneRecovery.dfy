/** Crash, then recovery: whatever state a run of `ZoneProtocol` is cut off in, its tables are what the
    offline collector of `ZoneHeap` asks for, and collecting them gives back every block that no client
    holds. */
module ZoneRecovery {
  import opened Dyadic
  import opened Tiling
  import opened ZoneView
  import opened ZoneCollector
  import opened ZoneTables
  import H = ZoneHeap
  import P = ZoneProtocol

  /** What the entry table and the free lists say, once every process is gone. */
  ghost function TablesOf(s: P.Zone): View
    requires |s.free| == s.top + 1
  {
    View(s.top, s.alloc, seq(s.top + 1, l requires 0 <= l <= s.top => set u | u in s.free[l]))
  }

  /** The place a block of the tables had in the concurrent zone. */
  function PlaceOf(h: Holding<Side>): Holding<P.Place> {
    match h.place
    case Free(l) => Holding(P.FreeList(l), h.block)
    case _ => Holding(P.Client, h.block)
  }

  lemma InTables(s: P.Zone, h: Holding<Side>)
    requires |s.free| == s.top + 1 && h in Family(TablesOf(s))
    ensures P.Holds(s, PlaceOf(h)) && (h.place.Used? || h.place.Free?)
  {}

  lemma TablesArePacked(s: P.Zone)
    requires P.Inv(s)
    ensures Packed(TablesOf(s))
  {
    var v := TablesOf(s);
    forall h | h in Family(v) ensures h.block.Aligned() && h.block.level <= v.top && h.block.unit < Pow2(v.top) {
      InTables(s, h);
      assert PlaceOf(h) in P.Held(s);
    }
    forall h, g | h in Family(v) && g in Family(v) && h != g ensures h.block.Disjoint(g.block) {
      InTables(s, h);
      InTables(s, g);
      assert PlaceOf(h) in P.Held(s) && PlaceOf(g) in P.Held(s);
    }
  }

  /** Any run, cut off anywhere, leaves tables the collector can start from. */
  lemma RunLeavesPackedTables(states: seq<P.Zone>, steps: seq<P.Step>, t: nat)
    requires P.IsRun(states, steps) && t < |states|
    ensures |states[t].free| == states[t].top + 1 && Packed(TablesOf(states[t]))
  {
    P.RunInv(states, steps, t);
    TablesArePacked(states[t]);
  }

  lemma ClientUnit(s: P.Zone, x: nat)
    requires P.Inv(s)
    ensures UsedUnit(TablesOf(s), x) <==>
              exists h: Holding<P.Place> :: P.Holds(s, h) && h.place == P.Client && h.block.Covers(x)
  {
    if u :| u in s.alloc && Block(u, s.alloc[u]).Covers(x) {
      assert P.Holds(s, Holding(P.Client, Block(u, s.alloc[u])));
    }
    if h: Holding<P.Place> :| P.Holds(s, h) && h.place == P.Client && h.block.Covers(x) {
      assert h.block.unit in TablesOf(s).used && TablesOf(s).used[h.block.unit] == h.block.level;
    }
  }

  /** After a collection the zone is tiled again by the blocks clients held at the crash, unchanged, and
      free blocks: a unit is free exactly when some place other than a client held it.  What a crash of the
      merge, or of a process inside `alloc` or `free`, has lost is found again; what a dead client held is
      not. */
  lemma CollectionRestoresZone(states: seq<P.Zone>, steps: seq<P.Step>, t: nat, w: View, x: nat)
    requires P.IsRun(states, steps) && t < |states| && |states[t].free| == states[t].top + 1
    requires Tiled(w) && OnlyAdds(TablesOf(states[t]), w) && x < Pow2(w.top)
    ensures w.used == states[t].alloc
    ensures FreeUnit(w, x) <==>
              exists h: Holding<P.Place> :: P.Holds(states[t], h) && h.place != P.Client && h.block.Covers(x)
  {
    var s := states[t];
    P.RunInv(states, steps, t);
    ClientUnit(s, x);
    TilesExactlyOnce(P.Held(s), s.top, x);
    var h :| h in P.Held(s) && h.block.Covers(x);
    assert P.Holds(s, h);
    CoveredMeans(w, x);
    FreeIsNotUsed(w, x);
    assert UsedUnit(w, x) == UsedUnit(TablesOf(s), x);
    assert forall g: Holding<P.Place> :: P.Holds(s, g) && g.block.Covers(x) ==> g in P.Held(s);
  }

  // ---------------------------------------------------------------- the collector's run

  /** `ZoneTables` writes lists bottom first. */
  function Reversed(list: seq<nat>): seq<nat> {
    if list == [] then [] else Reversed(list[1..]) + [list[0]]
  }

  lemma {:induction false} ReversedMembers(list: seq<nat>)
    ensures Members(Reversed(list)) == set u | u in list
  {
    if list != [] {
      ReversedMembers(list[1..]);
      assert list == [list[0]] + list[1..];
      assert Members(Reversed(list)) == Members(Reversed(list[1..])) + {list[0]};
    }
  }

  /** The tables and the merge header are those of the run.  Blocks on the delayed-free lists are blocks
      some client holds. */
  ghost predicate Depicts(z: H.Zone, s: P.Zone)
    reads z, z.entries, z.heads
  {
    && z.Rep() && z.top == s.top && |s.free| == s.top + 1
    && z.mergeInProgress == s.merge.locked && z.mergeStatus == s.merge.status
    && z.mergeLevel == s.merge.level && z.safeCopy == s.merge.safeCopy
    && UsedMap(z.entries[..]) == s.alloc
    && (forall l :: 0 <= l <= s.top ==> z.lists[l] == Reversed(s.free[l]))
    && z.lists[s.top + 1] == Reversed(s.merge.sameList) && z.lists[s.top + 2] == Reversed(s.merge.nextList)
    && (forall j, u :: s.top + 3 <= j < |z.lists| && u in z.lists[j] ==> u in s.alloc)
  }

  lemma DepictedTables(z: H.Zone, s: P.Zone)
    requires Depicts(z, s)
    ensures z.View() == TablesOf(s)
  {
    forall l | 0 <= l <= s.top ensures Members(z.lists[l]) == TablesOf(s).free[l] {
      ReversedMembers(s.free[l]);
    }
    assert z.View().free == TablesOf(s).free;
  }

  /** Wherever a run stops with the merge lock free, whatever level and safe copy an abandoned merge has
      left in the header, the collector can be called. */
  lemma CollectorCanRun(states: seq<P.Zone>, steps: seq<P.Step>, t: nat, z: H.Zone)
    requires P.IsRun(states, steps) && t < |states|
    requires !states[t].merge.locked && Depicts(z, states[t])
    ensures z.Valid() && z.Idle() && z.View() == TablesOf(states[t])
  {
    var s := states[t];
    P.RunInv(states, steps, t);
    TablesArePacked(s);
    DepictedTables(z, s);
    assert s.merge.status == P.NoMerge;
  }

  /** Crash, recovery, collection: the zone is tiled again, every client keeps its blocks, and a unit is
      free exactly when no client held it. */
  method CollectAfterRun(z: H.Zone, ghost states: seq<P.Zone>, ghost steps: seq<P.Step>, ghost t: nat)
    requires P.IsRun(states, steps) && t < |states|
    requires !states[t].merge.locked && Depicts(z, states[t])
    modifies z`lists, z`home, z.entries, z.heads, z.bytes
    ensures z.Valid() && Tiled(z.View()) && z.View().used == states[t].alloc && z.Delayed() == old(z.Delayed())
    ensures forall x: nat :: x < Pow2(z.top) ==> (FreeUnit(z.View(), x) <==> !HeldByClient(states[t], x))
  {
    CollectorCanRun(states, steps, t, z);
    z.CollectGarbage();
    forall x: nat | x < Pow2(z.top) ensures FreeUnit(z.View(), x) <==> !HeldByClient(states[t], x) {
      CollectionRestoresZone(states, steps, t, z.View(), x);
      OneHolder(states, steps, t, x);
    }
  }

  ghost predicate HeldByClient(s: P.Zone, x: nat) {
    exists h: Holding<P.Place> :: P.Holds(s, h) && h.place == P.Client && h.block.Covers(x)
  }

  ghost predicate HeldElsewhere(s: P.Zone, x: nat) {
    exists h: Holding<P.Place> :: P.Holds(s, h) && h.place != P.Client && h.block.Covers(x)
  }

  lemma OneHolder(states: seq<P.Zone>, steps: seq<P.Step>, t: nat, x: nat)
    requires P.IsRun(states, steps) && t < |states| && x < Pow2(states[t].top)
    ensures HeldElsewhere(states[t], x) <==> !HeldByClient(states[t], x)
  {
    P.EveryUnitInOnePlace(states, steps, t, x);
  }

  /** A block whose worker died between the pop from a delayed-free list and the free is out of the
      collector's reach: it is on no list and still allocated, like a block in use, and stays so. */
  method CollectAfterWorkerDeath(z: H.Zone, d: nat) returns (unit: nat)
    requires z.Valid() && d < H.DELAYED && z.Delayed()[d] != []
    modifies z`lists, z`home, z.entries, z.heads, z.bytes
    ensures z.Valid() && Tiled(z.View()) && z.View().used == old(z.View()).used
    ensures old(z.Delayed())[d] == z.Delayed()[d] + [unit] && z.Delayed() == old(z.Delayed())[d := z.Delayed()[d]]
    ensures Unlisted(z.Delayed(), unit) && unit in z.View().used && !FreeUnit(z.View(), unit)
  {
    unit := z.Unpark(d);
    z.CollectGarbage();
    UsedIsNotFree(z.View(), unit);
  }

  lemma UsedIsNotFree(v: View, u: nat)
    requires Packed(v) && u in v.used
    ensures !FreeUnit(v, u)
  {
    assert Holding(Used, Block(u, v.used[u])) in Family(v) && Block(u, v.used[u]).Covers(u);
    FreeIsNotUsed(v, u);
    assert UsedUnit(v, u);
  }

  // ---------------------------------------------------------------- recovery comes to an end

  /** The run goes on with nothing but the death of the merging process, recovery and the merge it resumes;
      no client loses or gains a block. */
  ghost predicate RecoversInto(states: seq<P.Zone>, steps: seq<P.Step>, states': seq<P.Zone>, steps': seq<P.Step>)
    requires P.IsRun(states, steps)
  {
    && P.IsRun(states', steps') && states <= states' && steps <= steps'
    && (forall t :: |steps| <= t < |steps'| ==> OfMerger(steps'[t]))
    && states'[|steps'|].alloc == states[|steps|].alloc && states'[|steps'|].top == states[|steps|].top
  }

  predicate OfMerger(step: P.Step) { step.MergerCrash? || step.Recover? || step.MergeStep? }

  lemma Extend(states: seq<P.Zone>, steps: seq<P.Step>, step: P.Step, s': P.Zone)
    requires P.IsRun(states, steps) && OfMerger(step)
    requires var s := states[|steps|];
             |s.free| == s.top + 1 && P.Next(s, step, s') && s'.alloc == s.alloc && s'.top == s.top
    ensures RecoversInto(states, steps, states + [s'], steps + [step])
  {
    var states', steps' := states + [s'], steps + [step];
    forall t | 0 <= t < |steps'| ensures P.StepTaken(states', steps', t) {
      if t < |steps| { assert P.StepTaken(states, steps, t); }
    }
  }

  /** How far the merging process is from leaving: the phase, and the work left in it. */
  function Phase(m: P.Merger): nat {
    match m
    case Entered(_) => 13
    case LevelSet(_) => 12
    case HeadRead(_, _) => 11
    case CopySaved(_, _) => 10
    case Swapped(_) => 9
    case StatusSwapped(_) => 8
    case Building(_, _) => 7
    case BitmapBuilt(_) => 6
    case Scanning(_, _) => 5
    case Draining(_, _) => 4
    case CopyCleared(_) => 3
    case LevelReset => 2
    case Leaving => 1
    case Absent => 0
  }

  function WorkLeft(m: P.MergeState, top: nat): int {
    match m.merger
    case Building(_, n) => |m.chain| - n
    case Scanning(l, k) => if l < top then Pow2(top - l - 1) - k else 0
    case Draining(_, hand) => 2 * (|m.nextList| + |m.sameList|) + if hand.Nothing? then 0 else 1
    case _ => 0
  }

  /** The head that was read is still the head: nobody else is at work. */
  predicate HeadIsFresh(s: P.Zone)
    requires |s.free| == s.top + 1
  {
    match s.merge.merger
    case HeadRead(_, h) => h == P.Head(P.MergerList(s))
    case CopySaved(_, h) => h == P.Head(P.MergerList(s))
    case _ => true
  }

  predicate Closer(m: P.MergeState, m': P.MergeState, top: nat) {
    || Phase(m'.merger) < Phase(m.merger)
    || (Phase(m'.merger) == Phase(m.merger) && 0 <= WorkLeft(m', top) < WorkLeft(m, top))
  }

  lemma StepProgresses(m: P.MergeState, top: nat, list: seq<nat>)
    requires P.MergerOk(m, top) && P.CanAdvance(m, top)
    requires m.merger.CopySaved? ==> m.merger.head == P.Head(list)
    ensures var m' := P.NextMerge(m, top, list); Closer(m, m', top) && (m'.merger.Absent? ==> !m'.locked)
  {
  }

  lemma HeadStaysFresh(s: P.Zone)
    requires P.Inv(s) && P.CanAdvance(s.merge, s.top) && HeadIsFresh(s)
    ensures |P.MergeNext(s).free| == s.top + 1 && HeadIsFresh(P.MergeNext(s))
  {
  }

  lemma {:induction false} MergeFinishes(states: seq<P.Zone>, steps: seq<P.Step>)
    returns (states': seq<P.Zone>, steps': seq<P.Step>)
    requires P.IsRun(states, steps)
    requires var s := states[|steps|]; s.merge.merger != P.Absent && |s.free| == s.top + 1 && HeadIsFresh(s)
    ensures RecoversInto(states, steps, states', steps') && !states'[|steps'|].merge.locked
    decreases Phase(states[|steps|].merge.merger), WorkLeft(states[|steps|].merge, states[|steps|].top)
  {
    var s := states[|steps|];
    P.RunInv(states, steps, |steps|);
    StepProgresses(s.merge, s.top, P.MergerList(s));
    HeadStaysFresh(s);
    var s' := P.MergeNext(s);
    Extend(states, steps, P.MergeStep, s');
    states', steps' := states + [s'], steps + [P.MergeStep];
    if s'.merge.merger != P.Absent { states', steps' := MergeFinishes(states', steps'); }
  }

  lemma SameClients(s: P.Zone, s': P.Zone, x: nat)
    requires s'.alloc == s.alloc
    ensures HeldByClient(s', x) <==> HeldByClient(s, x)
  {
    if h: Holding<P.Place> :| P.Holds(s, h) && h.place == P.Client && h.block.Covers(x) { assert P.Holds(s', h); }
    if h: Holding<P.Place> :| P.Holds(s', h) && h.place == P.Client && h.block.Covers(x) { assert P.Holds(s, h); }
  }

  /** Whatever state a run is cut off in, the merging process included, recovery frees the merge lock in
      finitely many steps and leaves every client its blocks: the state `CollectAfterRun` starts from. */
  lemma RecoveryFinishes(states: seq<P.Zone>, steps: seq<P.Step>)
    returns (states': seq<P.Zone>, steps': seq<P.Step>)
    requires P.IsRun(states, steps)
    ensures RecoversInto(states, steps, states', steps') && !states'[|steps'|].merge.locked
    ensures forall x: nat :: HeldByClient(states'[|steps'|], x) <==> HeldByClient(states[|steps|], x)
  {
    states', steps' := states, steps;
    P.RunInv(states, steps, |steps|);
    if states[|steps|].merge.merger != P.Absent {
      var s := states[|steps|];
      var s' := P.WithMerge(s, s.merge.(merger := P.Absent)).(lost := s.lost + P.MergerTransit(s.merge.merger));
      Extend(states, steps, P.MergerCrash, s');
      states', steps' := states + [s'], steps + [P.MergerCrash];
    }
    if states'[|steps'|].merge.locked {
      states', steps' := ResumeFinishes(states', steps');
    }
    forall x: nat ensures HeldByClient(states'[|steps'|], x) <==> HeldByClient(states[|steps|], x) {
      SameClients(states[|steps|], states'[|steps'|], x);
    }
  }

  lemma ResumeFinishes(states: seq<P.Zone>, steps: seq<P.Step>) returns (states': seq<P.Zone>, steps': seq<P.Step>)
    requires P.IsRun(states, steps)
    requires var m := states[|steps|].merge; m.locked && m.merger == P.Absent
    ensures RecoversInto(states, steps, states', steps') && !states'[|steps'|].merge.locked
  {
    var s := states[|steps|];
    P.RunInv(states, steps, |steps|);
    var s' := Recovered(s);
    Extend(states, steps, P.Recover, s');
    states', steps' := MergeFinishes(states + [s'], steps + [P.Recover]);
  }

  ghost function Recovered(s: P.Zone): P.Zone {
    var m := s.merge;
    if m.status == P.NoMerge && m.level >= 0 && m.safeCopy != 0 then
      P.WithMerge(s, m.(merger := P.Leaving, chain := [])).(lost := s.lost + P.ChainBlocks(m))
    else
      P.WithMerge(s, m.(merger := P.Resume(m)))
  }
}
