/** The zone under concurrency and crashes: clients, one merger, and deaths between any two steps. */
module ZoneProtocol {
  import opened Dyadic
  import opened Tiling

  // Any number of processes allocate and free while one merges, and any of them may die between two
  // persistent steps.  Pushes and pops are atomic here; `LockFreeStack` justifies that.  The header fields
  // that survive a crash (`locked` .. `sameList`) are kept apart from the program counters that do not
  // (`procs`, `merger`).  `chain` and `lost` are history: the entries a merge has swapped out of their
  // free list, and the blocks whose only holder has died.

  datatype MergeStatus = NoMerge | SwapCompleted | BitmapCompleted | FreelistCompleted

  /** What a client process is in the middle of. */
  datatype Task =
    | Ready
    | Seeking(want: nat, level: nat)                 // alloc, about to pop the list of `level`
    | Splitting(unit: nat, level: nat, want: nat)    // alloc, holding a popped block
    | Freeing(unit: nat, level: nat)                 // free, level read, bit still set
    | Returning(unit: nat, level: nat)               // free, bit cleared, not yet pushed

  datatype InHand = Nothing | FromNext(unit: nat) | FromSame(unit: nat)

  /** The merging process, between two persistent steps of `merge(level)`. */
  datatype Merger =
    | Absent
    | Entered(level: nat)
    | LevelSet(level: nat)
    | HeadRead(level: nat, head: nat)
    | CopySaved(level: nat, head: nat)
    | Swapped(level: nat)
    | StatusSwapped(level: nat)
    | Building(level: nat, marked: nat)              // chain entries already in the bitmap
    | BitmapBuilt(level: nat)
    | Scanning(level: nat, pair: nat)                // buddy pairs already distributed
    | Draining(level: nat, hand: InHand)
    | CopyCleared(level: nat)
    | LevelReset
    | Leaving

  /** The merge fields of the zone header, then the program counter of the process that is merging. */
  datatype MergeState = MergeState(
    locked: bool, status: MergeStatus, level: int, safeCopy: nat, bitmap: set<nat>,
    nextList: seq<nat>, sameList: seq<nat>,
    merger: Merger,
    chain: seq<nat>)

  datatype Zone = Zone(
    top: nat,
    alloc: map<nat, nat>,          // units whose entry has the allocation bit, with the entry's level
    free: seq<seq<nat>>,
    merge: MergeState,
    procs: map<nat, Task>,
    lost: iset<Block>)

  datatype Place =
    | Client | FreeList(level: nat) | Hand(p: nat) | Chain | Bitmap | NextList | SameList | MergerHand | Lost

  datatype Step =
    | Spawn(p: nat) | Crash(p: nat)
    | AllocStart(p: nat, want: nat) | PopLevel(p: nat) | GiveUp(p: nat) | Split(p: nat) | SetBit(p: nat)
    | FreeStart(p: nat, unit: nat) | ClearBit(p: nat) | PushBack(p: nat)
    | Enter(level: nat) | MergeStep | MergerCrash | Recover

  /** A list head: 0 for an empty list, else the index of the first entry, shifted by one. */
  function Head(list: seq<nat>): nat { if list == [] then 0 else list[0] + 1 }

  function Twin(k: nat): nat { if k % 2 == 0 then k + 1 else k - 1 }

  ghost predicate Holds(s: Zone, h: Holding<Place>) {
    var u, l := h.block.unit, h.block.level;
    match h.place
    case Client => u in s.alloc && s.alloc[u] == l
    case FreeList(k) => k == l < |s.free| && u in s.free[l]
    case Hand(p) =>
      p in s.procs && match s.procs[p] {
        case Splitting(v, m, _) => h.block == Block(v, m)
        case Returning(v, m) => h.block == Block(v, m)
        case _ => false
      }
    case Lost => h.block in s.lost
    case _ => MergeHolds(s.merge, h)
  }

  ghost predicate MergeHolds(m: MergeState, h: Holding<Place>) {
    var u, l := h.block.unit, h.block.level;
    match h.place
    case Chain => l == m.level && u in m.chain
    case Bitmap => m.status == BitmapCompleted && l == m.level && h.block.Aligned() && Shr(u, l) in m.bitmap
    case NextList => m.status == FreelistCompleted && l == m.level + 1 && u in m.nextList
    case SameList => m.status == FreelistCompleted && l == m.level && u in m.sameList
    case MergerHand =>
      m.merger.Draining? && match m.merger.hand {
        case Nothing => false
        case FromNext(v) => h.block == Block(v, m.merger.level + 1)
        case FromSame(v) => h.block == Block(v, m.merger.level)
      }
    case _ => false
  }

  /** Every block of the zone with the place that holds it. */
  ghost function Held(s: Zone): iset<Holding<Place>> { iset h: Holding<Place> | Holds(s, h) }

  ghost predicate Init(s: Zone) {
    && s.alloc == map[0 := 0]
    && s.free == seq(s.top + 1, l => if 0 <= l < s.top then [Pow2(l)] else [])
    && s.merge == MergeState(false, NoMerge, -1, 0, {}, [], [], Absent, [])
    && s.procs == map[] && s.lost == iset{}
  }

  // ---------------------------------------------------------------- steps

  predicate Runs(s: Zone, p: nat) { p in s.procs }

  function With(s: Zone, p: nat, t: Task): Zone { s.(procs := s.procs[p := t]) }

  function Push(s: Zone, l: nat, u: nat): Zone
    requires l < |s.free|
  {
    s.(free := s.free[l := [u] + s.free[l]])
  }

  function Pop(s: Zone, l: nat): Zone
    requires l < |s.free| && s.free[l] != []
  {
    s.(free := s.free[l := s.free[l][1..]])
  }

  /** No other process is freeing `u`: clients free a block they hold, once. */
  predicate NotBeingFreed(s: Zone, u: nat) {
    forall q :: q in s.procs ==> !(s.procs[q].Freeing? && s.procs[q].unit == u)
  }

  ghost predicate ClientStep(s: Zone, step: Step, s': Zone)
    requires |s.free| == s.top + 1
  {
    match step
    case Spawn(p) => p !in s.procs && s' == With(s, p, Ready)
    case Crash(p) =>
      p in s.procs
      && s' == s.(procs := s.procs - {p}, lost := s.lost + InTransit(s.procs[p]))
    case AllocStart(p, want) => p in s.procs && s.procs[p].Ready? && s' == With(s, p, Seeking(want, want))
    case PopLevel(p) =>
      && p in s.procs && s.procs[p].Seeking?
      && var l := s.procs[p].level;
      && l <= s.top
      && s' == if s.free[l] == [] then With(s, p, Seeking(s.procs[p].want, l + 1))
               else With(Pop(s, l), p, Splitting(s.free[l][0], l, s.procs[p].want))
    case GiveUp(p) =>
      p in s.procs && s.procs[p].Seeking? && s.procs[p].level > s.top && s' == With(s, p, Ready)
    case Split(p) =>
      && p in s.procs && s.procs[p].Splitting?
      && var Splitting(u, l, w) := s.procs[p];
      && w < l <= s.top
      && s' == With(Push(s, l - 1, u + Pow2(l - 1)), p, Splitting(u, l - 1, w))
    case SetBit(p) =>
      && p in s.procs && s.procs[p].Splitting? && s.procs[p].level == s.procs[p].want
      && s' == With(s, p, Ready).(alloc := s.alloc[s.procs[p].unit := s.procs[p].want])
    case FreeStart(p, u) =>
      // free(0) is a no-op
      && p in s.procs && s.procs[p].Ready? && u != 0
      && u in s.alloc && NotBeingFreed(s, u)
      && s' == With(s, p, Freeing(u, s.alloc[u]))
    case ClearBit(p) =>
      && p in s.procs && s.procs[p].Freeing?
      && s' == With(s, p, Returning(s.procs[p].unit, s.procs[p].level)).(alloc := s.alloc - {s.procs[p].unit})
    case PushBack(p) =>
      && p in s.procs && s.procs[p].Returning? && s.procs[p].level <= s.top
      && s' == With(Push(s, s.procs[p].level, s.procs[p].unit), p, Ready)
    case _ => false
  }

  /** The block a dying client takes with it. */
  function InTransit(t: Task): iset<Block> {
    match t
    case Splitting(u, l, _) => iset{Block(u, l)}
    case Returning(u, l) => iset{Block(u, l)}
    case _ => iset{}
  }

  function MergerTransit(m: Merger): iset<Block> {
    if !m.Draining? then iset{} else
    match m.hand
    case Nothing => iset{}
    case FromNext(u) => iset{Block(u, m.level + 1)}
    case FromSame(u) => iset{Block(u, m.level)}
  }

  function WithMerge(s: Zone, m: MergeState): Zone { s.(merge := m) }

  predicate HasLevel(m: Merger) { m != Absent && m != LevelReset && m != Leaving }

  /** The free list of the level being merged. */
  function MergerList(s: Zone): seq<nat>
    requires |s.free| == s.top + 1
  {
    var m := s.merge.merger;
    if HasLevel(m) && m.level <= s.top then s.free[m.level] else []
  }

  /** The merging process is at a step it can take: a merge stays below the top level. */
  predicate CanAdvance(m: MergeState, top: nat) { m.merger != Absent && (HasLevel(m.merger) ==> m.merger.level < top) }

  /** What the next persistent step of the merging process does to the header and to its own state. */
  function NextMerge(m: MergeState, top: nat, list: seq<nat>): MergeState
    requires CanAdvance(m, top)
  {
    match m.merger
    case Entered(l) => m.(level := l, merger := LevelSet(l))
    case LevelSet(l) => m.(merger := HeadRead(l, Head(list)))
    case HeadRead(l, h) => m.(safeCopy := h, merger := CopySaved(l, h))
    case CopySaved(l, h) =>
      // CAS on the head word alone
      if Head(list) == h then m.(chain := list, merger := Swapped(l)) else m.(merger := HeadRead(l, Head(list)))
    case Swapped(l) => m.(status := SwapCompleted, merger := StatusSwapped(l))
    case StatusSwapped(l) => m.(bitmap := {}, merger := Building(l, 0))
    case Building(l, n) =>
      if n < |m.chain| then m.(bitmap := m.bitmap + {Shr(m.chain[n], l)}, merger := Building(l, n + 1))
      else m.(status := BitmapCompleted, chain := [], merger := BitmapBuilt(l))
    case BitmapBuilt(l) => m.(nextList := [], sameList := [], merger := Scanning(l, 0))
    case Scanning(l, k) =>
      if k < Pow2(top - l - 1) then Distribute(m, l, k).(merger := Scanning(l, k + 1))
      else m.(status := FreelistCompleted, merger := Draining(l, Nothing))
    case Draining(l, Nothing) =>
      if m.nextList != [] then m.(nextList := m.nextList[1..], merger := Draining(l, FromNext(m.nextList[0])))
      else if m.sameList != [] then m.(sameList := m.sameList[1..], merger := Draining(l, FromSame(m.sameList[0])))
      else m.(safeCopy := 0, bitmap := {}, merger := CopyCleared(l))
    case Draining(l, _) => m.(merger := Draining(l, Nothing))
    case CopyCleared(_) => m.(level := -1, merger := LevelReset)
    case LevelReset => m.(status := NoMerge, merger := Leaving)
    case Leaving => m.(locked := false, merger := Absent)
  }

  /** And what it does to the free lists. */
  function NextFree(s: Zone): seq<seq<nat>>
    requires |s.free| == s.top + 1 && CanAdvance(s.merge, s.top)
  {
    match s.merge.merger
    case CopySaved(l, h) => if Head(s.free[l]) == h then s.free[l := []] else s.free
    case Draining(l, FromNext(u)) => s.free[l + 1 := [u] + s.free[l + 1]]
    case Draining(l, FromSame(u)) => s.free[l := [u] + s.free[l]]
    case _ => s.free
  }

  /** The next persistent step of the process that is merging. */
  function MergeNext(s: Zone): Zone
    requires |s.free| == s.top + 1 && CanAdvance(s.merge, s.top)
  {
    s.(merge := NextMerge(s.merge, s.top, MergerList(s)), free := NextFree(s))
  }

  ghost predicate MergeAdvances(s: Zone, s': Zone)
    requires |s.free| == s.top + 1
  {
    CanAdvance(s.merge, s.top) && s' == MergeNext(s)
  }

  /** The buddy pair `k` of the bitmap: joined, kept apart, or absent. */
  function Distribute(m: MergeState, l: nat, k: nat): MergeState {
    var a, b := 2 * k in m.bitmap, 2 * k + 1 in m.bitmap;
    if a && b then m.(nextList := [Shl(2 * k, l)] + m.nextList)
    else if a then m.(sameList := [Shl(2 * k, l)] + m.sameList)
    else if b then m.(sameList := [Shl(2 * k + 1, l)] + m.sameList)
    else m
  }

  /** `merge_crash_recovery`: where the persistent header says to resume. */
  ghost predicate RecoveryStarts(s: Zone, s': Zone) {
    var m := s.merge;
    && m.locked && m.merger == Absent
    && if m.status == NoMerge && m.level >= 0 && m.safeCopy != 0 then
         // the safe copy may or may not be the swapped list: warn, and leave it to the collector
         s' == WithMerge(s, m.(merger := Leaving, chain := [])).(lost := s.lost + ChainBlocks(m))
       else
         s' == WithMerge(s, m.(merger := Resume(m)))
  }

  function Resume(m: MergeState): Merger {
    match m.status
    case NoMerge => if m.level < 0 then Leaving else Entered(m.level)
    case SwapCompleted => if m.level < 0 then Absent else StatusSwapped(m.level)
    case BitmapCompleted => if m.level < 0 then Absent else BitmapBuilt(m.level)
    // with the level already reset, draining finds both lists empty and changes nothing
    case FreelistCompleted => if m.level < 0 then LevelReset else Draining(m.level, Nothing)
  }

  ghost function ChainBlocks(m: MergeState): iset<Block> {
    iset b: Block | b.level == m.level && b.unit in m.chain
  }

  ghost predicate Next(s: Zone, step: Step, s': Zone)
    requires |s.free| == s.top + 1
  {
    match step
    case Enter(l) =>
      && !s.merge.locked && s.merge.merger == Absent && l < s.top
      && s' == WithMerge(s, s.merge.(locked := true, merger := Entered(l)))
    case MergeStep => MergeAdvances(s, s')
    case MergerCrash =>
      && s.merge.merger != Absent
      && s' == WithMerge(s, s.merge.(merger := Absent)).(lost := s.lost + MergerTransit(s.merge.merger))
    case Recover => RecoveryStarts(s, s')
    case _ => ClientStep(s, step, s')
  }

  // ---------------------------------------------------------------- invariant

  ghost predicate NoDup(list: seq<nat>) {
    forall i, j :: 0 <= i < j < |list| ==> list[i] != list[j]
  }

  ghost predicate TaskOk(s: Zone, p: nat)
    requires p in s.procs
  {
    match s.procs[p]
    case Ready => true
    case Seeking(w, l) => w <= l
    case Splitting(u, l, w) => w <= l <= s.top
    case Freeing(u, l) =>
      && u != 0 && u in s.alloc && s.alloc[u] == l && l <= s.top
      && forall q :: q in s.procs && s.procs[q].Freeing? && s.procs[q].unit == u ==> q == p
    case Returning(u, l) => l <= s.top
  }

  ghost predicate TasksOk(s: Zone) {
    forall p :: p in s.procs ==> TaskOk(s, p)
  }

  /** The bits set so far are those of the first `n` chain entries. */
  ghost predicate Marked(m: MergeState, l: nat, n: nat)
    requires n <= |m.chain|
  {
    forall k :: k in m.bitmap <==> exists i :: 0 <= i < n && k == Shr(m.chain[i], l)
  }

  /** The lists hold exactly the pairs below `k`: joined when both bits are set, else apart. */
  ghost predicate Distributed(m: MergeState, l: nat, k: nat) {
    && (forall u :: u in m.nextList <==> Joins(m, l, u) && Shr(u, l + 1) < k)
    && (forall u :: u in m.sameList <==> Stays(m, l, u) && Shr(u, l) / 2 < k)
  }

  ghost predicate Joins(m: MergeState, l: nat, u: nat) {
    Block(u, l + 1).Aligned() && 2 * Shr(u, l + 1) in m.bitmap && 2 * Shr(u, l + 1) + 1 in m.bitmap
  }

  ghost predicate Stays(m: MergeState, l: nat, u: nat) {
    Block(u, l).Aligned() && Shr(u, l) in m.bitmap && Twin(Shr(u, l)) !in m.bitmap
  }

  ghost predicate MergerOk(m: MergeState, top: nat) {
    && (m.merger != Absent ==> m.locked)
    && (HasLevel(m.merger) ==> m.merger.level < top)
    && (HasLevel(m.merger) && !m.merger.Entered? ==> m.merger.level == m.level)
    && match m.merger
       case Absent => true
       case Entered(l) => m.status == NoMerge && m.chain == []
       case LevelSet(l) => m.status == NoMerge && m.chain == []
       case HeadRead(l, h) => m.status == NoMerge && m.chain == []
       case CopySaved(l, h) => m.status == NoMerge && m.chain == [] && m.safeCopy == h
       case Swapped(l) => m.status == NoMerge
       case StatusSwapped(l) => m.status == SwapCompleted
       case Building(l, n) => m.status == SwapCompleted && n <= |m.chain| && Marked(m, l, n)
       case BitmapBuilt(l) => m.status == BitmapCompleted
       case Scanning(l, k) => m.status == BitmapCompleted && k <= Pow2(top - l - 1) && Distributed(m, l, k)
       case Draining(l, _) => m.status == FreelistCompleted
       case CopyCleared(l) => m.status == FreelistCompleted && m.nextList == [] && m.sameList == []
       case LevelReset => m.status == FreelistCompleted && m.level == -1
       case Leaving => m.status == NoMerge && m.chain == []
  }

  /** What the persistent header alone guarantees, whoever has crashed. */
  ghost predicate HeaderOk(m: MergeState, top: nat) {
    && -1 <= m.level < top
    && (m.status != NoMerge || m.chain != [] ==> m.locked)
    && (m.status == SwapCompleted || m.status == BitmapCompleted || m.chain != [] ==> m.level >= 0)
    && (m.chain != [] ==> m.status == NoMerge || m.status == SwapCompleted)
    // the walk that builds the bitmap starts where the chain does, also after a crash
    && (m.chain != [] ==> m.safeCopy == Head(m.chain))
    && (m.status == FreelistCompleted && m.level == -1 ==> m.nextList == [] && m.sameList == [])
    && (m.status == NoMerge || m.status == SwapCompleted ==> m.nextList == [] && m.sameList == [])
    && NoDup(m.chain) && NoDup(m.nextList) && NoDup(m.sameList)
  }

  ghost predicate FreeListsOk(s: Zone) {
    && |s.free| == s.top + 1
    && (forall l :: 0 <= l <= s.top ==> NoDup(s.free[l]))
  }

  ghost predicate Tiled(s: Zone) { Tiles(Held(s), s.top) }

  ghost predicate Inv(s: Zone) {
    && FreeListsOk(s)
    && HeaderOk(s.merge, s.top) && MergerOk(s.merge, s.top)
    && TasksOk(s)
    && 0 in s.alloc && s.alloc[0] == 0
    && Tiled(s)
  }

  /** A block in `h`'s place is nowhere else, so its unit can join another list. */
  lemma NotListed(s: Zone, h: Holding<Place>, l: nat)
    requires FreeListsOk(s) && Tiled(s) && h in Held(s) && !h.place.FreeList? && l <= s.top
    ensures h.block.unit !in s.free[l]
  {
    if h.block.unit in s.free[l] {
      OnePlace(Held(s), h, Holding(FreeList(l), Block(h.block.unit, l)));
    }
  }

  /** One block goes from one place to another. */
  lemma HandOver(s: Zone, s': Zone, h: Holding<Place>, g: Holding<Place>)
    requires Tiled(s) && h in Held(s) && g.block == h.block && s'.top == s.top
    requires forall x: Holding<Place> :: Holds(s', x) <==> (Holds(s, x) && x != h) || x == g
    ensures Tiled(s')
  {
    assert Held(s') == Held(s) - iset{h} + iset{g};
    MoveRepacks(Held(s), Held(s'), h, g, s.top);
  }

  // ---------------------------------------------------------------- client steps

  /** A pop moves one block from its list into the hands of the process. */
  lemma PopHolds(s: Zone, p: nat, s': Zone, h: Holding<Place>)
    requires FreeListsOk(s) && ClientStep(s, PopLevel(p), s') && s.free[s.procs[p].level] != []
    ensures var b := Block(s.free[s.procs[p].level][0], s.procs[p].level);
            Holds(s', h) <==> (Holds(s, h) && h != Holding(FreeList(b.level), b)) || h == Holding(Hand(p), b)
  {
    var list := s.free[s.procs[p].level];
    assert list == [list[0]] + list[1..];
  }

  lemma PopTiled(s: Zone, p: nat, s': Zone)
    requires FreeListsOk(s) && Tiled(s) && ClientStep(s, PopLevel(p), s')
    ensures FreeListsOk(s') && Tiled(s')
  {
    var l := s.procs[p].level;
    if s.free[l] != [] {
      var b := Block(s.free[l][0], l);
      forall x: Holding<Place> { PopHolds(s, p, s', x); }
      HandOver(s, s', Holding(FreeList(l), b), Holding(Hand(p), b));
    } else {
      assert Held(s') == Held(s);
    }
  }

  lemma SplitHolds(s: Zone, p: nat, s': Zone, h: Holding<Place>)
    requires FreeListsOk(s) && ClientStep(s, Split(p), s')
    ensures var b := Block(s.procs[p].unit, s.procs[p].level);
            Holds(s', h) <==> (Holds(s, h) && h != Holding(Hand(p), b))
                              || h == Holding(Hand(p), b.Left()) || h == Holding(FreeList(b.level - 1), b.Right())
  {
  }

  lemma SplitTiled(s: Zone, p: nat, s': Zone)
    requires FreeListsOk(s) && Tiled(s) && ClientStep(s, Split(p), s')
    ensures FreeListsOk(s') && Tiled(s')
  {
    var b := Block(s.procs[p].unit, s.procs[p].level);
    var h, left, right := Holding(Hand(p), b), Holding(Hand(p), b.Left()), Holding(FreeList(b.level - 1), b.Right());
    assert h in Held(s);
    Occupied(Held(s), h, right);
    forall x: Holding<Place> { SplitHolds(s, p, s', x); }
    assert Held(s') == Held(s) - iset{h} + iset{left, right};
    SplitRepacks(Held(s), Held(s'), h, left, right, s.top);
  }

  lemma SetBitTiled(s: Zone, p: nat, s': Zone)
    requires FreeListsOk(s) && Tiled(s) && ClientStep(s, SetBit(p), s')
    ensures FreeListsOk(s') && Tiled(s')
    ensures s.procs[p].unit !in s.alloc
  {
    var b := Block(s.procs[p].unit, s.procs[p].level);
    var h, g := Holding(Hand(p), b), Holding(Client, b);
    assert h in Held(s);
    if b.unit in s.alloc {
      OnePlace(Held(s), h, Holding(Client, Block(b.unit, s.alloc[b.unit])));
    }
    assert Held(s') == Held(s) - iset{h} + iset{g};
    MoveRepacks(Held(s), Held(s'), h, g, s.top);
  }

  lemma ClearBitTiled(s: Zone, p: nat, s': Zone)
    requires FreeListsOk(s) && Tiled(s) && p in s.procs && TaskOk(s, p) && ClientStep(s, ClearBit(p), s')
    ensures FreeListsOk(s') && Tiled(s')
  {
    var b := Block(s.procs[p].unit, s.procs[p].level);
    var h, g := Holding(Client, b), Holding(Hand(p), b);
    assert h in Held(s);
    assert Held(s') == Held(s) - iset{h} + iset{g};
    MoveRepacks(Held(s), Held(s'), h, g, s.top);
  }

  lemma PushBackTiled(s: Zone, p: nat, s': Zone)
    requires FreeListsOk(s) && Tiled(s) && ClientStep(s, PushBack(p), s')
    ensures FreeListsOk(s') && Tiled(s')
  {
    var b := Block(s.procs[p].unit, s.procs[p].level);
    var h, g := Holding(Hand(p), b), Holding(FreeList(b.level), b);
    assert h in Held(s);
    NotListed(s, h, b.level);
    assert Held(s') == Held(s) - iset{h} + iset{g};
    MoveRepacks(Held(s), Held(s'), h, g, s.top);
  }

  lemma CrashTiled(s: Zone, p: nat, s': Zone)
    requires FreeListsOk(s) && Tiled(s) && ClientStep(s, Crash(p), s')
    ensures FreeListsOk(s') && Tiled(s')
  {
    var t := s.procs[p];
    if t.Splitting? || t.Returning? {
      var b := Block(t.unit, t.level);
      var h, g := Holding(Hand(p), b), Holding(Lost, b);
      assert h in Held(s);
      assert Held(s') == Held(s) - iset{h} + iset{g};
      MoveRepacks(Held(s), Held(s'), h, g, s.top);
    } else {
      assert Held(s') == Held(s);
    }
  }

  lemma ClientTasksOk(s: Zone, step: Step, s': Zone)
    requires FreeListsOk(s) && Tiled(s) && TasksOk(s) && 0 in s.alloc && s.alloc[0] == 0 && ClientStep(s, step, s')
    ensures TasksOk(s') && 0 in s'.alloc && s'.alloc[0] == 0 && s'.merge == s.merge && s'.top == s.top
  {
    if step.SetBit? {
      SetBitTiled(s, step.p, s');
    } else if step.FreeStart? {
      AllocLevel(s, step.unit);
    }
    forall q | q in s'.procs ensures TaskOk(s', q) {
      assert q in s.procs ==> TaskOk(s, q);
      assert step.p in s.procs ==> TaskOk(s, step.p);
    }
  }

  lemma AllocLevel(s: Zone, u: nat)
    requires Tiled(s) && u in s.alloc
    ensures s.alloc[u] <= s.top
  {
    assert Holding(Client, Block(u, s.alloc[u])) in Held(s);
  }

  lemma ClientKept(s: Zone, step: Step, s': Zone)
    requires Inv(s) && ClientStep(s, step, s')
    ensures Inv(s') && s'.top == s.top
  {
    ClientTasksOk(s, step, s');
    match step
    case Crash(p) => CrashTiled(s, p, s');
    case PopLevel(p) => PopTiled(s, p, s');
    case Split(p) => SplitTiled(s, p, s');
    case SetBit(p) => SetBitTiled(s, p, s');
    case ClearBit(p) => ClearBitTiled(s, p, s');
    case PushBack(p) => PushBackTiled(s, p, s');
    case Spawn(_) => assert Held(s') == Held(s);
    case AllocStart(_, _) => assert Held(s') == Held(s);
    case GiveUp(_) => assert Held(s') == Held(s);
    case FreeStart(_, _) => assert Held(s') == Held(s);
    case _ =>
  }

  // ---------------------------------------------------------------- merge steps

  /** The head CAS takes the whole list, if the head is still the one that was read. */
  lemma SwapTiled(s: Zone, s': Zone)
    requires FreeListsOk(s) && Tiled(s) && MergerOk(s.merge, s.top)
    requires s.merge.merger.CopySaved? && MergeAdvances(s, s')
    ensures FreeListsOk(s') && Tiled(s')
  {
    var l := s.merge.merger.level;
    if Head(s.free[l]) == s.merge.merger.head {
      assert forall b: Block :: Holding(Chain, b) in Held(s') <==> Holding(FreeList(l), b) in Held(s);
      assert forall b: Block :: Holding(Chain, b) !in Held(s);
      BulkMoveRepacks(Held(s), Held(s'), FreeList(l), Chain, s.top);
    } else {
      assert Held(s') == Held(s);
    }
  }

  /** When the walk is over the bitmap holds what the chain held. */
  lemma ChainIsMarked(m: MergeState, l: nat, b: Block)
    requires m.level == l == b.level && b.Aligned() && Marked(m, l, |m.chain|)
    requires forall i :: 0 <= i < |m.chain| ==> Block(m.chain[i], l).Aligned()
    ensures Shr(b.unit, l) in m.bitmap <==> b.unit in m.chain
  {
    if Shr(b.unit, l) in m.bitmap {
      var i :| 0 <= i < |m.chain| && Shr(b.unit, l) == Shr(m.chain[i], l);
      assert Block(m.chain[i], l).Aligned();
    }
  }

  lemma BuildEndTiled(s: Zone, s': Zone)
    requires FreeListsOk(s) && Tiled(s) && MergerOk(s.merge, s.top)
    requires s.merge.merger.Building? && s.merge.merger.marked == |s.merge.chain| && MergeAdvances(s, s')
    ensures FreeListsOk(s') && Tiled(s')
  {
    var m := s.merge;
    var l := m.merger.level;
    forall i | 0 <= i < |m.chain| ensures Block(m.chain[i], l).Aligned() {
      assert Holding(Chain, Block(m.chain[i], l)) in Held(s);
    }
    forall b: Block ensures Holding(Bitmap, b) in Held(s') <==> Holding(Chain, b) in Held(s) {
      if b.level == l && b.Aligned() { ChainIsMarked(m, l, b); }
      assert Holding(Chain, b) in Held(s) ==> b.Aligned();
    }
    BulkMoveRepacks(Held(s), Held(s'), Chain, Bitmap, s.top);
  }

  /** The bit a chain entry stands for is still clear when the walk reaches it. */
  lemma BitStillClear(s: Zone)
    requires Inv(s) && s.merge.merger.Building? && s.merge.merger.marked < |s.merge.chain|
    ensures Shr(s.merge.chain[s.merge.merger.marked], s.merge.merger.level) !in s.merge.bitmap
  {
    var m := s.merge;
    var l, n := m.merger.level, m.merger.marked;
    forall i | 0 <= i < n ensures Shr(m.chain[i], l) != Shr(m.chain[n], l) {
      assert Holding(Chain, Block(m.chain[i], l)) in Held(s) && Holding(Chain, Block(m.chain[n], l)) in Held(s);
    }
  }

  /** One pair of the bitmap scan: the list of joined blocks. */
  lemma NextListExtends(m: MergeState, l: nat, k: nat)
    requires Distributed(m, l, k) && NoDup(m.nextList)
    ensures var m' := Distribute(m, l, k);
            NoDup(m'.nextList) && forall u :: u in m'.nextList <==> Joins(m, l, u) && Shr(u, l + 1) < k + 1
  {
    var v := Shl(2 * k, l);
    ShlStep(k, l);
    ShrShl(k, l + 1);
    assert v !in m.nextList;
    forall u ensures u in Distribute(m, l, k).nextList <==> Joins(m, l, u) && Shr(u, l + 1) < k + 1 {
      if Shr(u, l + 1) == k && Joins(m, l, u) { assert u == v; }
    }
  }

  /** One pair of the bitmap scan: the list of blocks left alone. */
  lemma SameListExtends(m: MergeState, l: nat, k: nat)
    requires Distributed(m, l, k) && NoDup(m.sameList)
    ensures var m' := Distribute(m, l, k);
            NoDup(m'.sameList) && forall u :: u in m'.sameList <==> Stays(m, l, u) && Shr(u, l) / 2 < k + 1
  {
    var v, w := Shl(2 * k, l), Shl(2 * k + 1, l);
    ShrShl(2 * k, l);
    ShrShl(2 * k + 1, l);
    assert v !in m.sameList && w !in m.sameList;
    forall u ensures u in Distribute(m, l, k).sameList <==> Stays(m, l, u) && Shr(u, l) / 2 < k + 1 {
      if Shr(u, l) / 2 == k && Stays(m, l, u) { assert u == v || u == w; }
    }
  }

  lemma DistributeKept(m: MergeState, l: nat, k: nat)
    requires Distributed(m, l, k) && NoDup(m.nextList) && NoDup(m.sameList)
    ensures var m' := Distribute(m, l, k);
            Distributed(m', l, k + 1) && NoDup(m'.nextList) && NoDup(m'.sameList)
  {
    NextListExtends(m, l, k);
    SameListExtends(m, l, k);
    var m' := Distribute(m, l, k);
    assert m'.bitmap == m.bitmap;
    forall u ensures Joins(m', l, u) == Joins(m, l, u) && Stays(m', l, u) == Stays(m, l, u) {}
  }

  lemma ScanEndTiled(s: Zone, s': Zone)
    requires FreeListsOk(s) && Tiled(s) && MergerOk(s.merge, s.top)
    requires s.merge.merger.Scanning? && MergeAdvances(s, s') && s'.merge.status == FreelistCompleted
    ensures FreeListsOk(s') && Tiled(s')
  {
    var l := s.merge.merger.level;
    PairingIsComplete(s, s', l);
    PairingRepacks(Held(s), Held(s'), Bitmap, NextList, SameList, l, s.top);
  }

  /** The scan has reached the end of the bitmap. */
  ghost predicate ScanEnds(s: Zone, s': Zone, l: nat) {
    && Tiled(s) && s.merge.status == BitmapCompleted && s.merge.level == l < s.top && !s.merge.merger.Draining?
    && Distributed(s.merge, l, Pow2(s.top - l - 1))
    && s' == WithMerge(s, s.merge.(status := FreelistCompleted, merger := Draining(l, Nothing)))
  }

  lemma HalfNumbers(b: Block)
    requires b.Aligned() && b.level > 0
    ensures b.Left().Aligned() && Shr(b.Left().unit, b.level - 1) == 2 * Shr(b.unit, b.level)
    ensures b.Right().Aligned() && Shr(b.Right().unit, b.level - 1) == 2 * Shr(b.unit, b.level) + 1
  {
    HalvesAligned(b);
    ShlStep(Shr(b.unit, b.level), b.level - 1);
    ShlAdd(2 * Shr(b.unit, b.level), b.level - 1);
    ShrShl(2 * Shr(b.unit, b.level), b.level - 1);
    ShrShl(2 * Shr(b.unit, b.level) + 1, b.level - 1);
  }

  lemma BuddyNumber(b: Block)
    requires b.Aligned()
    ensures b.Buddy().Aligned() && b.Buddy().level == b.level
            && Shr(b.Buddy().unit, b.level) == Twin(Shr(b.unit, b.level))
  {
    NthAligned(Twin(Shr(b.unit, b.level)), b.level);
    ShrShl(Twin(Shr(b.unit, b.level)), b.level);
  }

  /** The pair of a block of the zone is below the end of the bitmap. */
  lemma PairNumber(b: Block, top: nat)
    requires b.level < top
    ensures b.unit < Pow2(top) <==> Shr(b.unit, b.level) / 2 < Pow2(top - b.level - 1)
  {
    ShrRange(b.unit, b.level, top);
    assert Pow2(top - b.level) == 2 * Pow2(top - b.level - 1);
  }

  /** The merge fields when the scan has done the last pair. */
  ghost predicate LastPair(m: MergeState, top: nat, l: nat) {
    && m.status == BitmapCompleted && m.level == l < top
    && Distributed(m, l, Pow2(top - l - 1))
    && (forall c: Block :: MergeHolds(m, Holding(Bitmap, c)) ==> c.unit < Pow2(top))
  }

  lemma SinglesComplete(m: MergeState, top: nat, l: nat, b: Block)
    requires LastPair(m, top, l) && b.level == l && b.Aligned()
    ensures b.unit in m.sameList <==> MergeHolds(m, Holding(Bitmap, b)) && !MergeHolds(m, Holding(Bitmap, b.Buddy()))
  {
    BuddyNumber(b);
    PairNumber(b, top);
  }

  lemma JoinsMeansBoth(m: MergeState, l: nat, b: Block)
    requires m.status == BitmapCompleted && m.level == l && b.level == l + 1 && b.Aligned()
    ensures Joins(m, l, b.unit) <==>
              MergeHolds(m, Holding(Bitmap, b.Left())) && MergeHolds(m, Holding(Bitmap, b.Right()))
  {
    HalfNumbers(b);
  }

  lemma PairsComplete(m: MergeState, top: nat, l: nat, b: Block)
    requires LastPair(m, top, l) && b.level == l + 1
    ensures b.unit in m.nextList <==>
              b.Aligned() && MergeHolds(m, Holding(Bitmap, b.Left())) && MergeHolds(m, Holding(Bitmap, b.Right()))
  {
    if b.Aligned() {
      JoinsMeansBoth(m, l, b);
      ShrRange(b.unit, l + 1, top);
      assert MergeHolds(m, Holding(Bitmap, b.Left())) ==> b.unit < Pow2(top);
    }
  }

  lemma LastPairReached(s: Zone, s': Zone, l: nat)
    requires ScanEnds(s, s', l)
    ensures LastPair(s.merge, s.top, l)
  {
    forall c: Block | MergeHolds(s.merge, Holding(Bitmap, c)) ensures c.unit < Pow2(s.top) {
      assert Holding(Bitmap, c) in Held(s);
    }
  }

  /** What the end of the scan does to one block of the merge. */
  lemma ScanEndHolds(m: MergeState, top: nat, l: nat, m': MergeState, b: Block)
    requires LastPair(m, top, l) && m' == m.(status := FreelistCompleted, merger := Draining(l, Nothing))
    ensures MergeHolds(m', Holding(SameList, b)) <==>
              MergeHolds(m, Holding(Bitmap, b)) && !MergeHolds(m, Holding(Bitmap, b.Buddy()))
    ensures MergeHolds(m', Holding(NextList, b)) <==>
              b.level == l + 1 && b.Aligned() && MergeHolds(m, Holding(Bitmap, b.Left()))
                && MergeHolds(m, Holding(Bitmap, b.Right()))
  {
    if b.level == l && b.Aligned() { SinglesComplete(m, top, l, b); }
    if b.level == l + 1 { PairsComplete(m, top, l, b); }
  }

  lemma BitmapVacated(s: Zone, s': Zone, l: nat)
    requires ScanEnds(s, s', l)
    ensures Vacated(Held(s), Held(s'), Bitmap, NextList, SameList)
  {
    forall h: Holding<Place> | h.place != Bitmap && h.place != NextList && h.place != SameList
      ensures Holds(s', h) == Holds(s, h) {}
  }

  lemma PairingIsComplete(s: Zone, s': Zone, l: nat)
    requires ScanEnds(s, s', l)
    ensures PairedOff(Held(s), Held(s'), Bitmap, NextList, SameList, l)
  {
    BitmapVacated(s, s', l);
    LastPairReached(s, s', l);
    forall b: Block
      ensures Holding(SameList, b) in Held(s') <==>
                Holding(Bitmap, b) in Held(s) && Holding(Bitmap, b.Buddy()) !in Held(s)
      ensures Holding(NextList, b) in Held(s') <==>
              b.level == l + 1 && b.Aligned() && Holding(Bitmap, b.Left()) in Held(s)
                && Holding(Bitmap, b.Right()) in Held(s)
    {
      ScanEndHolds(s.merge, s.top, l, s'.merge, b);
    }
  }

  /** Draining takes the first entry of a post-merge list in hand. */
  lemma DrainHolds(m: MergeState, top: nat, h: Holding<Place>)
    requires m.merger.Draining? && m.merger.hand == Nothing && m.merger.level == m.level < top
    requires m.status == FreelistCompleted && (m.nextList != [] || m.sameList != [])
    requires NoDup(m.nextList) && NoDup(m.sameList)
    ensures var next := m.nextList != [];
            var b := if next then Block(m.nextList[0], m.level + 1) else Block(m.sameList[0], m.level);
            MergeHolds(NextMerge(m, top, []), h) <==>
              (MergeHolds(m, h) && h != Holding(if next then NextList else SameList, b)) || h == Holding(MergerHand, b)
  {
    var list := if m.nextList != [] then m.nextList else m.sameList;
    assert list == [list[0]] + list[1..];
  }

  lemma DrainNextTiled(s: Zone, s': Zone)
    requires FreeListsOk(s) && Tiled(s) && HeaderOk(s.merge, s.top) && MergerOk(s.merge, s.top)
    requires s.merge.merger.Draining? && s.merge.merger.hand == Nothing && MergeAdvances(s, s')
    ensures FreeListsOk(s') && Tiled(s')
  {
    var m := s.merge;
    if m.nextList != [] || m.sameList != [] {
      forall h: Holding<Place> { DrainHolds(m, s.top, h); }
    }
    if m.nextList != [] {
      TakeInHand(s, s', NextList, Block(m.nextList[0], m.level + 1));
    } else if m.sameList != [] {
      TakeInHand(s, s', SameList, Block(m.sameList[0], m.level));
    } else {
      assert Held(s') == Held(s);
    }
  }

  lemma TakeInHand(s: Zone, s': Zone, place: Place, b: Block)
    requires Tiled(s) && MergeHolds(s.merge, Holding(place, b)) && (place.NextList? || place.SameList?)
    requires s' == WithMerge(s, s'.merge)
    requires forall h: Holding<Place> :: MergeHolds(s'.merge, h) <==>
               (MergeHolds(s.merge, h) && h != Holding(place, b)) || h == Holding(MergerHand, b)
    ensures Tiled(s')
  {
    HandOver(s, s', Holding(place, b), Holding(MergerHand, b));
  }

  lemma DrainPushTiled(s: Zone, s': Zone)
    requires FreeListsOk(s) && Tiled(s) && MergerOk(s.merge, s.top)
    requires s.merge.merger.Draining? && s.merge.merger.hand != Nothing && MergeAdvances(s, s')
    ensures FreeListsOk(s') && Tiled(s')
  {
    var l, hand := s.merge.merger.level, s.merge.merger.hand;
    var b := Block(hand.unit, if hand.FromNext? then l + 1 else l);
    assert Holding(MergerHand, b) in Held(s);
    NotListed(s, Holding(MergerHand, b), b.level);
    HandOver(s, s', Holding(MergerHand, b), Holding(FreeList(b.level), b));
  }

  /** Merge steps that move no block. */
  lemma StandingTiled(s: Zone, s': Zone)
    requires FreeListsOk(s) && Tiled(s) && s' == WithMerge(s, s'.merge)
    requires forall h: Holding<Place> :: MergeHolds(s'.merge, h) == MergeHolds(s.merge, h)
    ensures FreeListsOk(s') && Tiled(s')
  {
    forall h: Holding<Place> ensures Holds(s', h) == Holds(s, h) {}
    assert Held(s') == Held(s);
  }

  /** The step leaves every block of the merge where it is. */
  predicate Standing(m: MergeState, top: nat) {
    match m.merger
    case CopySaved(_, _) => false
    case Building(_, n) => n < |m.chain|
    case Scanning(l, k) => l < top && k < Pow2(top - l - 1)
    case Draining(_, _) => false
    case _ => true
  }

  lemma StandingHolds(m: MergeState, top: nat, list: seq<nat>, h: Holding<Place>)
    requires HeaderOk(m, top) && MergerOk(m, top) && CanAdvance(m, top) && Standing(m, top)
    ensures MergeHolds(NextMerge(m, top, list), h) == MergeHolds(m, h)
  {}

  lemma MergeTiled(s: Zone, s': Zone)
    requires FreeListsOk(s) && Tiled(s) && HeaderOk(s.merge, s.top) && MergerOk(s.merge, s.top)
    requires MergeAdvances(s, s')
    ensures FreeListsOk(s') && Tiled(s')
  {
    var m := s.merge.merger;
    if Standing(s.merge, s.top) {
      forall h: Holding<Place> ensures MergeHolds(s'.merge, h) == MergeHolds(s.merge, h) {
        StandingHolds(s.merge, s.top, MergerList(s), h);
      }
      StandingTiled(s, s');
    } else if m.CopySaved? {
      SwapTiled(s, s');
    } else if m.Building? {
      BuildEndTiled(s, s');
    } else if m.Scanning? {
      ScanEndTiled(s, s');
    } else if m.hand == Nothing {
      DrainNextTiled(s, s');
    } else {
      DrainPushTiled(s, s');
    }
  }

  // ---- the header

  lemma SwapHeader(m: MergeState, top: nat, list: seq<nat>)
    requires HeaderOk(m, top) && MergerOk(m, top) && CanAdvance(m, top) && NoDup(list)
    requires m.merger.Entered? || m.merger.LevelSet? || m.merger.HeadRead? || m.merger.CopySaved? || m.merger.Swapped?
    ensures HeaderOk(NextMerge(m, top, list), top) && MergerOk(NextMerge(m, top, list), top)
  {}

  lemma BuildHeader(m: MergeState, top: nat, list: seq<nat>)
    requires HeaderOk(m, top) && MergerOk(m, top) && CanAdvance(m, top)
             && (m.merger.StatusSwapped? || m.merger.Building?)
    ensures HeaderOk(NextMerge(m, top, list), top) && MergerOk(NextMerge(m, top, list), top)
  {
    if m.merger.Building? && m.merger.marked < |m.chain| {
      assert Marked(NextMerge(m, top, list), m.merger.level, m.merger.marked + 1);
    }
  }

  lemma ScanHeader(m: MergeState, top: nat, list: seq<nat>)
    requires HeaderOk(m, top) && MergerOk(m, top) && CanAdvance(m, top) && (m.merger.BitmapBuilt? || m.merger.Scanning?)
    ensures HeaderOk(NextMerge(m, top, list), top) && MergerOk(NextMerge(m, top, list), top)
  {
    if m.merger.Scanning? {
      DistributeKept(m, m.merger.level, m.merger.pair);
    }
  }

  lemma DrainHeader(m: MergeState, top: nat, list: seq<nat>)
    requires HeaderOk(m, top) && MergerOk(m, top) && CanAdvance(m, top)
    requires m.merger.Draining? || m.merger.CopyCleared? || m.merger.LevelReset? || m.merger.Leaving?
    ensures HeaderOk(NextMerge(m, top, list), top) && MergerOk(NextMerge(m, top, list), top)
  {}

  /** Every phase leaves the header as the next one, or recovery, expects it. */
  lemma MergeHeader(m: MergeState, top: nat, list: seq<nat>)
    requires HeaderOk(m, top) && MergerOk(m, top) && CanAdvance(m, top) && NoDup(list)
    ensures HeaderOk(NextMerge(m, top, list), top) && MergerOk(NextMerge(m, top, list), top)
  {
    match m.merger
    case StatusSwapped(_) => BuildHeader(m, top, list);
    case Building(_, _) => BuildHeader(m, top, list);
    case BitmapBuilt(_) => ScanHeader(m, top, list);
    case Scanning(_, _) => ScanHeader(m, top, list);
    case Draining(_, _) => DrainHeader(m, top, list);
    case CopyCleared(_) => DrainHeader(m, top, list);
    case LevelReset => DrainHeader(m, top, list);
    case Leaving => DrainHeader(m, top, list);
    case _ => SwapHeader(m, top, list);
  }

  lemma MergerCrashTiled(s: Zone, s': Zone)
    requires FreeListsOk(s) && Tiled(s) && Next(s, MergerCrash, s')
    ensures FreeListsOk(s') && Tiled(s')
  {
    var m := s.merge.merger;
    if m.Draining? && m.hand != Nothing {
      var b := Block(m.hand.unit, if m.hand.FromNext? then m.level + 1 else m.level);
      HandOver(s, s', Holding(MergerHand, b), Holding(Lost, b));
    } else {
      assert Held(s') == Held(s);
    }
  }

  /** A crash leaves the persistent header as it was. */
  lemma MergerCrashHeader(m: MergeState, top: nat)
    requires HeaderOk(m, top) && MergerOk(m, top)
    ensures HeaderOk(m.(merger := Absent), top) && MergerOk(m.(merger := Absent), top)
  {}

  /** Recovery that cannot tell whether the swap happened: the chain, if any, is lost. */
  lemma WarnTiled(s: Zone, s': Zone)
    requires FreeListsOk(s) && Tiled(s) && s.merge.merger == Absent && s.merge.status == NoMerge
    requires s' == WithMerge(s, s.merge.(merger := Leaving, chain := [])).(lost := s.lost + ChainBlocks(s.merge))
    ensures FreeListsOk(s') && Tiled(s')
  {
    BulkMoveRepacks(Held(s), Held(s'), Chain, Lost, s.top);
  }

  lemma RecoverTiled(s: Zone, s': Zone)
    requires FreeListsOk(s) && Tiled(s) && RecoveryStarts(s, s')
    ensures FreeListsOk(s') && Tiled(s')
  {
    var m := s.merge;
    if m.status == NoMerge && m.level >= 0 && m.safeCopy != 0 {
      WarnTiled(s, s');
    } else {
      assert Held(s') == Held(s);
    }
  }

  /** Every place recovery resumes at finds the header as that phase left it. */
  lemma ResumeHeader(m: MergeState, top: nat)
    requires HeaderOk(m, top) && m.locked && m.merger == Absent
    requires !(m.status == NoMerge && m.level >= 0 && m.safeCopy != 0)
    ensures HeaderOk(m.(merger := Resume(m)), top) && MergerOk(m.(merger := Resume(m)), top)
  {}

  lemma RecoverHeader(s: Zone, s': Zone)
    requires HeaderOk(s.merge, s.top) && RecoveryStarts(s, s')
    ensures HeaderOk(s'.merge, s'.top) && MergerOk(s'.merge, s'.top)
  {
    var m := s.merge;
    if !(m.status == NoMerge && m.level >= 0 && m.safeCopy != 0) { ResumeHeader(m, s.top); }
  }

  lemma MergeKept(s: Zone, s': Zone)
    requires Inv(s) && MergeAdvances(s, s')
    ensures Inv(s') && s'.top == s.top
  {
    MergeTiled(s, s');
    MergeHeader(s.merge, s.top, MergerList(s));
    SameClients(s, s');
  }

  lemma MergerCrashKept(s: Zone, s': Zone)
    requires Inv(s) && Next(s, MergerCrash, s')
    ensures Inv(s') && s'.top == s.top
  {
    MergerCrashTiled(s, s');
    MergerCrashHeader(s.merge, s.top);
    SameClients(s, s');
  }

  lemma RecoverKept(s: Zone, s': Zone)
    requires Inv(s) && Next(s, Recover, s')
    ensures Inv(s') && s'.top == s.top
  {
    RecoverTiled(s, s');
    RecoverHeader(s, s');
    SameClients(s, s');
  }

  lemma EnterKept(s: Zone, l: nat, s': Zone)
    requires Inv(s) && Next(s, Enter(l), s')
    ensures Inv(s') && s'.top == s.top
  {
    assert Held(s') == Held(s);
    SameClients(s, s');
  }

  /** Steps of the merging process and of recovery. */
  lemma MergerKept(s: Zone, step: Step, s': Zone)
    requires Inv(s) && Next(s, step, s') && (step.Enter? || step.MergeStep? || step.MergerCrash? || step.Recover?)
    ensures Inv(s') && s'.top == s.top
  {
    match step
    case Enter(l) => EnterKept(s, l, s');
    case MergeStep => MergeKept(s, s');
    case MergerCrash => MergerCrashKept(s, s');
    case Recover => RecoverKept(s, s');
  }

  lemma InvKept(s: Zone, step: Step, s': Zone)
    requires Inv(s) && Next(s, step, s')
    ensures Inv(s') && s'.top == s.top
  {
    if step.Enter? || step.MergeStep? || step.MergerCrash? || step.Recover? {
      MergerKept(s, step, s');
    } else {
      ClientKept(s, step, s');
    }
  }

  lemma SameClients(s: Zone, s': Zone)
    requires TasksOk(s) && s'.procs == s.procs && s'.alloc == s.alloc && s'.top == s.top
    ensures TasksOk(s')
  {}

  // ---------------------------------------------------------------- initial state and runs

  /** Power of two block sizes from the first unit up tile everything but unit 0. */
  lemma {:induction false} PowersCover(x: nat, top: nat) returns (l: nat)
    requires 0 < x < Pow2(top)
    ensures l < top && Block(Pow2(l), l).Covers(x)
  {
    if x < Pow2(top - 1) {
      l := PowersCover(x, top - 1);
    } else {
      l := top - 1;
    }
  }

  lemma {:induction false} PowersDisjoint(l: nat, m: nat)
    requires l < m
    ensures Block(Pow2(l), l).Disjoint(Block(Pow2(m), m))
  {
    Pow2Mono(l + 1, m);
  }

  lemma {:induction false} PowIsShl(l: nat)
    ensures Shl(1, l) == Pow2(l)
  {
    if l > 0 { PowIsShl(l - 1); }
  }

  /** The blocks of a new zone: unit 0, which stays reserved, and one block a level. */
  predicate IsFirst(h: Holding<Place>, top: nat) {
    h == Holding(Client, Block(0, 0)) || IsPower(h, top)
  }

  predicate IsPower(h: Holding<Place>, top: nat) {
    h.block.level < top && h == Holding(FreeList(h.block.level), Block(Pow2(h.block.level), h.block.level))
  }

  lemma InitHolds(s: Zone, h: Holding<Place>)
    requires Init(s)
    ensures Holds(s, h) <==> IsFirst(h, s.top)
  {}

  lemma FirstPlaced(h: Holding<Place>, top: nat)
    requires IsFirst(h, top)
    ensures h.block.Aligned() && h.block.level <= top && h.block.unit < Pow2(top)
  {
    if IsPower(h, top) {
      PowIsShl(h.block.level);
      NthAligned(1, h.block.level);
      Pow2Mono(h.block.level + 1, top);
    }
  }

  lemma FirstDisjoint(h: Holding<Place>, g: Holding<Place>, top: nat)
    requires IsFirst(h, top) && IsFirst(g, top) && h != g
    ensures h.block.Disjoint(g.block)
  {
    if IsPower(h, top) && IsPower(g, top) {
      if h.block.level < g.block.level { PowersDisjoint(h.block.level, g.block.level); }
      else { PowersDisjoint(g.block.level, h.block.level); }
    }
  }

  lemma FirstCover(x: nat, top: nat) returns (h: Holding<Place>)
    requires x < Pow2(top)
    ensures IsFirst(h, top) && h.block.Covers(x)
  {
    if x == 0 {
      h := Holding(Client, Block(0, 0));
    } else {
      var l := PowersCover(x, top);
      h := Holding(FreeList(l), Block(Pow2(l), l));
    }
  }

  lemma InitTiled(s: Zone)
    requires Init(s)
    ensures Tiled(s)
  {
    forall h: Holding<Place> ensures h in Held(s) <==> IsFirst(h, s.top) { InitHolds(s, h); }
    forall h | h in Held(s) ensures h.block.Aligned() && h.block.level <= s.top && h.block.unit < Pow2(s.top) {
      FirstPlaced(h, s.top);
    }
    forall h, g | h in Held(s) && g in Held(s) && h != g ensures h.block.Disjoint(g.block) {
      FirstDisjoint(h, g, s.top);
    }
    forall x | 0 <= x < Pow2(s.top) ensures CoveredBy(Held(s), x) {
      var h := FirstCover(x, s.top);
      assert h in Held(s);
    }
  }

  lemma InitInv(s: Zone)
    requires Init(s)
    ensures Inv(s)
  {
    InitTiled(s);
  }

  ghost predicate IsRun(states: seq<Zone>, steps: seq<Step>) {
    && |states| == |steps| + 1
    && Init(states[0])
    && forall t :: 0 <= t < |steps| ==> StepTaken(states, steps, t)
  }

  ghost predicate StepTaken(states: seq<Zone>, steps: seq<Step>, t: nat)
    requires t < |steps| && t + 1 < |states|
  {
    |states[t].free| == states[t].top + 1 && Next(states[t], steps[t], states[t + 1])
  }

  lemma {:induction false} RunInv(states: seq<Zone>, steps: seq<Step>, t: nat)
    requires IsRun(states, steps) && t < |states|
    ensures Inv(states[t])
  {
    if t == 0 {
      InitInv(states[0]);
    } else {
      RunInv(states, steps, t - 1);
      assert StepTaken(states, steps, t - 1);
      InvKept(states[t - 1], steps[t - 1], states[t]);
    }
  }

  /** In every state of every run each unit of the zone is in exactly one block, and that block is in
      exactly one place: with a client, on a free list, in a process's hands, inside the merge, or with
      a process that has died. */
  lemma EveryUnitInOnePlace(states: seq<Zone>, steps: seq<Step>, t: nat, x: nat)
    requires IsRun(states, steps) && t < |states| && x < Pow2(states[t].top)
    ensures exists h: Holding<Place> :: Holds(states[t], h) && h.block.Covers(x)
    ensures forall h, g: Holding<Place> ::
              Holds(states[t], h) && Holds(states[t], g) && h.block.Covers(x) && g.block.Covers(x) ==> h == g
    ensures forall h: Holding<Place> :: Holds(states[t], h) && h.block.Covers(x)
              ==> h.block.Aligned() && h.block.level <= states[t].top
    ensures forall l :: 0 <= l < |states[t].free| ==> NoDup(states[t].free[l])
  {
    RunInv(states, steps, t);
    TilesExactlyOnce(Held(states[t]), states[t].top, x);
    var h :| h in Held(states[t]) && h.block.Covers(x);
  }

  // ---------------------------------------------------------------- crashes

  /** What a crash of the merging process costs once recovery has run: the whole swapped list if it
      fell between the head CAS and the status change, else at most the one block in its hands. */
  lemma CrashLoss(s: Zone, s1: Zone, s2: Zone)
    requires Inv(s) && Next(s, MergerCrash, s1) && Next(s1, Recover, s2)
    ensures Inv(s2)
    ensures s2.lost == s.lost + if s.merge.merger.Swapped? then ChainBlocks(s.merge) else MergerTransit(s.merge.merger)
    ensures forall b, c :: b in MergerTransit(s.merge.merger) && c in MergerTransit(s.merge.merger) ==> b == c
    ensures MergerTransit(s.merge.merger) != iset{} ==> s.merge.status == FreelistCompleted
    ensures s2.alloc == s.alloc && s2.free == s.free
  {
    MergerCrashKept(s, s1);
    RecoverKept(s1, s2);
    RecoveryLoss(s, s1, s2);
  }

  lemma RecoveryLoss(s: Zone, s1: Zone, s2: Zone)
    requires HeaderOk(s.merge, s.top) && MergerOk(s.merge, s.top) && |s.free| == s.top + 1
    requires Next(s, MergerCrash, s1) && Next(s1, Recover, s2)
    ensures s2.lost == s.lost + if s.merge.merger.Swapped? then ChainBlocks(s.merge) else MergerTransit(s.merge.merger)
  {
    assert s1.merge == s.merge.(merger := Absent);
    assert ChainBlocks(s1.merge) == ChainBlocks(s.merge);
    assert s.merge.chain == [] ==> ChainBlocks(s.merge) == iset{};
  }

  lemma EmptyChainLosesNothing(m: MergeState, lost: iset<Block>)
    ensures m.chain == [] ==> lost + ChainBlocks(m) == lost
  {}

  /** Nothing but a crash, or recovery from a crash inside the swap, ever loses a block. */
  lemma OnlyCrashesLose(s: Zone, step: Step, s': Zone)
    requires Inv(s) && Next(s, step, s') && s'.lost != s.lost
    ensures step.Crash? || step.MergerCrash?
            || (step.Recover? && s.merge.status == NoMerge && s.merge.level >= 0
               && s.merge.safeCopy == Head(s.merge.chain) != 0)
  {
    EmptyChainLosesNothing(s.merge, s.lost);
  }

  /** The block of unit 0 is never merged, so no chunk pointer the scan computes is null. */
  lemma UnitZeroNeverInBitmap(s: Zone)
    requires Inv(s) && s.merge.status == BitmapCompleted
    ensures 0 !in s.merge.bitmap
  {
    var l := s.merge.level;
    ShrShl(0, l);
    ShlZero(l);
    Occupied(Held(s), Holding(Client, Block(0, 0)), Holding(Bitmap, Block(0, l)));
  }

  lemma {:induction false} ShlZero(l: nat)
    ensures Shl(0, l) == 0
  {
    if l > 0 { ShlZero(l - 1); }
  }
}
