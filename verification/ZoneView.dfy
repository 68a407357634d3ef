/** What a zone's tables say, without the order of the lists: which blocks are marked allocated and
    which are free at each level.  The operations of the zone are given here as functions on views;
    `ZoneHeap` proves that the code computes them, and the lemmas below say what they achieve. */
module ZoneView {
  import opened Dyadic
  import opened Tiling

  datatype View = View(top: nat, used: map<nat, nat>, free: seq<set<nat>>)

  /** `Work`, `Joined` and `Alone` are stations a block passes through inside one merge. */
  datatype Side = Used | Free(level: nat) | Work | Joined | Alone

  ghost predicate InView(v: View, h: Holding<Side>) {
    var u, l := h.block.unit, h.block.level;
    match h.place
    case Used => u in v.used && v.used[u] == l
    case Free(k) => k == l < |v.free| && u in v.free[l]
    case _ => false
  }

  ghost function Family(v: View): iset<Holding<Side>> { iset h: Holding<Side> | InView(v, h) }

  /** Blocks are aligned and disjoint, and unit 0 is reserved.  Units may be leaked. */
  ghost predicate Packed(v: View) {
    |v.free| == v.top + 1 && Packs(Family(v), v.top) && 0 in v.used && v.used[0] == 0
  }

  /** Nothing is leaked either: the blocks tile the zone. */
  ghost predicate Tiled(v: View) { Packed(v) && Tiles(Family(v), v.top) }

  ghost predicate FreeUnit(v: View, x: nat) {
    exists l, u :: 0 <= l < |v.free| && u in v.free[l] && Block(u, l).Covers(x)
  }

  ghost predicate UsedUnit(v: View, x: nat) {
    exists u :: u in v.used && Block(u, v.used[u]).Covers(x)
  }

  lemma CoveredMeans(v: View, x: nat)
    ensures CoveredBy(Family(v), x) <==> FreeUnit(v, x) || UsedUnit(v, x)
  {
    if h :| h in Family(v) && h.block.Covers(x) {}
    if l, u :| 0 <= l < |v.free| && u in v.free[l] && Block(u, l).Covers(x) {
      assert Holding(Free(l), Block(u, l)) in Family(v);
    }
    if u :| u in v.used && Block(u, v.used[u]).Covers(x) {
      assert Holding(Used, Block(u, v.used[u])) in Family(v);
    }
  }

  lemma FreeIsNotUsed(v: View, x: nat)
    requires Packed(v)
    ensures !(FreeUnit(v, x) && UsedUnit(v, x))
  {
    forall l, u, w | 0 <= l < |v.free| && u in v.free[l] && Block(u, l).Covers(x) && w in v.used
      ensures !Block(w, v.used[w]).Covers(x)
    {
      assert Holding(Free(l), Block(u, l)) in Family(v) && Holding(Used, Block(w, v.used[w])) in Family(v);
    }
  }

  /** What an operation that only reshapes free blocks keeps. */
  ghost predicate SameFreeUnits(v: View, w: View) {
    w.top == v.top && w.used == v.used && forall x: nat :: FreeUnit(w, x) <==> FreeUnit(v, x)
  }

  /** If two packed views mark the same blocks used and cover the same units, they free the same units. */
  lemma CoverFixesFree(v: View, w: View)
    requires Packed(v) && Packed(w) && w.top == v.top && w.used == v.used
    requires forall x: nat :: CoveredBy(Family(w), x) <==> CoveredBy(Family(v), x)
    ensures SameFreeUnits(v, w)
  {
    forall x: nat ensures FreeUnit(w, x) <==> FreeUnit(v, x) {
      CoveredMeans(v, x);
      CoveredMeans(w, x);
      FreeIsNotUsed(v, x);
      FreeIsNotUsed(w, x);
      assert UsedUnit(v, x) == UsedUnit(w, x);
    }
  }

  // ---------------------------------------------------------------- alloc and free

  /** The first level from `l` up with a free block; `top + 1` if there is none. */
  function FirstLevel(v: View, l: nat): (s: nat)
    requires |v.free| == v.top + 1
    ensures forall j :: l <= j < s && j <= v.top ==> v.free[j] == {}
    ensures l <= v.top ==> l <= s <= v.top + 1
    ensures l <= s <= v.top ==> v.free[s] != {}
    ensures l > v.top ==> s > v.top
    decreases v.top + 1 - l
  {
    if l > v.top then v.top + 1 else if v.free[l] != {} then l else FirstLevel(v, l + 1)
  }

  function SplitFree(v: View, s: nat, u: nat): View
    requires 0 < s < |v.free|
  {
    v.(free := v.free[s := v.free[s] - {u}][s - 1 := v.free[s - 1] + {u, u + Pow2(s - 1)}])
  }

  /** Block `u` of level `s` is split down to level `want` and marked allocated. */
  function Take(v: View, want: nat, s: nat, u: nat): (w: View)
    requires want <= s < |v.free|
    ensures |w.free| == |v.free| && w.top == v.top
    ensures w.used == v.used[u := want]
    decreases s
  {
    if s == want then v.(used := v.used[u := want], free := v.free[s := v.free[s] - {u}])
    else Take(SplitFree(v, s, u), want, s - 1, u)
  }

  lemma SplitFreeRepacks(v: View, s: nat, u: nat)
    requires Packed(v) && 0 < s <= v.top && u in v.free[s]
    ensures Packed(SplitFree(v, s, u)) && u in SplitFree(v, s, u).free[s - 1]
    ensures SameFreeUnits(v, SplitFree(v, s, u))
    ensures Tiled(v) ==> Tiled(SplitFree(v, s, u))
  {
    var w := SplitFree(v, s, u);
    var b := Block(u, s);
    var h, left, right := Holding(Free(s), b), Holding(Free(s - 1), b.Left()), Holding(Free(s - 1), b.Right());
    assert h in Family(v);
    assert Family(w) == Family(v) - iset{h} + iset{left, right};
    SplitRepacks(Family(v), Family(w), h, left, right, v.top);
    CoverFixesFree(v, w);
  }

  /** Marking the whole block allocated. */
  lemma MarkRepacks(v: View, l: nat, u: nat)
    requires Packed(v) && l <= v.top && u in v.free[l]
    ensures var w := v.(used := v.used[u := l], free := v.free[l := v.free[l] - {u}]);
            && Packed(w) && u !in v.used && u > 0
            && (Tiled(v) ==> Tiled(w))
            && (forall x: nat :: FreeUnit(w, x) <==> FreeUnit(v, x) && !Block(u, l).Covers(x))
            && (forall x: nat :: Block(u, l).Covers(x) ==> FreeUnit(v, x))
  {
    var w := v.(used := v.used[u := l], free := v.free[l := v.free[l] - {u}]);
    var h, g := Holding(Free(l), Block(u, l)), Holding(Used, Block(u, l));
    assert h in Family(v);
    OneUse(v, u, h);
    assert Holding(Used, Block(0, 0)) in Family(v);
    assert Family(w) == Family(v) - iset{h} + iset{g};
    MoveRepacks(Family(v), Family(w), h, g, v.top);
    forall x: nat ensures FreeUnit(w, x) <==> FreeUnit(v, x) && !Block(u, l).Covers(x) {
      CoveredMeans(v, x);
      CoveredMeans(w, x);
      FreeIsNotUsed(v, x);
      FreeIsNotUsed(w, x);
      assert UsedUnit(w, x) <==> UsedUnit(v, x) || Block(u, l).Covers(x) by {
        assert u in w.used && w.used[u] == l;
        assert forall y :: y in v.used ==> y in w.used && w.used[y] == v.used[y];
      }
    }
  }

  lemma OneUse(v: View, u: nat, h: Holding<Side>)
    requires Packed(v) && h in Family(v) && h.place != Used && h.block.unit == u
    ensures u !in v.used
  {
    if u in v.used { OnePlace(Family(v), h, Holding(Used, Block(u, v.used[u]))); }
  }

  /** `alloc`: the block handed out was free, is aligned to its size, and is all that stops being free;
      the split remainders stay free. */
  lemma {:induction false} TakeAchieves(v: View, want: nat, s: nat, u: nat)
    requires Packed(v) && want <= s <= v.top && u in v.free[s]
    ensures var w := Take(v, want, s, u); var b := Block(u, want);
            && Packed(w) && (Tiled(v) ==> Tiled(w))
            && w.used == v.used[u := want] && u !in v.used && u > 0
            && b.Aligned()
            && (forall x: nat :: b.Covers(x) ==> FreeUnit(v, x))
            && (forall x: nat :: FreeUnit(w, x) <==> FreeUnit(v, x) && !b.Covers(x))
    decreases s
  {
    if s == want {
      MarkRepacks(v, want, u);
      assert Holding(Free(s), Block(u, want)) in Family(v);
    } else {
      SplitFreeRepacks(v, s, u);
      TakeAchieves(SplitFree(v, s, u), want, s - 1, u);
    }
  }

  /** Level by level: each level below the source gains exactly one remainder, the source loses `u`. */
  lemma {:induction false} TakeLevels(v: View, want: nat, s: nat, u: nat, j: nat)
    requires Packed(v) && want <= s <= v.top && u in v.free[s] && j <= v.top
    ensures var w := Take(v, want, s, u);
            && |w.free| == |v.free| && w.top == v.top
            && w.free[j] == if j == s then v.free[j] - {u}
                            else if want <= j < s then v.free[j] + {u + Pow2(j)} else v.free[j]
    decreases s
  {
    if s > want {
      if u in v.free[s - 1] {
        OnePlace(Family(v), Holding(Free(s), Block(u, s)), Holding(Free(s - 1), Block(u, s - 1)));
      }
      SplitFreeRepacks(v, s, u);
      TakeLevels(SplitFree(v, s, u), want, s - 1, u, j);
    }
  }

  function Return(v: View, u: nat): View
    requires u in v.used && v.used[u] < |v.free|
  {
    v.(used := v.used - {u}, free := v.free[v.used[u] := v.free[v.used[u]] + {u}])
  }

  /** `free` puts a block back at the level it was allocated at, and frees exactly its units. */
  lemma ReturnAchieves(v: View, u: nat)
    requires Packed(v) && u in v.used && u != 0
    ensures v.used[u] <= v.top
    ensures var w := Return(v, u); var b := Block(u, v.used[u]);
            && Packed(w) && (Tiled(v) ==> Tiled(w))
            && (forall x: nat :: FreeUnit(w, x) <==> FreeUnit(v, x) || b.Covers(x))
  {
    var l := v.used[u];
    var h, g := Holding(Used, Block(u, l)), Holding(Free(l), Block(u, l));
    assert h in Family(v);
    var w := Return(v, u);
    assert Family(w) == Family(v) - iset{h} + iset{g};
    MoveRepacks(Family(v), Family(w), h, g, v.top);
    forall x: nat ensures FreeUnit(w, x) <==> FreeUnit(v, x) || Block(u, l).Covers(x) {
      ReturnedUnit(v, u, x);
    }
  }

  /** Level by level: the list of the level the block was allocated at gains the block, which it did not have,
      and no other list changes. */
  lemma ReturnLevels(v: View, u: nat, j: nat)
    requires Packed(v) && u in v.used && u != 0 && j <= v.top
    ensures v.used[u] <= v.top && u !in v.free[j]
    ensures var w := Return(v, u);
            && |w.free| == |v.free| && w.top == v.top && w.used == v.used - {u}
            && w.free[j] == if j == v.used[u] then v.free[j] + {u} else v.free[j]
  {
    assert Holding(Used, Block(u, v.used[u])) in Family(v);
    if u in v.free[j] { OneUse(v, u, Holding(Free(j), Block(u, j))); }
  }

  /** Right after a block is freed, a search for its level ends at that level, and taking the block out again
      restores the zone. */
  lemma AllocUndoesFree(v: View, u: nat)
    requires Packed(v) && u in v.used && u != 0
    ensures v.used[u] <= v.top
    ensures var l, w := v.used[u], Return(v, u);
            FirstLevel(w, l) == l && u in w.free[l] && Take(w, l, l, u) == v
  {
    ReturnLevels(v, u, 0);
    var l, w := v.used[u], Return(v, u);
    forall j | 0 <= j <= v.top ensures Take(w, l, l, u).free[j] == v.free[j] { ReturnLevels(v, u, j); }
    assert Take(w, l, l, u).free == v.free;
    assert Take(w, l, l, u).used == v.used;
  }

  lemma ReturnedUnit(v: View, u: nat, x: nat)
    requires Packed(v) && u in v.used && u != 0 && v.used[u] <= v.top
    ensures FreeUnit(Return(v, u), x) <==> FreeUnit(v, x) || Block(u, v.used[u]).Covers(x)
  {
    var w, l := Return(v, u), v.used[u];
    if k, y :| 0 <= k < |w.free| && y in w.free[k] && Block(y, k).Covers(x) {
      assert (k == l && y == u) || y in v.free[k];
    }
    if k, y :| 0 <= k < |v.free| && y in v.free[k] && Block(y, k).Covers(x) { assert y in w.free[k]; }
    assert u in w.free[l];
  }

  // ---------------------------------------------------------------- merge

  /** `u` starts a free block of level `l` whose buddy is free at that level too. */
  predicate Mergeable(v: View, l: nat, u: nat)
    requires l < |v.free|
  {
    u in v.free[l] && Block(u, l).Buddy().unit in v.free[l]
  }

  /** `merge(level)`: free buddies move up a level, the others stay. */
  function MergeLevel(v: View, l: nat): View
    requires l + 1 < |v.free|
  {
    var up := set u | u in v.free[l] && Mergeable(v, l, u) && Block(u, l).IsLeft();
    var stay := set u | u in v.free[l] && !Mergeable(v, l, u);
    v.(free := v.free[l := stay][l + 1 := v.free[l + 1] + up])
  }

  /** `merge()`, up to but not including level `n`. */
  function MergeBelow(v: View, n: nat): (w: View)
    requires n < |v.free|
    ensures |w.free| == |v.free| && w.top == v.top && w.used == v.used
  {
    if n == 0 then v else MergeLevel(MergeBelow(v, n - 1), n - 1)
  }

  function Merge(v: View): View
    requires |v.free| == v.top + 1
  {
    MergeBelow(v, v.top)
  }

  ghost function Lifted(v: View, l: nat): iset<Holding<Side>> {
    iset h: Holding<Side> |
      if h.place == Work then Holding(Free(l), h.block) in Family(v) else h in Family(v) && h.place != Free(l)
  }

  ghost function Paired(v: View, l: nat): iset<Holding<Side>> {
    iset h: Holding<Side> |
      match h.place
      case Work => false
      case Alone => h.block.level == l < |v.free| && h.block.unit in v.free[l] && !Mergeable(v, l, h.block.unit)
      case Joined => h.block.level == l + 1 && h.block.Aligned() && l < |v.free|
                     && h.block.Left().unit in v.free[l] && h.block.Right().unit in v.free[l]
      case _ => h in Family(v) && h.place != Free(l)
  }

  ghost function Raised(v: View, l: nat): iset<Holding<Side>> {
    iset h: Holding<Side> |
      match h.place
      case Joined => false
      case Free(k) => h in Paired(v, l) || (k == l + 1 && Holding(Joined, h.block) in Paired(v, l))
      case _ => h in Paired(v, l)
  }

  lemma LiftRepacks(v: View, l: nat)
    requires Packs(Family(v), v.top) && l < |v.free|
    ensures Repacked(Family(v), Lifted(v, l), v.top)
  {
    BulkMoveRepacks(Family(v), Lifted(v, l), Free(l), Work, v.top);
  }

  lemma PairRepacks(v: View, l: nat)
    requires Packs(Family(v), v.top) && |v.free| == v.top + 1 && l < v.top
    ensures Repacked(Family(v), Paired(v, l), v.top)
  {
    LiftRepacks(v, l);
    forall b: Block
      ensures Holding(Alone, b) in Paired(v, l) <==>
                Holding(Work, b) in Lifted(v, l) && Holding(Work, b.Buddy()) !in Lifted(v, l)
    {
      if b.level == l { assert b.Buddy() == Block(Block(b.unit, l).Buddy().unit, l); }
    }
    PairingRepacks(Lifted(v, l), Paired(v, l), Work, Joined, Alone, l, v.top);
  }

  lemma JoinedIsUp(v: View, l: nat, b: Block)
    requires Packs(Family(v), v.top) && |v.free| == v.top + 1 && l < v.top
    ensures Holding(Joined, b) in Paired(v, l) <==>
              b.level == l + 1 && b.unit in v.free[l] && Mergeable(v, l, b.unit) && Block(b.unit, l).IsLeft()
  {
    var c := Block(b.unit, l);
    if b.level == l + 1 {
      if b.Aligned() { HalvesAligned(b); }
      if b.unit in v.free[l] {
        assert Holding(Free(l), c) in Family(v);
        FamilyAligned(c);
        if c.IsLeft() { assert c == c.Parent().Left(); }
      }
    }
  }

  lemma RaiseRepacks(v: View, l: nat)
    requires Packs(Family(v), v.top) && |v.free| == v.top + 1 && l < v.top
    ensures Repacked(Family(v), Raised(v, l), v.top)
  {
    PairRepacks(v, l);
    BulkMoveRepacks(Paired(v, l), Raised(v, l), Joined, Free(l + 1), v.top);
  }

  lemma MergedFamily(v: View, l: nat, h: Holding<Side>)
    requires Packs(Family(v), v.top) && |v.free| == v.top + 1 && l < v.top
    ensures h in Family(MergeLevel(v, l)) <==>
              match h.place
              case Alone => false
              case Free(k) => h in Raised(v, l) || (k == l && Holding(Alone, h.block) in Raised(v, l))
              case _ => h in Raised(v, l)
  {
    JoinedIsUp(v, l, h.block);
  }

  lemma MergeLevelFamily(v: View, l: nat)
    requires Packs(Family(v), v.top) && |v.free| == v.top + 1 && l < v.top
    ensures Repacked(Family(v), Family(MergeLevel(v, l)), v.top)
  {
    RaiseRepacks(v, l);
    forall h: Holding<Side>
      ensures h in Family(MergeLevel(v, l)) <==>
              match h.place
              case Alone => false
              case Free(k) => h in Raised(v, l) || (k == l && Holding(Alone, h.block) in Raised(v, l))
              case _ => h in Raised(v, l)
    {
      MergedFamily(v, l, h);
    }
    BulkMoveRepacks(Raised(v, l), Family(MergeLevel(v, l)), Alone, Free(l), v.top);
  }

  /** One level of merging reshapes free blocks and touches nothing else. */
  lemma MergeLevelAchieves(v: View, l: nat)
    requires Packed(v) && l < v.top
    ensures var w := MergeLevel(v, l); Packed(w) && SameFreeUnits(v, w) && (Tiled(v) ==> Tiled(w))
  {
    MergeLevelFamily(v, l);
    CoverFixesFree(v, MergeLevel(v, l));
  }

  ghost predicate NoBuddies(v: View, l: nat)
    requires l < |v.free|
  {
    forall u :: u in v.free[l] ==> !Mergeable(v, l, u)
  }

  /** Merging a level leaves no buddies at it, and undoes no level below. */
  lemma MergeLevelPairsUp(v: View, l: nat, j: nat)
    requires l + 1 < |v.free| && j <= l && (j < l ==> NoBuddies(v, j))
    ensures NoBuddies(MergeLevel(v, l), j)
  {
    var w := MergeLevel(v, l);
    forall u | u in w.free[j] ensures !Mergeable(w, j, u) {
      if j < l { assert !Mergeable(v, j, u); } else { assert !Mergeable(v, l, u); }
    }
  }

  ghost predicate NoBuddiesBelow(v: View, n: nat) {
    forall l :: 0 <= l < n && l < |v.free| ==> NoBuddies(v, l)
  }

  lemma {:induction false} MergeBelowPairsUp(v: View, n: nat)
    requires n < |v.free|
    ensures NoBuddiesBelow(MergeBelow(v, n), n)
  {
    if n > 0 {
      var w := MergeBelow(v, n - 1);
      MergeBelowPairsUp(v, n - 1);
      var after := MergeLevel(w, n - 1);
      forall l | 0 <= l < n ensures NoBuddies(after, l) {
        MergeLevelPairsUp(w, n - 1, l);
      }
    }
  }

  lemma SameFreeUnitsTrans(u: View, v: View, w: View)
    requires SameFreeUnits(u, v) && SameFreeUnits(v, w)
    ensures SameFreeUnits(u, w)
  {}

  lemma MergeOneMore(v: View, w: View, l: nat)
    requires Packed(w) && SameFreeUnits(v, w) && l < w.top
    ensures Packed(MergeLevel(w, l)) && SameFreeUnits(v, MergeLevel(w, l))
  {
    MergeLevelAchieves(w, l);
    SameFreeUnitsTrans(v, w, MergeLevel(w, l));
  }

  lemma {:induction false} MergeBelowKeeps(v: View, n: nat)
    requires Packed(v) && n <= v.top
    ensures Packed(MergeBelow(v, n)) && SameFreeUnits(v, MergeBelow(v, n))
  {
    if n > 0 {
      MergeBelowKeeps(v, n - 1);
      MergeOneMore(v, MergeBelow(v, n - 1), n - 1);
    }
  }

  lemma {:induction false} MergeBelowTiles(v: View, n: nat)
    requires Tiled(v) && n <= v.top
    ensures Tiled(MergeBelow(v, n))
  {
    if n > 0 {
      MergeBelowTiles(v, n - 1);
      MergeLevelAchieves(MergeBelow(v, n - 1), n - 1);
    }
  }

  lemma MergeBelowAchieves(v: View, n: nat)
    requires Packed(v) && n <= v.top
    ensures var w := MergeBelow(v, n); Packed(w) && SameFreeUnits(v, w) && (Tiled(v) ==> Tiled(w))
    ensures forall l :: 0 <= l < n ==> NoBuddies(MergeBelow(v, n), l)
  {
    MergeBelowKeeps(v, n);
    MergeBelowPairsUp(v, n);
    if Tiled(v) { MergeBelowTiles(v, n); }
  }

  // ---------------------------------------------------------------- coarsest tiling

  /** Every unit of the block is free. */
  ghost predicate AllFree(v: View, b: Block) {
    b.Aligned() && b.level <= v.top && forall x :: b.Covers(x) ==> FreeUnit(v, x)
  }

  /** A run of free units that no larger aligned run of free units contains. */
  ghost predicate MaximalRun(v: View, b: Block) {
    AllFree(v, b) && !AllFree(v, b.Parent())
  }

  /** With no two free buddies below the top level, every run of free units lies inside one free block. */
  lemma {:induction false} RunInOneBlock(v: View, b: Block) returns (c: Block)
    requires Packed(v) && AllFree(v, b)
    requires forall l :: 0 <= l < v.top ==> NoBuddies(v, l)
    ensures c.level < |v.free| && c.unit in v.free[c.level] && c.Aligned() && b.Within(c) && b.level <= c.level
    decreases b.level
  {
    if b.level == 0 {
      assert FreeUnit(v, b.unit);
      var l, u :| 0 <= l < |v.free| && u in v.free[l] && Block(u, l).Covers(b.unit);
      c := Block(u, l);
      assert Holding(Free(l), c) in Family(v);
    } else {
      HalvesAligned(b);
      var p := RunInOneBlock(v, b.Left());
      var q := RunInOneBlock(v, b.Right());
      NotBothHalves(v, b);
      c := if p.level >= b.level then p else q;
      Nested(b, c);
    }
  }

  lemma NotBothHalves(v: View, b: Block)
    requires b.Aligned() && 0 < b.level < |v.free| && NoBuddies(v, b.level - 1)
    ensures b.Left().unit !in v.free[b.level - 1] || b.Right().unit !in v.free[b.level - 1]
  {
    HalvesAligned(b);
    assert !Mergeable(v, b.level - 1, b.unit);
  }

  lemma FreeBlocksAreMaximal(v: View, b: Block)
    requires Packed(v) && b.level <= v.top
    requires forall l :: 0 <= l < v.top ==> NoBuddies(v, l)
    ensures b.unit in v.free[b.level] <==> MaximalRun(v, b)
  {
    if b.unit in v.free[b.level] {
      assert Holding(Free(b.level), b) in Family(v);
      FamilyAligned(b);
      assert AllFree(v, b);
      if AllFree(v, b.Parent()) {
        var c := RunInOneBlock(v, b.Parent());
        OnlyFreeBlock(v, b, c);
      }
    }
    if MaximalRun(v, b) {
      var c := RunInOneBlock(v, b);
      if c != b { ParentIsFree(v, b, c); }
    }
  }

  lemma OnlyFreeBlock(v: View, b: Block, c: Block)
    requires Packed(v) && b.level < |v.free| && b.unit in v.free[b.level] && c.level < |v.free|
             && c.unit in v.free[c.level]
    requires b.Within(c)
    ensures b == c
  {
    var h, g := Holding(Free(b.level), b), Holding(Free(c.level), c);
    assert h in Family(v) && g in Family(v);
  }

  lemma ParentIsFree(v: View, b: Block, c: Block)
    requires Packed(v) && b.Aligned() && c.level < |v.free| && c.unit in v.free[c.level]
    requires b.Within(c) && b.level <= c.level && b != c
    ensures AllFree(v, b.Parent())
  {
    assert Holding(Free(c.level), c) in Family(v);
    FamilyAligned(b);
    ParentWithin(b, c);
    assert forall x :: b.Parent().Covers(x) ==> c.Covers(x);
  }

  lemma ParentWithin(b: Block, c: Block)
    requires b.Aligned() && c.Aligned() && b.Within(c) && b.level <= c.level && b != c
    ensures b.Parent().Within(c) && b.Parent().level <= c.level
  {
    FamilyAligned(b);
    Nested(b.Parent(), c);
  }

  /** `merge()` yields the coarsest tiling: its free blocks are exactly the maximal runs of free units. */
  lemma MergeIsCoarsest(v: View, b: Block)
    requires Packed(v) && b.level <= v.top
    ensures b.unit in Merge(v).free[b.level] <==> MaximalRun(v, b)
  {
    MergeBelowAchieves(v, v.top);
    FreeBlocksAreMaximal(Merge(v), b);
    assert forall c: Block :: AllFree(v, c) == AllFree(Merge(v), c);
  }

  /** The result depends only on which units are free, not on how they were cut up before. */
  lemma MergeDependsOnFreeUnits(v: View, w: View)
    requires Packed(v) && Packed(w) && SameFreeUnits(v, w)
    ensures Merge(v) == Merge(w)
  {
    assert forall c: Block :: AllFree(v, c) == AllFree(w, c);
    forall l, u: nat | 0 <= l <= v.top ensures u in Merge(v).free[l] <==> u in Merge(w).free[l] {
      MergeIsCoarsest(v, Block(u, l));
      MergeIsCoarsest(w, Block(u, l));
    }
    assert forall l :: 0 <= l <= v.top ==> Merge(v).free[l] == Merge(w).free[l];
  }

  /** Allocating a block and freeing it again is invisible once the zone is merged. */
  lemma FreeUndoesAlloc(v: View, want: nat, s: nat, u: nat)
    requires Packed(v) && want <= s <= v.top && u in v.free[s]
    ensures Merge(Return(Take(v, want, s, u), u)) == Merge(v)
  {
    TakeAchieves(v, want, s, u);
    var w := Take(v, want, s, u);
    ReturnAchieves(w, u);
    assert Return(w, u).used == v.used;
    assert forall x: nat :: FreeUnit(Return(w, u), x) <==> FreeUnit(v, x);
    MergeDependsOnFreeUnits(v, Return(w, u));
  }

  /** Right after a full merge, `alloc` finds nothing exactly when no aligned run of free units is
      large enough. */
  lemma AllocFailsOnlyWhenFull(v: View, want: nat)
    requires Packed(v)
    ensures FirstLevel(Merge(v), want) > v.top <==> forall b: Block :: b.level == want ==> !AllFree(v, b)
  {
    MergeBelowAchieves(v, v.top);
    var w := Merge(v);
    assert forall c: Block :: AllFree(v, c) == AllFree(w, c);
    var s := FirstLevel(w, want);
    if b: Block :| b.level == want && AllFree(w, b) {
      var c := RunInOneBlock(w, b);
      assert w.free[c.level] != {};
    }
    if s <= v.top {
      var u :| u in w.free[s];
      var c := Block(u, s);
      assert Holding(Free(s), c) in Family(w);
      StartsAligned(c, want);
      Nested(Block(u, want), c);
      assert AllFree(w, Block(u, want));
    }
  }

  lemma {:induction false} StartsAligned(c: Block, l: nat)
    requires c.Aligned() && l <= c.level
    ensures Block(c.unit, l).Aligned()
    decreases c.level
  {
    if l < c.level {
      HalvesAligned(c);
      StartsAligned(c.Left(), l);
    }
  }
}
