/** The offline collector, level by level, as facts about a view and the set of bits it has marked.

    Before level `l` every run of `2^l` units is marked whole or not at all, and a unit is marked exactly
    when a block below level `l` covers it.  The collector frees a clear half of a run whose other half
    is marked: no block can cover that half, because a block of that size or larger would cover both. */
module ZoneCollector {
  import opened Dyadic
  import opened Tiling
  import opened ZoneView
  import opened Bitmaps

  ghost predicate CoveredBelow(v: View, n: nat, x: nat) {
    exists h :: h in Family(v) && h.block.level < n && h.block.Covers(x)
  }

  /** The marked units are those of the blocks below level `n`. */
  ghost predicate MarkedBelow(v: View, bits: set<nat>, n: nat) {
    && (forall x :: x in bits ==> x < Pow2(v.top))
    && forall x :: 0 <= x < Pow2(v.top) ==> (x in bits <==> CoveredBelow(v, n, x))
  }

  predicate SameRun(x: nat, y: nat, l: nat) { Shr(x, l) == Shr(y, l) }

  /** Runs of `2^l` units are marked whole or not at all. */
  ghost predicate Uniform(bits: set<nat>, l: nat) {
    forall x: nat, y: nat :: SameRun(x, y, l) ==> (x in bits <==> y in bits)
  }

  /** The units of a block. */
  function Units(b: Block): set<nat> { Run(b.unit, b.End()) }

  lemma UniformGrows(bits: set<nat>, l: nat, b: Block)
    requires Uniform(bits, l) && b.Aligned() && b.level == l
    ensures Uniform(bits + Units(b), l)
  {
    forall x: nat, y: nat | SameRun(x, y, l) ensures x in bits + Units(b) <==> y in bits + Units(b) {
      CoversShr(b, x);
      CoversShr(b, y);
    }
  }

  /** The whole block is marked, or none of it. */
  lemma WholeOrNot(bits: set<nat>, b: Block, x: nat)
    requires Uniform(bits, b.level) && b.Aligned() && b.Covers(x)
    ensures x in bits <==> b.unit in bits
    ensures b.unit in bits <==> Units(b) <= bits
  {
    forall y: nat | b.Covers(y) ensures y in bits <==> b.unit in bits {
      CoversShr(b, y);
      assert SameRun(y, b.unit, b.level);
    }
    assert b.Covers(b.unit) && b.unit in Units(b);
  }

  // ---------------------------------------------------------------- marking one level

  /** The level-`l` blocks marked so far, by where they start. */
  ghost predicate MarkedSome(v: View, bits: set<nat>, l: nat, done: set<nat>) {
    && (forall x :: x in bits ==> x < Pow2(v.top))
    && forall x :: 0 <= x < Pow2(v.top) ==> (x in bits <==> CoveredBelow(v, l, x) || CoveredFrom(done, l, x))
  }

  ghost predicate CoveredFrom(done: set<nat>, l: nat, x: nat) {
    exists u :: u in done && Block(u, l).Covers(x)
  }

  ghost predicate StartsHere(v: View, l: nat, u: nat) {
    (u in v.used && v.used[u] == l) || (l < |v.free| && u in v.free[l])
  }

  /** The blocks of level `l`, used or free. */
  lemma MarkingStarts(v: View, bits: set<nat>, l: nat)
    requires MarkedBelow(v, bits, l)
    ensures MarkedSome(v, bits, l, {})
  {}

  lemma MarkOne(v: View, bits: set<nat>, l: nat, done: set<nat>, u: nat)
    requires Packed(v) && MarkedSome(v, bits, l, done) && Uniform(bits, l) && StartsHere(v, l, u)
    ensures l <= v.top && u + Pow2(l) <= Pow2(v.top)
    ensures MarkedSome(v, bits + Units(Block(u, l)), l, done + {u}) && Uniform(bits + Units(Block(u, l)), l)
  {
    StartsInZone(v, l, u);
    UniformGrows(bits, l, Block(u, l));
    var run := Units(Block(u, l));
    forall x | 0 <= x < Pow2(v.top)
      ensures x in bits + run <==> CoveredBelow(v, l, x) || CoveredFrom(done + {u}, l, x)
    {
      if CoveredFrom(done, l, x) {
        var w :| w in done && Block(w, l).Covers(x);
        assert w in done + {u};
      }
      if x in run { assert u in done + {u}; }
    }
  }

  lemma StartsInZone(v: View, l: nat, u: nat)
    requires Packed(v) && StartsHere(v, l, u)
    ensures l <= v.top && u + Pow2(l) <= Pow2(v.top) && Block(u, l).Aligned()
  {
    var h := Holding(if u in v.used && v.used[u] == l then Used else Free(l), Block(u, l));
    assert h in Family(v);
    WithinZone(h.block, v.top);
  }

  lemma MarkingEnds(v: View, bits: set<nat>, l: nat, done: set<nat>)
    requires Packed(v) && MarkedSome(v, bits, l, done) && forall u :: u in done <==> StartsHere(v, l, u)
    ensures MarkedBelow(v, bits, l + 1)
  {
    forall x | 0 <= x < Pow2(v.top) ensures x in bits <==> CoveredBelow(v, l + 1, x) {
      if CoveredBelow(v, l, x) {
        var h :| h in Family(v) && h.block.level < l && h.block.Covers(x);
        assert h.block.level < l + 1;
      }
      if CoveredFrom(done, l, x) {
        var u :| u in done && Block(u, l).Covers(x);
        assert StartsHere(v, l, u);
        assert Holding(if u in v.used && v.used[u] == l then Used else Free(l), Block(u, l)) in Family(v);
      }
      if CoveredBelow(v, l + 1, x) {
        var h :| h in Family(v) && h.block.level < l + 1 && h.block.Covers(x);
        if h.block.level == l { assert StartsHere(v, l, h.block.unit); }
      }
    }
  }

  // ---------------------------------------------------------------- filling one hole

  function Filled(v: View, l: nat, u: nat): View
    requires l < |v.free|
  {
    v.(free := v.free[l := v.free[l] + {u}])
  }

  /** A clear half whose other half is marked. */
  ghost predicate Hole(v: View, bits: set<nat>, b: Block) {
    && Packed(v) && b.level < v.top && b.Aligned() && b.unit < Pow2(v.top)
    && MarkedBelow(v, bits, b.level + 1) && Uniform(bits, b.level)
    && b.unit !in bits && b.Buddy().unit in bits
  }

  lemma NoneInHole(v: View, bits: set<nat>, b: Block, h: Holding<Side>)
    requires Hole(v, bits, b) && h in Family(v)
    ensures h.block.Disjoint(b)
  {
    if h.block.level <= b.level {
      Nested(h.block, b);
      assert CoveredBelow(v, b.level + 1, h.block.unit);
      if h.block.Within(b) { WholeOrNot(bits, b, h.block.unit); }
    } else {
      FamilyAligned(b);
      Nested(b.Parent(), h.block);
      var x := b.Buddy().unit;
      var g :| g in Family(v) && g.block.level < b.level + 1 && g.block.Covers(x);
      assert g != h;
      ParentHoldsBoth(b);
      assert g.block.Disjoint(h.block);
    }
  }

  lemma ParentHoldsBoth(b: Block)
    requires b.Aligned()
    ensures b.Within(b.Parent()) && b.Buddy().Within(b.Parent()) && b.level + 1 == b.Parent().level
  {
    FamilyAligned(b);
  }

  lemma FillPacks(v: View, bits: set<nat>, b: Block)
    requires Hole(v, bits, b)
    ensures Packed(Filled(v, b.level, b.unit))
    ensures b.unit !in v.used && b.unit > 0 && forall l :: 0 <= l <= v.top ==> b.unit !in v.free[l]
    ensures !Tiled(v)
  {
    forall h | h in Family(v) ensures h.block.Disjoint(b) { NoneInHole(v, bits, b, h); }
    AddedPacks(v, b);
    HoleIsFresh(v, b);
  }

  lemma AddedPacks(v: View, b: Block)
    requires Packed(v) && b.level < v.top && b.Aligned() && b.unit < Pow2(v.top)
    requires forall g :: g in Family(v) ==> g.block.Disjoint(b)
    ensures Packed(Filled(v, b.level, b.unit))
  {
    assert Family(Filled(v, b.level, b.unit)) == Family(v) + iset{Holding(Free(b.level), b)};
  }

  lemma HoleIsFresh(v: View, b: Block)
    requires Packed(v) && b.unit < Pow2(v.top)
    requires forall g :: g in Family(v) ==> g.block.Disjoint(b)
    ensures b.unit !in v.used && b.unit > 0 && forall l :: 0 <= l <= v.top ==> b.unit !in v.free[l]
    ensures !Tiled(v)
  {
    UsedIsHeld(v, b.unit);
    assert Holding(Used, Block(0, 0)) in Family(v);
    forall l | 0 <= l <= v.top ensures b.unit !in v.free[l] {
      NotOccupied(v, b, Holding(Free(l), Block(b.unit, l)));
    }
    assert !CoveredBy(Family(v), b.unit);
  }

  lemma UsedIsHeld(v: View, u: nat)
    ensures u in v.used ==> Holding(Used, Block(u, v.used[u])) in Family(v)
  {}

  lemma NotOccupied(v: View, b: Block, h: Holding<Side>)
    requires forall g :: g in Family(v) ==> g.block.Disjoint(b)
    requires !h.block.Disjoint(b)
    ensures h !in Family(v)
  {}

  lemma FillMarks(v: View, bits: set<nat>, b: Block)
    requires Hole(v, bits, b)
    ensures var w, bits' := Filled(v, b.level, b.unit), bits + Units(b);
            MarkedBelow(w, bits', b.level + 1) && Uniform(bits', b.level) && b.End() <= Pow2(v.top)
  {
    var w, bits', g := Filled(v, b.level, b.unit), bits + Units(b), Holding(Free(b.level), b);
    WithinZone(b, v.top);
    UniformGrows(bits, b.level, b);
    assert Family(w) == Family(v) + iset{g};
    forall x | 0 <= x < Pow2(v.top) ensures x in bits' <==> CoveredBelow(w, b.level + 1, x) {
      if CoveredBelow(v, b.level + 1, x) {
        var h :| h in Family(v) && h.block.level < b.level + 1 && h.block.Covers(x);
        assert h in Family(w);
      }
      if b.Covers(x) { assert g in Family(w); }
      if CoveredBelow(w, b.level + 1, x) {
        var h :| h in Family(w) && h.block.level < b.level + 1 && h.block.Covers(x);
        assert h == g || CoveredBelow(v, b.level + 1, x);
      }
    }
  }

  // ---------------------------------------------------------------- the pairs of one level

  /** Below pair `k` the two halves of every pair agree. */
  ghost predicate PairsBelow(bits: set<nat>, l: nat, k: nat) {
    forall x: nat, y: nat :: SameRun(x, y, l + 1) && Shr(x, l + 1) < k ==> (x in bits <==> y in bits)
  }

  function LeftOf(k: nat, l: nat): Block { Nth(2 * k, l) }
  function RightOf(k: nat, l: nat): Block { Nth(2 * k + 1, l) }

  lemma Pair(k: nat, l: nat)
    ensures LeftOf(k, l).Aligned() && RightOf(k, l).Aligned()
    ensures LeftOf(k, l).Buddy() == RightOf(k, l) && RightOf(k, l).Buddy() == LeftOf(k, l)
    ensures RightOf(k, l).unit == LeftOf(k, l).unit + Pow2(l) && LeftOf(k, l).unit == Shl(k, l + 1)
  {
    NthAligned(2 * k, l);
    NthAligned(2 * k + 1, l);
    ShrShl(2 * k, l);
    ShrShl(2 * k + 1, l);
    ShlAdd(2 * k, l);
    ShlStep(k, l);
  }

  lemma PairInZone(k: nat, l: nat, top: nat)
    requires l < top && k < Pow2(top - l - 1)
    ensures RightOf(k, l).End() <= Pow2(top)
  {
    Pair(k, l);
    ShrShl(2 * k + 1, l);
    assert Pow2(top - l) == 2 * Pow2(top - l - 1);
    ShrRange(RightOf(k, l).unit, l, top);
    WithinZone(RightOf(k, l), top);
  }

  /** Once the two halves agree, so does the whole pair. */
  lemma PairDone(bits: set<nat>, l: nat, k: nat)
    requires Uniform(bits, l) && PairsBelow(bits, l, k)
    requires LeftOf(k, l).unit in bits <==> RightOf(k, l).unit in bits
    ensures PairsBelow(bits, l, k + 1)
  {
    Pair(k, l);
    forall x: nat | Shr(x, l + 1) == k ensures x in bits <==> LeftOf(k, l).unit in bits {
      var b := if Shr(x, l) % 2 == 0 then LeftOf(k, l) else RightOf(k, l);
      ShrShl(Shr(x, l), l);
      CoversShr(b, x);
      WholeOrNot(bits, b, x);
    }
  }

  /** Filling a half of pair `k` leaves the pairs below it alone. */
  lemma FillKeepsPairs(bits: set<nat>, l: nat, k: nat, b: Block)
    requires PairsBelow(bits, l, k) && (b == LeftOf(k, l) || b == RightOf(k, l))
    ensures PairsBelow(bits + Units(b), l, k)
  {
    Pair(k, l);
    ShrShl(2 * k, l);
    ShrShl(2 * k + 1, l);
    forall x: nat | Shr(x, l + 1) < k ensures x in bits + Units(b) <==> x in bits {
      CoversShr(b, x);
    }
  }

  /** Past the last pair, runs of the next size are uniform. */
  lemma PairsComplete(v: View, bits: set<nat>, l: nat, k: nat)
    requires l < v.top && MarkedBelow(v, bits, l + 1) && PairsBelow(bits, l, k) && k >= Pow2(v.top - l - 1)
    ensures Uniform(bits, l + 1)
  {
    forall x: nat, y: nat | SameRun(x, y, l + 1) ensures x in bits <==> y in bits {
      ShrRange(x, l + 1, v.top);
      ShrRange(y, l + 1, v.top);
    }
  }

  // ---------------------------------------------------------------- the collector's progress

  /** `w` is `v` with free blocks added. */
  ghost predicate OnlyAdds(v: View, w: View) {
    && w.top == v.top && w.used == v.used && |w.free| == |v.free|
    && forall l :: 0 <= l < |v.free| ==> v.free[l] <= w.free[l]
  }

  /** No block covers any part of `b`, but some block covers part of the block twice its size: a leaked run
      that cannot be made larger. */
  ghost predicate Leaked(v: View, b: Block) {
    && b.Aligned() && b.level < v.top && b.unit < Pow2(v.top)
    && (forall h :: h in Family(v) ==> h.block.Disjoint(b))
    && exists x: nat :: CoveredIn(v, b.Parent(), x)
  }

  ghost predicate CoveredIn(v: View, b: Block, x: nat) { b.Covers(x) && CoveredBy(Family(v), x) }

  /** Every block that `w` has and `v` has not is a leaked run of `v`, whole. */
  ghost predicate AddsLeaked(v: View, w: View) {
    forall l, u :: 0 <= l < |w.free| && u in w.free[l] ==> Explained(v, l, u)
  }

  ghost predicate Explained(v: View, l: nat, u: nat) { (l < |v.free| && u in v.free[l]) || Leaked(v, Block(u, l)) }

  /** A marked unit lies in a run of the next size with a unit that `v` covers. */
  lemma MarkedIsNear(v: View, w: View, h: Holding<Side>, l: nat, x: nat) returns (y: nat)
    requires OnlyAdds(v, w) && AddsLeaked(v, w) && Packed(w)
    requires h in Family(w) && h.block.level <= l && h.block.Covers(x)
    ensures SameRun(x, y, l + 1) && CoveredBy(Family(v), y)
  {
    if h in Family(v) {
      y := x;
    } else {
      var b := h.block;
      assert Explained(v, b.level, b.unit);
      y :| CoveredIn(v, b.Parent(), y);
      ParentHoldsBoth(b);
      FamilyAligned(b);
      CoversShr(b.Parent(), x);
      CoversShr(b.Parent(), y);
      ShrCompose(x, y, b.level + 1, l + 1);
    }
  }

  /** The other half of a hole keeps it from being larger. */
  lemma HoleIsNear(v: View, w: View, bits: set<nat>, b: Block) returns (y: nat)
    requires OnlyAdds(v, w) && AddsLeaked(v, w) && Hole(w, bits, b)
    ensures CoveredIn(v, b.Parent(), y)
  {
    var x := b.Buddy().unit;
    var h :| h in Family(w) && h.block.level < b.level + 1 && h.block.Covers(x);
    y := MarkedIsNear(v, w, h, b.level, x);
    FamilyAligned(b);
    ParentHoldsBoth(b);
    CoversShr(b.Parent(), x);
    CoversShr(b.Parent(), y);
  }

  /** The half that the collector frees is a leaked run. */
  lemma HoleIsLeaked(v: View, w: View, bits: set<nat>, b: Block)
    requires OnlyAdds(v, w) && AddsLeaked(v, w) && Hole(w, bits, b)
    ensures Leaked(v, b)
  {
    FamilyGrows(v, w);
    forall h | h in Family(v) ensures h.block.Disjoint(b) { NoneInHole(w, bits, b, h); }
    var y := HoleIsNear(v, w, bits, b);
  }

  lemma FamilyGrows(v: View, w: View)
    requires OnlyAdds(v, w)
    ensures Family(v) <= Family(w)
  {
    forall h | h in Family(v) ensures h in Family(w) {}
  }

  lemma FilledExplained(v: View, w: View, b: Block)
    requires AddsLeaked(v, w) && Leaked(v, b) && b.level < |w.free|
    ensures AddsLeaked(v, Filled(w, b.level, b.unit))
  {
    forall l, u | 0 <= l < |w.free| && u in Filled(w, b.level, b.unit).free[l] ensures Explained(v, l, u) {
      if u !in w.free[l] { assert Block(u, l) == b; }
    }
  }

  lemma LargerIsNotLeaked(v: View, b: Block, c: Block)
    requires Leaked(v, b) && c.Aligned() && b.Within(c) && b.level < c.level
    ensures !Leaked(v, c)
  {
    FamilyAligned(b);
    ParentHoldsBoth(b);
    Nested(b.Parent(), c);
    var y: nat :| CoveredIn(v, b.Parent(), y);
    var h :| h in Family(v) && h.block.Covers(y);
    assert !h.block.Disjoint(c);
  }

  /** Of two overlapping runs that are leaked and cannot be made larger, neither is larger. */
  lemma LeakedRunsAgree(v: View, b: Block, c: Block)
    requires Leaked(v, b) && Leaked(v, c) && !b.Disjoint(c) && b.level <= c.level
    ensures b == c
  {
    Nested(b, c);
    if b.level < c.level { LargerIsNotLeaked(v, b, c); } else { CoversShr(c, b.unit); }
  }

  /** A collection adds exactly the leaked runs of the zone, each as one block of its own level. */
  lemma CollectsExactly(v: View, w: View, l: nat, u: nat)
    requires Packed(v) && Tiled(w) && OnlyAdds(v, w) && AddsLeaked(v, w) && l < |w.free|
    ensures u in w.free[l] <==> u in v.free[l] || Leaked(v, Block(u, l))
  {
    if u in w.free[l] { assert Explained(v, l, u); }
    if Leaked(v, Block(u, l)) {
      var b := Block(u, l);
      assert CoveredBy(Family(w), u);
      var h :| h in Family(w) && h.block.Covers(u);
      assert !h.block.Disjoint(b);
      assert h !in Family(v);
      assert Explained(v, h.block.level, h.block.unit);
      if h.block.level <= l { LeakedRunsAgree(v, h.block, b); } else { LeakedRunsAgree(v, b, h.block); }
    }
  }

  /** Between two levels: `v` has become `w`, and the levels below `l` are done. */
  ghost predicate LevelsDone(v: View, w: View, bits: set<nat>, l: nat) {
    && OnlyAdds(v, w) && AddsLeaked(v, w) && (Tiled(v) ==> w == v)
    && MarkedBelow(w, bits, l) && Uniform(bits, l)
  }

  /** Within level `l`: its blocks are marked and the pairs below `k` are done. */
  ghost predicate PairsDone(v: View, w: View, bits: set<nat>, l: nat, k: nat) {
    && OnlyAdds(v, w) && AddsLeaked(v, w) && (Tiled(v) ==> w == v)
    && MarkedBelow(w, bits, l + 1) && Uniform(bits, l) && PairsBelow(bits, l, k)
  }

  lemma LevelsStart(v: View)
    requires |v.free| == v.top + 1
    ensures LevelsDone(v, v, {}, 0)
  {
    forall l, u | 0 <= l < |v.free| && u in v.free[l] ensures Explained(v, l, u) {}
  }

  lemma PairsEnd(v: View, w: View, bits: set<nat>, l: nat, k: nat)
    requires PairsDone(v, w, bits, l, k) && l < w.top && k >= Pow2(w.top - l - 1)
    ensures LevelsDone(v, w, bits, l + 1)
  {
    PairsComplete(w, bits, l, k);
  }

  lemma LevelsEnd(v: View, w: View, bits: set<nat>)
    requires LevelsDone(v, w, bits, w.top) && Packed(w) && w.top > 0
    ensures Tiled(w) && OnlyAdds(v, w) && AddsLeaked(v, w) && (Tiled(v) ==> w == v)
  {
    CollectedTiles(w, bits);
  }

  /** A leaked half is filled. */
  lemma FillHalfKept(v: View, w: View, bits: set<nat>, l: nat, k: nat, b: Block)
    requires PairsDone(v, w, bits, l, k) && Packed(w) && l < w.top && k < Pow2(w.top - l - 1)
    requires b == LeftOf(k, l) || b == RightOf(k, l)
    requires b.unit !in bits && b.Buddy().unit in bits
    ensures Hole(w, bits, b)
    ensures PairsDone(v, Filled(w, l, b.unit), bits + Units(b), l, k) && b.unit in Units(b)
  {
    Pair(k, l);
    PairInZone(k, l, w.top);
    FillPacks(w, bits, b);
    HoleFilled(v, w, bits, b);
    FillMarks(w, bits, b);
    FillKeepsPairs(bits, l, k, b);
  }

  lemma HoleFilled(v: View, w: View, bits: set<nat>, b: Block)
    requires OnlyAdds(v, w) && AddsLeaked(v, w) && Hole(w, bits, b)
    ensures OnlyAdds(v, Filled(w, b.level, b.unit)) && AddsLeaked(v, Filled(w, b.level, b.unit))
  {
    HoleIsLeaked(v, w, bits, b);
    FilledExplained(v, w, b);
  }

  lemma PairsNext(v: View, w: View, bits: set<nat>, l: nat, k: nat)
    requires PairsDone(v, w, bits, l, k) && (LeftOf(k, l).unit in bits <==> RightOf(k, l).unit in bits)
    ensures PairsDone(v, w, bits, l, k + 1)
  {
    PairDone(bits, l, k);
  }

  /** With every level below the top done, nothing is left uncovered: unit 0 is marked, so all is. */
  lemma CollectedTiles(v: View, bits: set<nat>)
    requires Packed(v) && v.top > 0 && MarkedBelow(v, bits, v.top) && Uniform(bits, v.top)
    ensures Tiled(v)
  {
    assert Holding(Used, Block(0, 0)) in Family(v);
    assert CoveredBelow(v, v.top, 0);
    forall x | 0 <= x < Pow2(v.top) ensures CoveredBy(Family(v), x) {
      ShrRange(x, v.top, v.top);
      ShrRange(0, v.top, v.top);
      assert SameRun(0, x, v.top);
      assert CoveredBelow(v, v.top, x);
    }
  }

  // ---------------------------------------------------------------- what a collection achieves

  /** A collection repairs a zone: it is tiled again, no block has changed, and the units that became free
      are exactly the leaked ones. */
  lemma LeakedBecomeFree(v: View, w: View, x: nat)
    requires Packed(v) && Tiled(w) && OnlyAdds(v, w) && x < Pow2(v.top)
    ensures FreeUnit(w, x) <==> FreeUnit(v, x) || !CoveredBy(Family(v), x)
  {
    CoveredMeans(v, x);
    CoveredMeans(w, x);
    FreeIsNotUsed(w, x);
    assert CoveredBy(Family(w), x);
    assert UsedUnit(v, x) == UsedUnit(w, x);
    if FreeUnit(v, x) {
      var l, u :| 0 <= l < |v.free| && u in v.free[l] && Block(u, l).Covers(x);
      assert u in w.free[l];
    }
  }
}
