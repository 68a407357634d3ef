/** Families of blocks, each tagged with the place that holds it, and the ways an allocator step
    changes such a family: blocks move, a block splits, buddies join. */
module Tiling {
  import opened Dyadic

  /** `place` holds `block`.  The same block in two places would be two holdings. */
  datatype Holding<P> = Holding(place: P, block: Block)

  ghost predicate WellPlaced<P(!new)>(family: iset<Holding<P>>, top: nat) {
    forall h :: h in family ==> h.block.Aligned() && h.block.level <= top && h.block.unit < Pow2(top)
  }

  ghost predicate PairwiseDisjoint<P(!new)>(family: iset<Holding<P>>) {
    forall h, g :: h in family && g in family && h != g ==> h.block.Disjoint(g.block)
  }

  ghost predicate CoveredBy<P(!new)>(family: iset<Holding<P>>, x: nat) {
    exists h :: h in family && h.block.Covers(x)
  }

  /** The blocks lie inside the zone, level-aligned, and no unit is in two of them. */
  ghost predicate Packs<P(!new)>(family: iset<Holding<P>>, top: nat) {
    WellPlaced(family, top) && PairwiseDisjoint(family)
  }

  /** The blocks tile the zone: every unit below `2^top` is in exactly one of them. */
  ghost predicate Tiles<P(!new)>(family: iset<Holding<P>>, top: nat) {
    Packs(family, top) && forall x :: 0 <= x < Pow2(top) ==> CoveredBy(family, x)
  }

  /** What a step keeps: the blocks still pack, and they cover the units they covered before. */
  ghost predicate Repacked<P(!new)>(family: iset<Holding<P>>, after: iset<Holding<P>>, top: nat) {
    Packs(after, top) && forall x: nat :: CoveredBy(after, x) <==> CoveredBy(family, x)
  }

  /** What `Tiles` means unit by unit. */
  lemma TilesExactlyOnce<P(!new)>(family: iset<Holding<P>>, top: nat, x: nat)
    requires Tiles(family, top)
    ensures x < Pow2(top) ==> exists h :: h in family && h.block.Covers(x)
    ensures forall h, g :: h in family && g in family && h.block.Covers(x) && g.block.Covers(x) ==> h == g
    ensures forall h :: h in family && h.block.Covers(x) ==> x < Pow2(top)
  {
    if x < Pow2(top) { assert CoveredBy(family, x); }
    forall h | h in family && h.block.Covers(x) ensures x < Pow2(top) {
      WithinZone(h.block, top);
    }
  }

  /** A block is in one place only. */
  lemma OnePlace<P(!new)>(family: iset<Holding<P>>, h: Holding<P>, g: Holding<P>)
    requires PairwiseDisjoint(family) && h in family && g in family && h.block.unit == g.block.unit
    ensures h == g
  {}

  /** A block that overlaps one of the family is not in the family itself. */
  lemma Occupied<P(!new)>(family: iset<Holding<P>>, h: Holding<P>, g: Holding<P>)
    requires PairwiseDisjoint(family) && h in family && g != h && !h.block.Disjoint(g.block)
    ensures g !in family
  {}

  /** A block changes hands. */
  lemma MoveRepacks<P(!new)>(family: iset<Holding<P>>, after: iset<Holding<P>>, h: Holding<P>, g: Holding<P>, top: nat)
    requires Packs(family, top)
    requires h in family && g.block == h.block
    requires after == family - iset{h} + iset{g}
    ensures Repacked(family, after, top)
  {
    forall x: nat ensures CoveredBy(after, x) <==> CoveredBy(family, x) {
      if c :| c in family && c.block.Covers(x) { assert (if c == h then g else c) in after; }
      if c :| c in after && c.block.Covers(x) { assert (if c == g then h else c) in family; }
    }
  }

  /** A block splits into its halves, which may go to different places. */
  ghost predicate SplitsInto<P(!new)>(family: iset<Holding<P>>, after: iset<Holding<P>>,
                                      h: Holding<P>, left: Holding<P>, right: Holding<P>)
  {
    && h in family && h.block.level > 0
    && left.block == h.block.Left() && right.block == h.block.Right()
    && after == family - iset{h} + iset{left, right}
  }

  lemma SplitPacks<P(!new)>(family: iset<Holding<P>>, after: iset<Holding<P>>,
                            h: Holding<P>, left: Holding<P>, right: Holding<P>, top: nat)
    requires Packs(family, top) && SplitsInto(family, after, h, left, right)
    ensures Packs(after, top)
  {
    HalvesAligned(h.block);
    WithinZone(h.block, top);
  }

  lemma SplitCovers<P(!new)>(family: iset<Holding<P>>, after: iset<Holding<P>>,
                             h: Holding<P>, left: Holding<P>, right: Holding<P>, x: nat)
    requires SplitsInto(family, after, h, left, right)
    ensures CoveredBy(after, x) <==> CoveredBy(family, x)
  {
    assert left in after && right in after;
    if c :| c in family && c.block.Covers(x) {
      assert c in after || left.block.Covers(x) || right.block.Covers(x);
    }
    if c :| c in after && c.block.Covers(x) {
      assert c in family || h.block.Covers(x);
    }
  }

  lemma SplitRepacks<P(!new)>(family: iset<Holding<P>>, after: iset<Holding<P>>,
                              h: Holding<P>, left: Holding<P>, right: Holding<P>, top: nat)
    requires Packs(family, top) && SplitsInto(family, after, h, left, right)
    ensures Repacked(family, after, top)
  {
    SplitPacks(family, after, h, left, right, top);
    forall x: nat ensures CoveredBy(after, x) <==> CoveredBy(family, x) {
      SplitCovers(family, after, h, left, right, x);
    }
  }

  // ---------------------------------------------------------------- whole places at once

  /** All the blocks of one place move to another. */
  ghost predicate BulkMoved<P(!new)>(family: iset<Holding<P>>, after: iset<Holding<P>>, src: P, dst: P) {
    && src != dst
    && (forall h :: h in after ==> h.place != src)
    && (forall h: Holding<P> :: h.place != src && h.place != dst ==> (h in after <==> h in family))
    && (forall b :: Holding(dst, b) in after <==> Holding(src, b) in family || Holding(dst, b) in family)
  }

  ghost function Origin<P(!new)>(family: iset<Holding<P>>, h: Holding<P>, src: P): Holding<P> {
    if h in family then h else Holding(src, h.block)
  }

  lemma BulkMoveRepacks<P(!new)>(family: iset<Holding<P>>, after: iset<Holding<P>>, src: P, dst: P, top: nat)
    requires Packs(family, top) && BulkMoved(family, after, src, dst)
    ensures Repacked(family, after, top)
  {
    forall h | h in after ensures Origin(family, h, src) in family {
      if h.place == dst { assert Holding(dst, h.block) in after; }
    }
    forall h, g | h in after && g in after && h != g ensures h.block.Disjoint(g.block) {
      assert Origin(family, h, src) in family && Origin(family, g, src) in family;
    }
    forall h | h in after ensures h.block.Aligned() && h.block.level <= top && h.block.unit < Pow2(top) {
      assert Origin(family, h, src) in family;
    }
    forall x: nat ensures CoveredBy(after, x) <==> CoveredBy(family, x) {
      if c :| c in family && c.block.Covers(x) {
        assert (if c.place == src || c.place == dst then Holding(dst, c.block) else c) in after;
      }
      if c :| c in after && c.block.Covers(x) {
        assert Origin(family, c, src) in family;
      }
    }
  }

  /** Nothing is left in `src`, nothing was in `pairs` or `singles`, and no other place is touched. */
  ghost predicate Vacated<P(!new)>(family: iset<Holding<P>>, after: iset<Holding<P>>, src: P, pairs: P, singles: P) {
    && src != pairs && src != singles && pairs != singles
    && (forall h :: h in family ==> h.place != pairs && h.place != singles)
    && (forall h :: h in after ==> h.place != src)
    && (forall h: Holding<P> :: h.place != src && h.place != pairs && h.place != singles
          ==> (h in after <==> h in family))
  }

  /** The level-`level` blocks of `src` are paired off: two buddies join and go to `pairs`, a block
      without its buddy goes to `singles`. */
  ghost predicate PairedOff<P(!new)>(family: iset<Holding<P>>, after: iset<Holding<P>>,
                                     src: P, pairs: P, singles: P, level: nat)
  {
    && Vacated(family, after, src, pairs, singles)
    && (forall h :: h in family && h.place == src ==> h.block.level == level)
    && (forall b :: Holding(singles, b) in after <==> Holding(src, b) in family && Holding(src, b.Buddy()) !in family)
    && (forall b :: Holding(pairs, b) in after <==>
          b.level == level + 1 && b.Aligned() && Holding(src, b.Left()) in family && Holding(src, b.Right()) in family)
  }

  function SingleOrigin<P(==)>(h: Holding<P>, src: P, singles: P): Holding<P> {
    if h.place == singles then Holding(src, h.block) else h
  }

  lemma JoinedBlockDisjoint<P(!new)>(family: iset<Holding<P>>, src: P, b: Block, g: Holding<P>)
    requires PairwiseDisjoint(family) && b.level > 0
    requires Holding(src, b.Left()) in family && Holding(src, b.Right()) in family
    requires g in family && g != Holding(src, b.Left()) && g != Holding(src, b.Right())
    ensures b.Disjoint(g.block)
  {}

  lemma PairingDisjoint<P(!new)>(family: iset<Holding<P>>, after: iset<Holding<P>>,
                                 src: P, pairs: P, singles: P, level: nat, h: Holding<P>, g: Holding<P>)
    requires PairwiseDisjoint(family) && PairedOff(family, after, src, pairs, singles, level)
    requires h in after && g in after && h != g && h.place == pairs
    ensures h.block.Disjoint(g.block)
  {
    var b := h.block;
    HalvesAligned(b);
    if g.place == pairs {
      HalvesAligned(g.block);
      assert b.Left() != g.block.Left() && b.Right() != g.block.Right();
      assert b.Left() != g.block.Right() && b.Right() != g.block.Left();
      JoinedBlockDisjoint(family, src, b, Holding(src, g.block.Left()));
      JoinedBlockDisjoint(family, src, b, Holding(src, g.block.Right()));
    } else if g.place == singles {
      assert b.Left().Buddy() == b.Right() && b.Right().Buddy() == b.Left();
      assert Holding(singles, g.block) in after;
      JoinedBlockDisjoint(family, src, b, Holding(src, g.block));
    } else {
      JoinedBlockDisjoint(family, src, b, g);
    }
  }

  lemma PairingPacks<P(!new)>(family: iset<Holding<P>>, after: iset<Holding<P>>,
                              src: P, pairs: P, singles: P, level: nat, top: nat)
    requires Packs(family, top) && PairedOff(family, after, src, pairs, singles, level) && level < top
    ensures Packs(after, top)
  {
    forall h, g | h in after && g in after && h != g ensures h.block.Disjoint(g.block) {
      if h.place == pairs {
        PairingDisjoint(family, after, src, pairs, singles, level, h, g);
      } else if g.place == pairs {
        PairingDisjoint(family, after, src, pairs, singles, level, g, h);
      } else {
        assert SingleOrigin(h, src, singles) in family && SingleOrigin(g, src, singles) in family;
      }
    }
    forall h | h in after ensures h.block.Aligned() && h.block.level <= top && h.block.unit < Pow2(top) {
      if h.place == pairs {
        assert Holding(src, h.block.Left()) in family;
      } else {
        assert SingleOrigin(h, src, singles) in family;
      }
    }
  }

  lemma PairingCovers<P(!new)>(family: iset<Holding<P>>, after: iset<Holding<P>>,
                               src: P, pairs: P, singles: P, level: nat, c: Holding<P>, x: nat)
    requires AllAligned(family) && PairedOff(family, after, src, pairs, singles, level)
    requires c in family && c.block.Covers(x)
    ensures CoveredBy(after, x)
  {
    if c.place != src {
      assert c in after;
    } else if Holding(src, c.block.Buddy()) in family {
      FamilyAligned(c.block);
      assert Holding(pairs, c.block.Parent()) in after;
      assert c.block.Parent().Covers(x);
    } else {
      assert Holding(singles, c.block) in after;
    }
  }

  lemma PairingCovered<P(!new)>(family: iset<Holding<P>>, after: iset<Holding<P>>,
                                src: P, pairs: P, singles: P, level: nat, c: Holding<P>, x: nat)
    requires PairedOff(family, after, src, pairs, singles, level)
    requires c in after && c.block.Covers(x)
    ensures CoveredBy(family, x)
  {
    if c.place == pairs {
      assert Holding(pairs, c.block) in after;
      var left, right := Holding(src, c.block.Left()), Holding(src, c.block.Right());
      assert left in family && right in family;
      assert left.block.Covers(x) || right.block.Covers(x);
    } else {
      assert SingleOrigin(c, src, singles) in family;
    }
  }

  ghost predicate AllAligned<P(!new)>(family: iset<Holding<P>>) {
    forall h :: h in family ==> h.block.Aligned()
  }

  lemma PairingRepacks<P(!new)>(family: iset<Holding<P>>, after: iset<Holding<P>>,
                                src: P, pairs: P, singles: P, level: nat, top: nat)
    requires Packs(family, top) && PairedOff(family, after, src, pairs, singles, level) && level < top
    ensures Repacked(family, after, top)
  {
    PairingPacks(family, after, src, pairs, singles, level, top);
    forall x: nat ensures CoveredBy(after, x) <==> CoveredBy(family, x) {
      if c :| c in family && c.block.Covers(x) { PairingCovers(family, after, src, pairs, singles, level, c, x); }
      if c :| c in after && c.block.Covers(x) { PairingCovered(family, after, src, pairs, singles, level, c, x); }
    }
  }
}
