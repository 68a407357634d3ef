/** Dyadic blocks of allocation units: the shapes a buddy allocator hands out.

    A unit is one `min_obj_size` chunk.  A block of level `l` is a run of `2^l` units that starts at a
    multiple of `2^l`.  Everything the zone modules say about memory is said with these blocks. */
module Dyadic {

  function Pow2(n: nat): (p: nat)
    ensures p >= 1
  {
    if n == 0 then 1 else 2 * Pow2(n - 1)
  }

  /** `x >> l` */
  function Shr(x: nat, l: nat): nat {
    if l == 0 then x else Shr(x, l - 1) / 2
  }

  /** `k << l` */
  function Shl(k: nat, l: nat): nat {
    if l == 0 then k else 2 * Shl(k, l - 1)
  }

  datatype Block = Block(unit: nat, level: nat) {
    function End(): nat { unit + Pow2(level) }

    /** The block starts at a multiple of its size. */
    predicate Aligned() { Shl(Shr(unit, level), level) == unit }

    predicate Covers(x: nat) { unit <= x < End() }

    predicate Disjoint(other: Block) { End() <= other.unit || other.End() <= unit }

    predicate Within(other: Block) { other.unit <= unit && End() <= other.End() }

    /** The two halves a block splits into. */
    function Left(): Block
      requires level > 0
    {
      Block(unit, level - 1)
    }

    function Right(): Block
      requires level > 0
    {
      Block(unit + Pow2(level - 1), level - 1)
    }

    predicate IsLeft() { Shr(unit, level) % 2 == 0 }

    /** The block this one and its buddy merge into. */
    function Parent(): Block { Nth(Shr(unit, level) / 2, level + 1) }

    function Buddy(): Block {
      var k := Shr(unit, level);
      Nth(if k % 2 == 0 then k + 1 else k - 1, level)
    }
  }

  /** The `k`-th block of a level. */
  function Nth(k: nat, l: nat): Block { Block(Shl(k, l), l) }

  /** A level-`l` shift rounds down to the start of the run that holds `x`. */
  lemma {:induction false} ShrBounds(x: nat, l: nat)
    ensures Shl(Shr(x, l), l) <= x < Shl(Shr(x, l), l) + Pow2(l)
  {
    if l > 0 {
      ShrBounds(x, l - 1);
      ShlStep(Shr(x, l), l - 1);
      if Shr(x, l - 1) % 2 == 1 {
        ShlAdd(2 * Shr(x, l), l - 1);
      }
    }
  }

  lemma {:induction false} ShlStep(k: nat, l: nat)
    ensures Shl(k, l + 1) == Shl(2 * k, l)
  {
    if l > 0 { ShlStep(k, l - 1); }
  }

  lemma {:induction false} ShlAdd(k: nat, l: nat)
    ensures Shl(k + 1, l) == Shl(k, l) + Pow2(l)
  {
    if l > 0 { ShlAdd(k, l - 1); }
  }

  lemma {:induction false} ShlMono(j: nat, k: nat, l: nat)
    requires j < k
    ensures Shl(j, l) + Pow2(l) <= Shl(k, l)
  {
    if l > 0 { ShlMono(j, k, l - 1); }
  }

  lemma {:induction false} ShrShl(k: nat, l: nat)
    ensures Shr(Shl(k, l), l) == k
  {
    ShrBounds(Shl(k, l), l);
    var j := Shr(Shl(k, l), l);
    if j < k { ShlMono(j, k, l); }
    if k < j { ShlMono(k, j, l); }
  }

  lemma NthAligned(k: nat, l: nat)
    ensures Nth(k, l).Aligned()
  {
    ShrShl(k, l);
  }

  /** An aligned block covers exactly the units that share its shifted address. */
  lemma CoversShr(b: Block, x: nat)
    requires b.Aligned()
    ensures b.Covers(x) <==> Shr(x, b.level) == Shr(b.unit, b.level)
  {
    var j, k := Shr(x, b.level), Shr(b.unit, b.level);
    ShrBounds(x, b.level);
    if j < k { ShlMono(j, k, b.level); }
    if k < j { ShlMono(k, j, b.level); }
  }

  lemma {:induction false} ShrCompose(x: nat, y: nat, l: nat, m: nat)
    requires l <= m && Shr(x, l) == Shr(y, l)
    ensures Shr(x, m) == Shr(y, m)
    decreases m
  {
    if l < m { ShrCompose(x, y, l, m - 1); }
  }

  /** Two aligned blocks are disjoint, or the smaller lies inside the larger. */
  lemma Nested(b: Block, c: Block)
    requires b.Aligned() && c.Aligned() && b.level <= c.level
    ensures b.Disjoint(c) || b.Within(c)
  {
    if !b.Disjoint(c) {
      var x := if b.unit < c.unit then c.unit else b.unit;
      CoversShr(b, x);
      CoversShr(c, x);
      ShrCompose(b.unit, x, b.level, c.level);
      CoversShr(c, b.unit);
      var last := b.End() - 1;
      CoversShr(b, last);
      ShrCompose(b.unit, last, b.level, c.level);
      CoversShr(c, last);
    }
  }

  lemma HalvesAligned(b: Block)
    requires b.Aligned() && b.level > 0
    ensures b.Left().Aligned() && b.Left().IsLeft()
    ensures b.Right().Aligned() && !b.Right().IsLeft()
    ensures b.Left().Parent() == b && b.Right().Parent() == b
    ensures b.Left().Buddy() == b.Right() && b.Right().Buddy() == b.Left()
  {
    var k, l := Shr(b.unit, b.level), b.level - 1;
    ShlStep(k, l);
    ShlAdd(2 * k, l);
    ShrShl(2 * k, l);
    ShrShl(2 * k + 1, l);
  }

  /** Parent and buddy of an aligned block; splitting the parent gives the pair back. */
  lemma FamilyAligned(b: Block)
    requires b.Aligned()
    ensures b.Parent().Aligned() && b.Buddy().Aligned()
    ensures b.Buddy() == if b.IsLeft() then b.Parent().Right() else b.Parent().Left()
    ensures b == if b.IsLeft() then b.Parent().Left() else b.Parent().Right()
    ensures b.Buddy().Buddy() == b && b.Buddy().Parent() == b.Parent() && b.Buddy().IsLeft() != b.IsLeft()
  {
    var k, l := Shr(b.unit, b.level), b.level;
    var p := Nth(k / 2, l + 1);
    NthAligned(k / 2, l + 1);
    ShlStep(k / 2, l);
    ShlAdd(2 * (k / 2), l);
    HalvesAligned(p);
  }

  lemma {:induction false} Pow2Mono(l: nat, m: nat)
    requires l <= m
    ensures Pow2(l) <= Pow2(m)
    decreases m
  {
    if l < m { Pow2Mono(l, m - 1); }
  }

  /** The blocks of level `l` below `2^m` are the numbers below `2^(m-l)`. */
  lemma {:induction false} ShrRange(x: nat, l: nat, m: nat)
    requires l <= m
    ensures x < Pow2(m) <==> Shr(x, l) < Pow2(m - l)
  {
    if l > 0 { ShrRange(x, l - 1, m); }
  }

  lemma WithinZone(b: Block, m: nat)
    requires b.Aligned() && b.level <= m && b.unit < Pow2(m)
    ensures b.End() <= Pow2(m)
  {
    var last := b.End() - 1;
    CoversShr(b, last);
    ShrRange(b.unit, b.level, m);
    ShrRange(last, b.level, m);
  }
}
