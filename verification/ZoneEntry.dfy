/** The packed word kept for every unit of a zone: one allocation bit, seven bits of level, 56 bits of
    link.  The three fields are independent, which is what lets a stack relink an entry without
    touching the allocation bit or the level. */
module ZoneEntry {

  const ALLOC_MASK: bv64 := 0x8000_0000_0000_0000
  const LEVEL_MASK: bv64 := 0x7F00_0000_0000_0000
  const NEXT_MASK: bv64 := 0x00FF_FFFF_FFFF_FFFF

  const LEVEL_LIMIT: bv64 := 0x80
  const NEXT_LIMIT: bv64 := 0x0100_0000_0000_0000

  function GetAlloc(w: bv64): bv64 { (w & ALLOC_MASK) >> 63 }
  function GetLevel(w: bv64): bv64 { (w & LEVEL_MASK) >> 56 }
  function GetNext(w: bv64): bv64 { w & NEXT_MASK }

  function Pack(alloc: bv64, level: bv64, next: bv64): bv64 { (alloc << 63) | (level << 56) | next }

  predicate InRange(alloc: bv64, level: bv64, next: bv64) { alloc < 2 && level < LEVEL_LIMIT && next < NEXT_LIMIT }

  /** The three fields of the word. */
  predicate Says(w: bv64, alloc: bv64, level: bv64, next: bv64) {
    GetAlloc(w) == alloc && GetLevel(w) == level && GetNext(w) == next
  }

  lemma PackedAlloc(a: bv64, l: bv64, n: bv64)
    requires InRange(a, l, n)
    ensures GetAlloc(Pack(a, l, n)) == a
  {}

  lemma PackedLevel(a: bv64, l: bv64, n: bv64)
    requires InRange(a, l, n)
    ensures GetLevel(Pack(a, l, n)) == l
  {}

  lemma PackedNext(a: bv64, l: bv64, n: bv64)
    requires InRange(a, l, n)
    ensures GetNext(Pack(a, l, n)) == n
  {}

  /** Fields in range survive packing. */
  lemma Packed(a: bv64, l: bv64, n: bv64)
    requires InRange(a, l, n)
    ensures Says(Pack(a, l, n), a, l, n)
  {
    PackedAlloc(a, l, n);
    PackedLevel(a, l, n);
    PackedNext(a, l, n);
  }

  lemma FieldRanges(w: bv64)
    ensures InRange(GetAlloc(w), GetLevel(w), GetNext(w))
  {}

  lemma OneWordEach(w: bv64)
    ensures Pack(GetAlloc(w), GetLevel(w), GetNext(w)) == w
  {}

  /** And every word is the packing of exactly one such triple. */
  lemma WordsAreTriples(w: bv64, a: bv64, l: bv64, n: bv64)
    ensures Says(w, a, l, n) <==> InRange(a, l, n) && w == Pack(a, l, n)
  {
    FieldRanges(w);
    OneWordEach(w);
    if InRange(a, l, n) { Packed(a, l, n); }
  }

  lemma MaskIsPack(l: bv64, n: bv64)
    ensures ALLOC_MASK | (l << 56) | n == Pack(1, l, n)
    ensures (l << 56) | n == Pack(0, l, n)
  {}

  function AllocBit(alloc: bool): bv64 { if alloc then 1 else 0 }

  /** The words the three setters store. */
  function WithAlloc(w: bv64, a: bv64): bv64 { Pack(a, GetLevel(w), GetNext(w)) }
  function WithLevel(w: bv64, l: bv64): bv64 { Pack(GetAlloc(w), l, GetNext(w)) }
  function WithNext(w: bv64, n: bv64): bv64 { Pack(GetAlloc(w), GetLevel(w), n) }

  lemma AllocReplaced(w: bv64, a: bv64)
    requires a < 2
    ensures Says(WithAlloc(w, a), a, GetLevel(w), GetNext(w))
  {
    FieldRanges(w);
    Packed(a, GetLevel(w), GetNext(w));
  }

  lemma LevelReplaced(w: bv64, l: bv64)
    requires l < LEVEL_LIMIT
    ensures Says(WithLevel(w, l), GetAlloc(w), l, GetNext(w))
  {
    FieldRanges(w);
    Packed(GetAlloc(w), l, GetNext(w));
  }

  lemma NextReplaced(w: bv64, n: bv64)
    requires n < NEXT_LIMIT
    ensures Says(WithNext(w, n), GetAlloc(w), GetLevel(w), n)
  {
    FieldRanges(w);
    Packed(GetAlloc(w), GetLevel(w), n);
  }

  /** The entry object the code updates in place. */
  class Entry {
    var value: bv64

    constructor FromWord(word: bv64)
      ensures value == word
    {
      value := word;
    }

    constructor (alloc: bool, level: bv64, next: bv64)
      requires level < LEVEL_LIMIT && next < NEXT_LIMIT
      ensures Says(value, AllocBit(alloc), level, next)
    {
      value := 0;
      new;
      SetAlloc(alloc);
      SetLevel(level);
      SetNext(next);
    }

    method SetAlloc(alloc: bool)
      modifies this
      ensures Says(value, AllocBit(alloc), GetLevel(old(value)), GetNext(old(value)))
    {
      MaskIsPack(GetLevel(value), GetNext(value));
      if alloc {
        AllocReplaced(value, 1);
        value := ALLOC_MASK | (GetLevel(value) << 56) | GetNext(value);
      } else {
        AllocReplaced(value, 0);
        value := (GetLevel(value) << 56) | GetNext(value);
      }
    }

    method SetLevel(level: bv64)
      requires level < LEVEL_LIMIT
      modifies this
      ensures Says(value, GetAlloc(old(value)), level, GetNext(old(value)))
    {
      LevelReplaced(value, level);
      value := (GetAlloc(value) << 63) | (level << 56) | GetNext(value);
    }

    method SetNext(next: bv64)
      requires next < NEXT_LIMIT
      modifies this
      ensures Says(value, GetAlloc(old(value)), GetLevel(old(value)), next)
    {
      NextReplaced(value, next);
      value := (GetAlloc(value) << 63) | (GetLevel(value) << 56) | next;
    }
  }

  predicate Links(links: seq<bv64>) { forall i :: 0 <= i < |links| ==> links[i] < NEXT_LIMIT }

  /** A word after it has been linked into one list after another. */
  function Relinked(w: bv64, links: seq<bv64>): bv64 {
    if links == [] then w else WithNext(Relinked(w, links[..|links| - 1]), links[|links| - 1])
  }

  /** Every list a block is put on in turn leaves its allocation bit and level alone and keeps only the
      last link. */
  lemma {:induction false} RelinkingKeepsAllocAndLevel(w: bv64, links: seq<bv64>)
    requires Links(links)
    ensures Says(Relinked(w, links), GetAlloc(w), GetLevel(w), if links == [] then GetNext(w) else links[|links| - 1])
  {
    if links != [] {
      RelinkingKeepsAllocAndLevel(w, links[..|links| - 1]);
      NextReplaced(Relinked(w, links[..|links| - 1]), links[|links| - 1]);
    }
  }
}
