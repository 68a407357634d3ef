/** The merge bitmap, read two ways.

    The merge sets one bit for every block of the list it has swapped out and then scans the bitmap 64
    bits at a time, a pair of neighbouring bits a test.  The collector fills and checks runs of bits byte
    by byte.  Each view of the array is summed up as the set of its one bits, and the methods say what
    they do to that set.

    A bit number is a plain number in the loops and a bit vector in the shifts.  The lemmas that connect
    the two keep to one conversion fact each. */
module Bitmaps {

  // ---------------------------------------------------------------- bit numbers

  function Index(m: nat): (i: bv8)
    requires m <= 64
    ensures i <= 64
  {
    m as bv8
  }

  lemma IndexMono(m: nat, n: nat)
    requires m < n <= 64
    ensures Index(m) < Index(n)
  {}

  lemma IndexBelow(m: nat, n: nat)
    requires m <= 64 && n <= 64
    ensures Index(m) < Index(n) <==> m < n
    ensures Index(m) == Index(n) <==> m == n
  {
    if m < n { IndexMono(m, n); } else if n < m { IndexMono(n, m); }
  }

  lemma IndexNext(m: nat)
    requires m < 64
    ensures Index(m + 1) == Index(m) + 1
  {}

  lemma {:induction false} IndexSum(m: nat, n: nat)
    requires m + n <= 64
    ensures Index(m + n) == Index(m) + Index(n)
  {
    if n > 0 {
      IndexSum(m, n - 1);
      IndexNext(m + n - 1);
      IndexNext(n - 1);
    }
  }

  lemma IndexEnds()
    ensures Index(0) == 0 && Index(8) == 8 && Index(64) == 64
  {}

  // ---------------------------------------------------------------- words

  predicate BitOf(w: bv64, i: bv8)
    requires i < 64
  {
    (w >> i) & 1 == 1
  }

  /** Bit `i` of a word. */
  predicate WordBit(w: bv64, i: nat)
    requires i < 64
  {
    IndexMono(i, 64);
    IndexEnds();
    BitOf(w, Index(i))
  }

  /** The positions of the one bits of an array of words. */
  function WordBits(words: seq<bv64>): set<nat> {
    set n | 0 <= n < 64 * |words| && WordBit(words[n / 64], n % 64)
  }

  lemma SetBitOf(w: bv64, j: bv8, i: bv8)
    requires i < 64 && j < 64
    ensures BitOf(w | (1 << j), i) <==> i == j || BitOf(w, i)
  {}

  lemma PairTest(w: bv64, i: bv8)
    requires i < 63
    ensures (w & (3 << i)) == (3 << i) <==> BitOf(w, i) && BitOf(w, i + 1)
  {}

  lemma NextPair(i: bv8)
    requires i <= 62
    ensures ((3 as bv64) << i) << 2 == if i == 62 then 0 else (3 as bv64) << (i + 2)
  {}

  lemma ZeroWordBit(i: bv8)
    requires i < 64
    ensures !BitOf(0, i)
  {}

  lemma ZeroWord(i: nat)
    requires i < 64
    ensures !WordBit(0, i)
  {
    IndexMono(i, 64);
    IndexEnds();
    ZeroWordBit(Index(i));
  }

  /** `set_bit`'s new value. */
  function SetIn(w: bv64, j: nat): bv64
    requires j < 64
  {
    w | (1 << Index(j))
  }

  lemma SetInBit(w: bv64, j: nat, i: nat)
    requires i < 64 && j < 64
    ensures WordBit(SetIn(w, j), i) <==> i == j || WordBit(w, i)
  {
    IndexMono(i, 64);
    IndexMono(j, 64);
    IndexEnds();
    SetBitOf(w, Index(j), Index(i));
    IndexBelow(i, j);
  }

  lemma SetOneBit(words: seq<bv64>, n: nat)
    requires n < 64 * |words|
    ensures WordBits(words[n / 64 := SetIn(words[n / 64], n % 64)]) == WordBits(words) + {n}
  {
    var w := SetIn(words[n / 64], n % 64);
    forall m | 0 <= m < 64 * |words|
      ensures m in WordBits(words[n / 64 := w]) <==> m == n || m in WordBits(words)
    {
      SetInBit(words[n / 64], n % 64, m % 64);
    }
  }

  /** `set_bit`: the bit must be clear, and no other bit changes. */
  method SetBit(words: array<bv64>, n: nat)
    requires n < 64 * words.Length && n !in WordBits(words[..])
    modifies words
    ensures WordBits(words[..]) == old(WordBits(words[..])) + {n}
  {
    SetOneBit(words[..], n);
    ghost var before := words[..];
    words[n / 64] := SetIn(words[n / 64], n % 64);
    assert words[..] == before[n / 64 := SetIn(before[n / 64], n % 64)];
  }

  /** memset to zero */
  method ClearWords(words: array<bv64>)
    modifies words
    ensures WordBits(words[..]) == {}
  {
    for k := 0 to words.Length
      invariant forall j :: 0 <= j < k ==> words[j] == 0
    {
      words[k] := 0;
    }
    forall m | 0 <= m < 64 * words.Length ensures m !in WordBits(words[..]) {
      ZeroWord(m % 64);
    }
  }

  /** The scan's mask at pair `k` of a word: it starts at 3 and moves two bits a round. */
  function PairMask(k: nat): bv64 { if k == 0 then 3 else Shifted(PairMask(k - 1)) }

  function Shifted(mask: bv64): bv64 { mask << 2 }

  lemma {:induction false} MaskCoversPair(k: nat)
    requires k < 32
    ensures Index(2 * k) <= 62 && PairMask(k) == 3 << Index(2 * k)
  {
    IndexEnds();
    Index62(2 * k);
    if k > 0 {
      MaskCoversPair(k - 1);
      Index62(2 * k - 2);
      IndexNext(2 * k - 2);
      IndexNext(2 * k - 1);
      NextPair(Index(2 * k - 2));
    }
  }

  /** After the last pair nothing of the mask is left. */
  lemma MaskRunsOut()
    ensures PairMask(32) == 0
  {
    MaskCoversPair(31);
    SixtyTwo();
    NextPair(62);
  }

  lemma Index62(i: nat)
    requires i <= 62
    ensures Index(i) <= 62 && (Index(i) == 62 <==> i == 62)
  {
    IndexBelow(i, 62);
    SixtyTwo();
  }

  lemma SixtyTwo()
    ensures Index(62) == 62
  {}

  lemma MaskTests(w: bv64, k: nat)
    requires k < 32
    ensures CoversMask(w, PairMask(k)) <==> WordBit(w, 2 * k) && WordBit(w, 2 * k + 1)
  {
    MaskCoversPair(k);
    IndexNext(2 * k);
    IndexBelow(2 * k, 63);
    SixtyThree();
    PairTest(w, Index(2 * k));
  }

  lemma SixtyThree()
    ensures Index(63) == 63
  {}

  lemma BitInWords(words: seq<bv64>, w: nat, i: nat)
    requires w < |words| && i < 64
    ensures WordBit(words[w], i) <==> 64 * w + i in WordBits(words)
  {
    PositionIn(w, i);
  }

  lemma PositionIn(w: nat, i: nat)
    requires i < 64
    ensures (64 * w + i) / 64 == w && (64 * w + i) % 64 == i
  {}

  predicate CoversMask(data: bv64, shift: bv64) { (data & shift) == shift }

  method NextMask(shift: bv64, ghost k: nat) returns (next: bv64)
    requires shift == PairMask(k)
    ensures next == PairMask(k + 1)
  {
    next := Shifted(shift);
  }

  method FirstMask() returns (shift: bv64)
    ensures shift == PairMask(0)
  {
    shift := 3;
  }

  /** The scan's three tests on the pair of bits at `i` of word `w`. */
  method ReadPair(words: array<bv64>, w: nat, data: bv64, i: nat, shift: bv64, ghost k: nat)
    returns (both: bool, left: bool, right: bool)
    requires w < words.Length && data == words[w] && i == 2 * k < 64 && shift == PairMask(k)
    ensures left <==> 64 * w + i in WordBits(words[..])
    ensures right <==> 64 * w + i + 1 in WordBits(words[..])
    ensures both <==> left && right
  {
    BitInWords(words[..], w, i);
    BitInWords(words[..], w, i + 1);
    MaskTests(data, k);
    both := CoversMask(data, shift);
    left := WordBit(data, i);
    right := WordBit(data, i + 1);
  }

  lemma NoBits(words: seq<bv64>, w: nat)
    requires w < |words| && words[w] == 0
    ensures forall c :: 64 * w <= c < 64 * w + 64 ==> c !in WordBits(words)
  {
    forall c | 64 * w <= c < 64 * w + 64 ensures c !in WordBits(words) { ZeroWord(c % 64); }
  }

  // ---------------------------------------------------------------- bytes

  predicate BitOfByte(w: bv8, i: bv8)
    requires i < 8
  {
    (w >> i) & 1 == 1
  }

  /** `n` bits from bit `offset` of one byte. */
  function Mark(offset: bv8, n: bv8): bv8
    requires offset < 8 && n <= 8 - offset
  {
    ((1 << n) - 1) << offset
  }

  predicate InMark(offset: bv8, n: bv8, i: bv8) { offset <= i && i - offset < n }

  lemma MarkSets(w: bv8, offset: bv8, n: bv8, i: bv8)
    requires offset < 8 && n <= 8 - offset && i < 8
    ensures BitOfByte(w | Mark(offset, n), i) <==> InMark(offset, n, i) || BitOfByte(w, i)
  {}

  lemma MarkHas(w: bv8, offset: bv8, n: bv8, i: bv8)
    requires offset < 8 && n <= 8 - offset && i < 8
    requires (w & Mark(offset, n)) == Mark(offset, n) && InMark(offset, n, i)
    ensures BitOfByte(w, i)
  {}

  predicate Meets(w: bv8, offset: bv8, n: bv8, i: bv8)
    requires i < 8
  {
    InMark(offset, n, i) ==> BitOfByte(w, i)
  }

  lemma MarkLacks(w: bv8, offset: bv8, n: bv8)
    requires offset < 8 && n <= 8 - offset
    requires Meets(w, offset, n, 0) && Meets(w, offset, n, 1) && Meets(w, offset, n, 2) && Meets(w, offset, n, 3)
    requires Meets(w, offset, n, 4) && Meets(w, offset, n, 5) && Meets(w, offset, n, 6) && Meets(w, offset, n, 7)
    ensures (w & Mark(offset, n)) == Mark(offset, n)
  {}

  /** Bit `i` of a byte. */
  predicate ByteBit(w: bv8, i: nat)
    requires i < 8
  {
    IndexMono(i, 8);
    IndexEnds();
    BitOfByte(w, Index(i))
  }

  lemma RangeFits(off: nat, n: nat)
    requires off < 8 && off + n <= 8
    ensures Index(off) < 8 && Index(n) <= 8 - Index(off)
  {
    IndexEnds();
    IndexMono(off, 8);
    IndexSum(off, n);
    if off + n < 8 { IndexMono(off + n, 8); }
    RangeArith(Index(off), Index(n));
    IndexSmall(n);
  }

  lemma IndexSmall(n: nat)
    requires n <= 8
    ensures Index(n) <= 8
  {
    IndexEnds();
    if n < 8 { IndexMono(n, 8); }
  }

  lemma RangeArith(x: bv8, y: bv8)
    requires x < 8
    ensures y <= 8 && x + y <= 8 ==> y <= 8 - x
  {}

  /** The mark over bits `[off, off + n)`. */
  function Range(off: nat, n: nat): bv8
    requires off < 8 && off + n <= 8
  {
    RangeFits(off, n);
    Mark(Index(off), Index(n))
  }

  lemma InRange(off: nat, n: nat, i: nat)
    requires off < 8 && off + n <= 8 && i < 8
    ensures InMark(Index(off), Index(n), Index(i)) <==> off <= i < off + n
  {
    IndexBelow(i, off);
    if i >= off { IndexSum(off, i - off); IndexBelow(i - off, n); }
  }

  lemma RangeSets(w: bv8, off: nat, n: nat, i: nat)
    requires off < 8 && off + n <= 8 && i < 8
    ensures ByteBit(w | Range(off, n), i) <==> off <= i < off + n || ByteBit(w, i)
  {
    RangeFits(off, n);
    IndexMono(i, 8);
    IndexEnds();
    InRange(off, n, i);
    MarkSets(w, Index(off), Index(n), Index(i));
  }

  lemma RangeHas(w: bv8, off: nat, n: nat, i: nat)
    requires off <= i < off + n <= 8
    requires (w & Range(off, n)) == Range(off, n)
    ensures ByteBit(w, i)
  {
    RangeFits(off, n);
    IndexMono(i, 8);
    IndexEnds();
    InRange(off, n, i);
    MarkHas(w, Index(off), Index(n), Index(i));
  }

  lemma MeetsAt(w: bv8, off: nat, n: nat, i: nat)
    requires off < 8 && off + n <= 8 && i < 8
    requires off <= i < off + n ==> ByteBit(w, i)
    ensures Index(i) < 8 && Meets(w, Index(off), Index(n), Index(i))
  {
    IndexMono(i, 8);
    IndexEnds();
    InRange(off, n, i);
  }

  lemma Digits()
    ensures Index(1) == 1 && Index(2) == 2 && Index(3) == 3
    ensures Index(4) == 4 && Index(5) == 5 && Index(6) == 6 && Index(7) == 7
  {}

  lemma RangeLacks(w: bv8, off: nat, n: nat)
    requires off < 8 && off + n <= 8
    requires forall i :: off <= i < off + n ==> ByteBit(w, i)
    ensures (w & Range(off, n)) == Range(off, n)
  {
    RangeFits(off, n);
    IndexEnds();
    Digits();
    MeetsAt(w, off, n, 0);
    MeetsAt(w, off, n, 1);
    MeetsAt(w, off, n, 2);
    MeetsAt(w, off, n, 3);
    MeetsAt(w, off, n, 4);
    MeetsAt(w, off, n, 5);
    MeetsAt(w, off, n, 6);
    MeetsAt(w, off, n, 7);
    MarkLacks(w, Index(off), Index(n));
  }

  /** The positions of the one bits of an array of bytes. */
  function ByteBits(bytes: seq<bv8>): set<nat> {
    set n | 0 <= n < 8 * |bytes| && ByteBit(bytes[n / 8], n % 8)
  }

  lemma ZeroByteBit(i: bv8)
    requires i < 8
    ensures !BitOfByte(0, i)
  {}

  lemma ZeroByte(i: nat)
    requires i < 8
    ensures !ByteBit(0, i)
  {
    IndexMono(i, 8);
    IndexEnds();
    ZeroByteBit(Index(i));
  }

  method ClearBytes(bytes: array<bv8>)
    modifies bytes
    ensures ByteBits(bytes[..]) == {}
  {
    for k := 0 to bytes.Length
      invariant forall j :: 0 <= j < k ==> bytes[j] == 0
    {
      bytes[k] := 0;
    }
    forall m | 0 <= m < 8 * bytes.Length ensures m !in ByteBits(bytes[..]) {
      ZeroByte(m % 8);
    }
  }

  predicate Between(a: nat, x: int, b: nat) { a <= x < b }

  /** The positions `[a, b)`. */
  function Run(a: nat, b: nat): set<nat> { set x | a <= x < b && Between(a, x, b) }

  lemma SetAt(bytes: seq<bv8>, k: nat, off: nat, n: nat, m: nat)
    requires k < |bytes| && off < 8 && off + n <= 8 && m < 8 * |bytes|
    ensures m in ByteBits(bytes[k := bytes[k] | Range(off, n)])
            <==> 8 * k + off <= m < 8 * k + off + n || m in ByteBits(bytes)
  {
    if m / 8 == k { RangeSets(bytes[k], off, n, m % 8); }
  }

  lemma SetOneByte(bytes: seq<bv8>, k: nat, off: nat, n: nat)
    requires k < |bytes| && off < 8 && off + n <= 8
    ensures ByteBits(bytes[k := bytes[k] | Range(off, n)]) == ByteBits(bytes) + Run(8 * k + off, 8 * k + off + n)
  {
    var after := bytes[k := bytes[k] | Range(off, n)];
    forall m | 0 <= m < 8 * |bytes|
      ensures m in ByteBits(after) <==> 8 * k + off <= m < 8 * k + off + n || m in ByteBits(bytes)
    {
      SetAt(bytes, k, off, n, m);
    }
  }

  /** `set_n_bits`: `n` bits from bit `offset` of byte `pos` on. */
  method SetNBits(bytes: array<bv8>, pos: nat, offset: nat, n: nat)
    requires offset < 8 && 8 * pos + offset + n <= 8 * bytes.Length
    modifies bytes
    ensures ByteBits(bytes[..]) == old(ByteBits(bytes[..])) + Run(8 * pos + offset, 8 * pos + offset + n)
  {
    var byte_ptr: nat, off: nat, left: nat := pos, offset, n;
    ghost var start := 8 * pos + offset;
    while left > 0
      invariant off < 8 && left <= n
      invariant left > 0 ==> 8 * byte_ptr + off == start + n - left
      invariant ByteBits(bytes[..]) == old(ByteBits(bytes[..])) + Run(start, start + n - left)
    {
      var to_fill := if 8 - off < left then 8 - off else left;
      ghost var before := bytes[..];
      SetOneByte(before, byte_ptr, off, to_fill);
      bytes[byte_ptr] := bytes[byte_ptr] | Range(off, to_fill);
      assert bytes[..] == before[byte_ptr := before[byte_ptr] | Range(off, to_fill)];
      left := left - to_fill;
      off, byte_ptr := 0, byte_ptr + 1;
    }
  }

  lemma TestOneByte(bytes: seq<bv8>, k: nat, off: nat, n: nat)
    requires k < |bytes| && off < 8 && off + n <= 8
    ensures (bytes[k] & Range(off, n)) == Range(off, n) <==> Run(8 * k + off, 8 * k + off + n) <= ByteBits(bytes)
  {
    if (bytes[k] & Range(off, n)) == Range(off, n) {
      forall m | 8 * k + off <= m < 8 * k + off + n ensures m in ByteBits(bytes) {
        RangeHas(bytes[k], off, n, m - 8 * k);
        assert m / 8 == k;
      }
    } else if Run(8 * k + off, 8 * k + off + n) <= ByteBits(bytes) {
      forall i | off <= i < off + n ensures ByteBit(bytes[k], i) {
        assert 8 * k + i in Run(8 * k + off, 8 * k + off + n);
      }
      RangeLacks(bytes[k], off, n);
    }
  }

  method TestByte(bytes: array<bv8>, k: nat, off: nat, n: nat) returns (all: bool)
    requires k < bytes.Length && off < 8 && off + n <= 8
    ensures all <==> Run(8 * k + off, 8 * k + off + n) <= ByteBits(bytes[..])
  {
    TestOneByte(bytes[..], k, off, n);
    all := (bytes[k] & Range(off, n)) == Range(off, n);
  }

  /** `check_n_bits` */
  method CheckNBits(bytes: array<bv8>, pos: nat, offset: nat, n: nat) returns (all: bool)
    requires offset < 8 && 8 * pos + offset + n <= 8 * bytes.Length
    ensures all <==> Run(8 * pos + offset, 8 * pos + offset + n) <= ByteBits(bytes[..])
  {
    var byte_ptr: nat, off: nat, left: nat := pos, offset, n;
    ghost var start := 8 * pos + offset;
    while left > 0
      invariant off < 8 && left <= n
      invariant left > 0 ==> 8 * byte_ptr + off == start + n - left
      invariant Run(start, start + n - left) <= ByteBits(bytes[..])
    {
      var to_fill := if 8 - off < left then 8 - off else left;
      var ok := TestByte(bytes, byte_ptr, off, to_fill);
      if !ok {
        assert Run(8 * byte_ptr + off, 8 * byte_ptr + off + to_fill) <= Run(start, start + n);
        return false;
      }
      left := left - to_fill;
      off, byte_ptr := 0, byte_ptr + 1;
    }
    return true;
  }
}
