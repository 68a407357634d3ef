/** How one level of merging works through its bitmap, pair by pair, in terms of the view it started
    from: what the two post-merge lists hold when the scan has done the first `k` buddy pairs. */
module ZoneMerge {
  import opened Dyadic
  import opened Tiling
  import opened ZoneView
  import opened ZoneTables

  /** The numbers of the level-`l` chunks that start at `units`: the bits set in the merge bitmap. */
  function Chunks(units: set<nat>, l: nat): set<nat> { set u | u in units :: Shr(u, l) }

  predicate PairBelow(u: nat, l: nat, k: nat) { Shr(u, l) / 2 < k }

  function UpBelow(v: View, l: nat, k: nat): set<nat>
    requires l < |v.free|
  {
    set u | u in v.free[l] && Mergeable(v, l, u) && Block(u, l).IsLeft() && PairBelow(u, l, k)
  }

  function StayBelow(v: View, l: nat, k: nat): set<nat>
    requires l < |v.free|
  {
    set u | u in v.free[l] && !Mergeable(v, l, u) && PairBelow(u, l, k)
  }

  lemma FreeUnitOf(v: View, l: nat, u: nat)
    requires Packed(v) && l <= v.top && u in v.free[l]
    ensures 0 < u < Pow2(v.top) && Block(u, l).Aligned() && u !in v.used
    ensures forall j :: 0 <= j <= v.top && j != l ==> u !in v.free[j]
  {
    var h := Holding(Free(l), Block(u, l));
    assert h in Family(v) && Holding(Used, Block(0, 0)) in Family(v);
    OneUse(v, u, h);
    forall j | 0 <= j <= v.top && j != l ensures u !in v.free[j] {
      if u in v.free[j] { OnePlace(Family(v), h, Holding(Free(j), Block(u, j))); }
    }
  }

  /** A bit of the bitmap stands for the one free block that starts there. */
  lemma ChunkIsFree(v: View, l: nat, c: nat)
    requires Packed(v) && l <= v.top
    ensures c in Chunks(v.free[l], l) <==> Shl(c, l) in v.free[l]
  {
    ShrShl(c, l);
    if u :| u in v.free[l] && Shr(u, l) == c { FreeUnitOf(v, l, u); }
  }

  /** The pair of bits `2k`, `2k + 1` decides what joins and what stays. */
  lemma PairStep(v: View, l: nat, k: nat)
    requires Packed(v) && l < v.top
    ensures var a, b := 2 * k in Chunks(v.free[l], l), 2 * k + 1 in Chunks(v.free[l], l);
            var x, y := Shl(2 * k, l), Shl(2 * k + 1, l);
            && (a <==> x in v.free[l]) && (b <==> y in v.free[l])
            && UpBelow(v, l, k + 1) == (if a && b then UpBelow(v, l, k) + {x} else UpBelow(v, l, k))
            && StayBelow(v, l, k + 1) == (if a && b then StayBelow(v, l, k) else if a then StayBelow(v, l, k) + {x}
                                          else if b then StayBelow(v, l, k) + {y} else StayBelow(v, l, k))
            && x !in UpBelow(v, l, k) + StayBelow(v, l, k) && y !in UpBelow(v, l, k) + StayBelow(v, l, k)
  {
    var x, y := Shl(2 * k, l), Shl(2 * k + 1, l);
    ChunkIsFree(v, l, 2 * k);
    ChunkIsFree(v, l, 2 * k + 1);
    ShrShl(2 * k, l);
    ShrShl(2 * k + 1, l);
    assert Block(x, l).Buddy() == Block(y, l) && Block(y, l).Buddy() == Block(x, l);
    forall u | u in v.free[l] && PairBelow(u, l, k + 1) && !PairBelow(u, l, k) ensures u == x || u == y {
      FreeUnitOf(v, l, u);
    }
  }

  /** A whole word of clear bits changes nothing. */
  lemma {:induction false} ClearPairs(v: View, l: nat, k: nat, n: nat)
    requires Packed(v) && l < v.top
    requires forall c :: 2 * k <= c < 2 * (k + n) ==> c !in Chunks(v.free[l], l)
    ensures UpBelow(v, l, k + n) == UpBelow(v, l, k) && StayBelow(v, l, k + n) == StayBelow(v, l, k)
  {
    if n > 0 {
      ClearPairs(v, l, k, n - 1);
      PairStep(v, l, k + n - 1);
    }
  }

  /** Past the last pair of the zone the lists hold what `MergeLevel` says. */
  lemma ScanComplete(v: View, l: nat, k: nat)
    requires Packed(v) && l < v.top && k >= Pow2(v.top - l - 1)
    ensures MergeLevel(v, l) == v.(free := v.free[l := StayBelow(v, l, k)][l + 1 := v.free[l + 1] + UpBelow(v, l, k)])
  {
    forall u | u in v.free[l] ensures PairBelow(u, l, k) {
      FreeUnitOf(v, l, u);
      ShrRange(u, l, v.top);
      assert Pow2(v.top - l) == 2 * Pow2(v.top - l - 1);
    }
    assert StayBelow(v, l, k) == set u | u in v.free[l] && !Mergeable(v, l, u);
    assert UpBelow(v, l, k) == set u | u in v.free[l] && Mergeable(v, l, u) && Block(u, l).IsLeft();
  }

  /** `max_bitmap_length`: the bytes of the bitmap that level `l` uses, at least one. */
  function BitmapLength(top: nat, l: nat): nat
    requires l <= top
  {
    if l + 2 >= top then 1 else Pow2(top - l) / 8
  }

  /** Scanning whole words up to that length stays inside the bitmap and covers every pair of the level. */
  lemma BitmapLengthSuffices(top: nat, l: nat, length: nat)
    requires 6 <= top && l < top && length % 8 == 0
    ensures length < BitmapLength(top, l) ==> length / 8 < Pow2(top - 6)
    ensures length >= BitmapLength(top, l) ==> 4 * length >= Pow2(top - l - 1)
  {
    var n := top - l;
    assert Pow2(n) == 2 * Pow2(n - 1);
    if l + 2 >= top {
      assert Pow2(1) == 2 && Pow2(0) == 1;
    } else {
      assert Pow2(n - 1) == 2 * Pow2(n - 2) && Pow2(n - 2) == 2 * Pow2(n - 3);
      Pow2Mono(n, top);
      Pow2Is64(top - 6);
    }
  }

  lemma Pow2Is64(m: nat)
    ensures Pow2(m + 6) == 64 * Pow2(m)
  {
    assert Pow2(m + 6) == 2 * Pow2(m + 5) && Pow2(m + 5) == 2 * Pow2(m + 4) && Pow2(m + 4) == 2 * Pow2(m + 3);
    assert Pow2(m + 3) == 2 * Pow2(m + 2) && Pow2(m + 2) == 2 * Pow2(m + 1) && Pow2(m + 1) == 2 * Pow2(m);
  }

  // ---------------------------------------------------------------- the tables during a merge

  /** After `k` pairs of level `l`, having started from `v`. */
  ghost predicate Scanned(top: nat, used: map<nat, nat>, lists: seq<seq<nat>>, v: View, l: nat, k: nat) {
    && v.top == top && Packed(v) && l < top && top + 3 <= |lists|
    && used == v.used && FreeSets(lists, top) == v.free[l := {}]
    && Members(lists[top + 1]) == StayBelow(v, l, k)
    && Members(lists[top + 2]) == UpBelow(v, l, k)
    && forall j, u :: top + 3 <= j < |lists| && u in lists[j] ==> u in used
  }

  lemma ScanStarts(top: nat, used: map<nat, nat>, before: seq<seq<nat>>, lists: seq<seq<nat>>, v: View, l: nat)
    requires v.top == top && Packed(v) && l < top && top + 3 <= |before| && used == v.used
             && FreeSets(before, top) == v.free
    requires lists == before[l := []] && lists[top + 1] == [] && lists[top + 2] == []
    requires forall j, u :: top + 3 <= j < |lists| && u in lists[j] ==> u in used
    ensures Scanned(top, used, lists, v, l, 0) && lists[top + 3..] == before[top + 3..]
  {
    FreeSetsUpdate(before, top, l, []);
    assert Members([]) == {};
    assert UpBelow(v, l, 0) == {} && StayBelow(v, l, 0) == {};
  }

  lemma ScanUnlisted(top: nat, used: map<nat, nat>, lists: seq<seq<nat>>, v: View, l: nat, k: nat, x: nat)
    requires Scanned(top, used, lists, v, l, k) && x in v.free[l] && x !in UpBelow(v, l, k) + StayBelow(v, l, k)
    ensures Unlisted(lists, x) && 0 < x < Pow2(top)
  {
    FreeUnitOf(v, l, x);
    forall j | 0 <= j < |lists| ensures x !in lists[j] {
      if j <= top { assert x !in FreeSets(lists, top)[j]; }
      else if j <= top + 2 { assert x !in Members(lists[j]); }
    }
  }

  function Joined(lists: seq<seq<nat>>, j: nat, x: nat): seq<seq<nat>>
    requires j < |lists|
  {
    lists[j := lists[j] + [x]]
  }

  lemma ScanPush(top: nat, used: map<nat, nat>, lists: seq<seq<nat>>, v: View, l: nat, k: nat, j: nat, x: nat)
    requires Scanned(top, used, lists, v, l, k) && (j == top + 1 || j == top + 2)
    requires StayBelow(v, l, k + 1) == StayBelow(v, l, k) + if j == top + 1 then {x} else {}
    requires UpBelow(v, l, k + 1) == UpBelow(v, l, k) + if j == top + 2 then {x} else {}
    ensures Scanned(top, used, Joined(lists, j, x), v, l, k + 1)
    ensures Joined(lists, j, x)[top + 3..] == lists[top + 3..]
  {
    FreeSetsUpdate(lists, top, j, lists[j] + [x]);
    assert Members(lists[j] + [x]) == Members(lists[j]) + {x};
  }

  /** The three ways a pair of bits is handled. */
  lemma PairTables(top: nat, used: map<nat, nat>, lists: seq<seq<nat>>, v: View, l: nat, k: nat)
    requires Scanned(top, used, lists, v, l, k)
    ensures var a, b := 2 * k in Chunks(v.free[l], l), 2 * k + 1 in Chunks(v.free[l], l);
            var x, y := Shl(2 * k, l), Shl(2 * k + 1, l);
            if a && b then Pushable(top, used, lists, v, l, k, top + 2, x)
            else if a then Pushable(top, used, lists, v, l, k, top + 1, x)
            else if b then Pushable(top, used, lists, v, l, k, top + 1, y)
            else Scanned(top, used, lists, v, l, k + 1)
  {
    PairStep(v, l, k);
    var a, b := 2 * k in Chunks(v.free[l], l), 2 * k + 1 in Chunks(v.free[l], l);
    var x, y := Shl(2 * k, l), Shl(2 * k + 1, l);
    if a {
      ScanUnlisted(top, used, lists, v, l, k, x);
      ScanPush(top, used, lists, v, l, k, if b then top + 2 else top + 1, x);
    } else if b {
      ScanUnlisted(top, used, lists, v, l, k, y);
      ScanPush(top, used, lists, v, l, k, top + 1, y);
    }
  }

  ghost predicate Pushable(top: nat, used: map<nat, nat>, lists: seq<seq<nat>>, v: View, l: nat, k: nat, j: nat,
          x: nat)
  {
    && j < |lists| && top + 3 <= |lists|
    && Unlisted(lists, x) && 0 < x < Pow2(top) && Scanned(top, used, Joined(lists, j, x), v, l, k + 1)
    && Joined(lists, j, x)[top + 3..] == lists[top + 3..]
  }

  /** A word of clear bits. */
  lemma ClearTables(top: nat, used: map<nat, nat>, lists: seq<seq<nat>>, v: View, l: nat, k: nat, n: nat)
    requires Scanned(top, used, lists, v, l, k)
    requires forall c :: 2 * k <= c < 2 * (k + n) ==> c !in Chunks(v.free[l], l)
    ensures Scanned(top, used, lists, v, l, k + n)
  {
    ClearPairs(v, l, k, n);
  }

  // ---------------------------------------------------------------- draining the post-merge lists

  /** Still to be pushed back: `lists[top + 2]` to level `l + 1`, then `lists[top + 1]` to level `l`. */
  ghost predicate Draining(top: nat, used: map<nat, nat>, lists: seq<seq<nat>>, v: View, l: nat) {
    && v.top == top && Packed(v) && l < top && top + 3 <= |lists|
    && used == v.used
    && FreeSets(lists, top)
       == v.free[l := v.free[l] - Members(lists[top + 1])][l + 1 := v.free[l + 1] - Members(lists[top + 2])]
    && Members(lists[top + 1]) <= v.free[l] && Members(lists[top + 2]) <= v.free[l + 1]
    && forall j, u :: top + 3 <= j < |lists| && u in lists[j] ==> u in used
  }

  lemma DrainStarts(top: nat, used: map<nat, nat>, lists: seq<seq<nat>>, v: View, l: nat, k: nat)
    requires Scanned(top, used, lists, v, l, k) && k >= Pow2(top - l - 1)
    ensures Draining(top, used, lists, MergeLevel(v, l), l)
  {
    ScanComplete(v, l, k);
    MergeLevelAchieves(v, l);
    var w := MergeLevel(v, l);
    forall u | u in UpBelow(v, l, k) ensures u !in v.free[l + 1] { FreeUnitOf(v, l, u); }
    assert w.free[l + 1] - UpBelow(v, l, k) == v.free[l + 1];
    assert w.free[l] - StayBelow(v, l, k) == {};
    assert FreeSets(lists, top) == w.free[l := {}][l + 1 := v.free[l + 1]];
  }

  /** A block popped from a post-merge list and pushed on its free list. */
  lemma DrainStep(top: nat, used: map<nat, nat>, before: seq<seq<nat>>, lists: seq<seq<nat>>, v: View, l: nat,
          next: bool, x: nat)
    requires Draining(top, used, before, v, l)
    requires var j := if next then top + 2 else top + 1;
             |lists| == |before| && lists == before[j := lists[j]] && before[j] == lists[j] + [x]
             && Unlisted(lists, x) && Members(lists[j]) == Members(before[j]) - {x}
    ensures var m := if next then l + 1 else l;
            && 0 < x < Pow2(top) && Draining(top, used, Joined(lists, m, x), v, l)
            && Joined(lists, m, x)[top + 3..] == before[top + 3..]
  {
    var m, j := if next then l + 1 else l, if next then top + 2 else top + 1;
    assert x in Members(before[j]);
    FreeUnitOf(v, m, x);
    FreeSetsUpdate(before, top, j, lists[j]);
    FreeSetsUpdate(lists, top, m, lists[m] + [x]);
    assert Members(lists[m] + [x]) == Members(lists[m]) + {x};
    assert FreeSets(lists, top)[m] == Members(lists[m]);
    var after := Joined(lists, m, x);
    assert FreeSets(after, top)[m] == v.free[m] - Members(after[j]);
    assert FreeSets(after, top)
           == v.free[l := v.free[l] - Members(after[top + 1])][l + 1 := v.free[l + 1] - Members(after[top + 2])];
  }

  lemma DrainEnds(top: nat, used: map<nat, nat>, lists: seq<seq<nat>>, v: View, l: nat)
    requires Draining(top, used, lists, v, l) && lists[top + 1] == [] && lists[top + 2] == []
    ensures FreeSets(lists, top) == v.free
  {
    assert Members([]) == {};
    assert v.free[l] - {} == v.free[l] && v.free[l + 1] - {} == v.free[l + 1];
  }

  // ---------------------------------------------------------------- the swapped list

  /** The chain starting at link `head`, as it sits in the entry table. */
  ghost predicate Chained(e: seq<Entry>, head: nat, chain: seq<nat>, top: nat) {
    && |e| == Pow2(top) + 1 && head == Top(chain)
    && forall i :: 0 <= i < |chain| ==> Step(e, chain, i, top)
  }

  ghost predicate Step(e: seq<Entry>, chain: seq<nat>, i: nat, top: nat)
    requires i < |chain| && |e| == Pow2(top) + 1
  {
    chain[i] < Pow2(top) && e[chain[i] + 1].next == Link(chain, i)
  }

  ghost predicate DistinctChunks(chain: seq<nat>, l: nat) {
    forall i, j :: 0 <= i < j < |chain| ==> Shr(chain[i], l) != Shr(chain[j], l)
  }

  lemma SwapChained(e: seq<Entry>, heads: seq<nat>, lists: seq<seq<nat>>, home: map<nat, (nat, nat)>, top: nat, v: View,
          l: nat)
    requires Linked(e, heads, lists, home) && |e| == Pow2(top) + 1 && l <= top < |lists| && ViewOf(top, e, lists) == v
             && Packed(v)
    ensures Chained(e, heads[l], lists[l], top) && DistinctChunks(lists[l], l) && Members(lists[l]) == v.free[l]
  {
    var chain := lists[l];
    assert FreeSets(lists, top)[l] == Members(chain);
    forall i | 0 <= i < |chain| ensures Step(e, chain, i, top) {
      assert OnList(e, lists[l], i, l, home);
    }
    forall i, j | 0 <= i < j < |chain| ensures Shr(chain[i], l) != Shr(chain[j], l) {
      assert OnList(e, lists[l], i, l, home) && OnList(e, lists[l], j, l, home);
      FreeUnitOf(v, l, chain[i]);
      FreeUnitOf(v, l, chain[j]);
    }
  }

  /** Following one link of the chain, from its top `n` down. */
  lemma FollowLink(e: seq<Entry>, head: nat, chain: seq<nat>, top: nat, n: nat)
    requires Chained(e, head, chain, top) && n <= |chain| && Top(chain[..n]) != 0
    ensures n > 0 && Top(chain[..n]) == chain[n - 1] + 1 < |e|
    ensures e[chain[n - 1] + 1].next == Top(chain[..n - 1])
  {
    assert n > 0;
    assert Step(e, chain, n - 1, top);
    assert Link(chain, n - 1) == Top(chain[..n - 1]);
  }

  /** The bit `set_bit` is about to set is clear, as it asserts. */
  lemma BitIsClear(chain: seq<nat>, n: nat, l: nat)
    requires DistinctChunks(chain, l) && 0 < n <= |chain|
    ensures Shr(chain[n - 1], l) !in Chunks(Members(chain[n..]), l)
  {
    forall u | u in chain[n..] ensures Shr(u, l) != Shr(chain[n - 1], l) {
      var i :| 0 <= i < |chain| - n && chain[n..][i] == u;
      assert chain[n + i] == u;
    }
  }

  lemma ChunksOfSuffix(chain: seq<nat>, n: nat, l: nat)
    requires 0 < n <= |chain|
    ensures Chunks(Members(chain[n - 1..]), l) == Chunks(Members(chain[n..]), l) + {Shr(chain[n - 1], l)}
  {
    assert chain[n - 1..] == [chain[n - 1]] + chain[n..];
    assert Members(chain[n - 1..]) == Members(chain[n..]) + {chain[n - 1]};
  }
}
