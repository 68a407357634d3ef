/** One zone and its tables, updated in place by one process at a time: `alloc`, `free`, the delayed-free
    lists, `merge` and the offline collector.  Every operation is proved to compute the function on
    views that `ZoneView` gives for it.

    The heads of all the lists sit in one array: the free lists `0 .. top`, the two post-merge lists, and
    the five delayed-free lists of the epoch heap, which thread through the same entry table. */
module ZoneHeap {
  import opened Dyadic
  import opened Tiling
  import opened ZoneView
  import opened ZoneTables
  import opened ZoneMerge
  import opened Bitmaps
  import opened ZoneCollector
  import ZoneProtocol
  import SizeClass

  const DELAYED: nat := 5

  /** Outside the free lists only blocks marked allocated are listed, and only on the delayed lists. */
  ghost predicate Parked(top: nat, e: seq<Entry>, lists: seq<seq<nat>>) {
    && |lists| == top + 3 + DELAYED
    && lists[top + 1] == [] && lists[top + 2] == []
    && forall j, u :: top + 3 <= j < |lists| && u in lists[j] ==> u in UsedMap(e)
  }

  lemma NowhereListed(top: nat, e: seq<Entry>, lists: seq<seq<nat>>, u: nat)
    requires Parked(top, e, lists) && u !in UsedMap(e)
    requires forall l :: 0 <= l <= top ==> u !in FreeSets(lists, top)[l]
    ensures Unlisted(lists, u)
  {
    forall j | 0 <= j < |lists| ensures u !in lists[j] {
      if j <= top { assert u !in FreeSets(lists, top)[j]; }
    }
  }

  /** While `alloc` holds block `u` of level `l`, the tables show `v` without it. */
  function InHand(v: View, l: nat, u: nat): View
    requires l < |v.free|
  {
    v.(free := v.free[l := v.free[l] - {u}])
  }

  /** The right half is nowhere in the tables, and pushing it is a split. */
  lemma RightHalfIsNew(v: View, l: nat, u: nat)
    requires Packed(v) && 0 < l <= v.top && u in v.free[l]
    ensures var r := u + Pow2(l - 1);
            && 0 < u < Pow2(v.top) && 0 < r < Pow2(v.top) && r != u && r !in v.used && u !in v.used
            && (forall k :: 0 <= k <= v.top ==> r !in v.free[k] && u !in InHand(v, l, u).free[k])
            && InHand(SplitFree(v, l, u), l - 1, u)
               == InHand(v, l, u).(free := InHand(v, l, u).free[l - 1 := v.free[l - 1] + {r}])
  {
    var w, r := SplitFree(v, l, u), u + Pow2(l - 1);
    var h, g := Holding(Free(l), Block(u, l)), Holding(Free(l - 1), Block(r, l - 1));
    assert h in Family(v);
    OneUse(v, u, h);
    UnitZeroIsUsed(v, h);
    SplitFreeRepacks(v, l, u);
    assert g in Family(w);
    OneUse(w, r, g);
    forall k | 0 <= k <= v.top ensures r !in v.free[k] && u !in InHand(v, l, u).free[k] {
      if u in v.free[k] { OnePlace(Family(v), h, Holding(Free(k), Block(u, k))); }
      Occupied(Family(v), h, Holding(Free(k), Block(r, k)));
    }
    assert u !in v.free[l - 1];
    assert w.free[l - 1] - {u} == v.free[l - 1] + {r};
    assert InHand(w, l - 1, u).free == InHand(v, l, u).free[l - 1 := v.free[l - 1] + {r}];
  }

  /** One round of the splitting loop. */
  lemma SplitStep(top: nat, e: seq<Entry>, lists: seq<seq<nat>>, v: View, l: nat, u: nat)
    requires Parked(top, e, lists) && v.top == top && Packed(v) && 0 < l <= top && u in v.free[l]
    requires ViewOf(top, e, lists) == InHand(v, l, u)
    ensures var r := u + Pow2(l - 1); var lists' := lists[l - 1 := lists[l - 1] + [r]];
            && 0 < r < Pow2(top) && Unlisted(lists, r)
            && View(top, UsedMap(e), FreeSets(lists', top)) == InHand(SplitFree(v, l, u), l - 1, u)
            && lists'[top + 3..] == lists[top + 3..]
            && Parked(top, e, lists')
  {
    var r := u + Pow2(l - 1);
    RightHalfIsNew(v, l, u);
    NowhereListed(top, e, lists, r);
    FreeSetsUpdate(lists, top, l - 1, lists[l - 1] + [r]);
    assert Members(lists[l - 1] + [r]) == Members(lists[l - 1]) + {r};
    assert FreeSets(lists, top)[l - 1] == v.free[l - 1];
  }

  /** Which lists are parked does not depend on links. */
  lemma ParkedByMap(top: nat, e: seq<Entry>, e': seq<Entry>, lists: seq<seq<nat>>)
    requires Parked(top, e, lists) && UsedMap(e') == UsedMap(e)
    ensures Parked(top, e', lists)
  {}

  // ---------------------------------------------------------------- the new zone

  function InitialLists(top: nat, n: nat): seq<seq<nat>> {
    seq(top + 3 + DELAYED, l => if 0 <= l < n && l < top then [Pow2(l)] else [])
  }

  ghost function InitialView(top: nat): View {
    View(top, map[0 := 0], seq(top + 1, l => if 0 <= l < top then {Pow2(l)} else {}))
  }

  lemma InitialUnlisted(top: nat, n: nat)
    requires n < top
    ensures Unlisted(InitialLists(top, n), Pow2(n)) && 0 < Pow2(n) < Pow2(top)
    ensures InitialLists(top, n)[n := InitialLists(top, n)[n] + [Pow2(n)]] == InitialLists(top, n + 1)
  {
    Pow2Mono(n + 1, top);
    forall l | 0 <= l < n ensures Pow2(l) < Pow2(n) { Pow2Mono(l + 1, n); }
    assert [] + [Pow2(n)] == [Pow2(n)];
    assert InitialLists(top, n)[n] == [];
    assert InitialLists(top, n)[n := [Pow2(n)]] == InitialLists(top, n + 1);
  }

  lemma InitialMember(top: nat, h: Holding<Side>)
    requires h in Family(InitialView(top))
    ensures h == Holding(Used, Block(0, 0))
            || (h.block.level < top && h == Holding(Free(h.block.level), Block(Pow2(h.block.level), h.block.level)))
    ensures h.block.Aligned() && h.block.level <= top && h.block.unit < Pow2(top)
  {
    if h != Holding(Used, Block(0, 0)) {
      ZoneProtocol.PowIsShl(h.block.level);
      NthAligned(1, h.block.level);
      Pow2Mono(h.block.level + 1, top);
    }
  }

  /** A new zone is tiled by the reserved unit 0 and one block of each level below the top. */
  lemma InitialTiled(top: nat)
    ensures Tiled(InitialView(top))
  {
    var v := InitialView(top);
    var h0 := Holding(Used, Block(0, 0));
    forall h | h in Family(v) ensures h.block.Aligned() && h.block.level <= top && h.block.unit < Pow2(top) {
      InitialMember(top, h);
    }
    forall h, g | h in Family(v) && g in Family(v) && h != g ensures h.block.Disjoint(g.block) {
      InitialMember(top, h);
      InitialMember(top, g);
      if h != h0 && g != h0 {
        if h.block.level < g.block.level { ZoneProtocol.PowersDisjoint(h.block.level, g.block.level); }
        else { ZoneProtocol.PowersDisjoint(g.block.level, h.block.level); }
      }
    }
    forall x | 0 <= x < Pow2(top) ensures CoveredBy(Family(v), x) {
      if x == 0 {
        assert h0 in Family(v) && h0.block.Covers(x);
      } else {
        var l := ZoneProtocol.PowersCover(x, top);
        assert Holding(Free(l), Block(Pow2(l), l)) in Family(v);
      }
    }
  }

  lemma InitialLooks(top: nat, e: seq<Entry>, lists: seq<seq<nat>>)
    requires lists == InitialLists(top, top) && UsedMap(e) == map[0 := 0]
    ensures Parked(top, e, lists) && ViewOf(top, e, lists) == InitialView(top)
    ensures lists[top + 3..] == [[], [], [], [], []]
  {
    assert Members([]) == {};
    forall l | 0 <= l < top ensures Members(lists[l]) == {Pow2(l)} { assert lists[l] == [Pow2(l)]; }
    assert FreeSets(lists, top) == InitialView(top).free;
  }

  // ---------------------------------------------------------------- alloc and free

  lemma PopIsInHand(top: nat, e: seq<Entry>, lists: seq<seq<nat>>, e': seq<Entry>, lists': seq<seq<nat>>, l: nat,
          u: nat)
    requires Parked(top, e, lists) && l <= top && |lists'| == |lists| && lists' == lists[l := lists'[l]]
    requires UsedMap(e') == UsedMap(e) && Members(lists'[l]) == Members(lists[l]) - {u}
    ensures Parked(top, e', lists') && ViewOf(top, e', lists') == InHand(ViewOf(top, e, lists), l, u)
    ensures lists'[top + 3..] == lists[top + 3..]
  {
    FreeSetsUpdate(lists, top, l, lists'[l]);
    assert FreeSets(lists', top) == FreeSets(lists, top)[l := Members(lists[l]) - {u}];
  }

  lemma TakeOne(v: View, l: nat, u: nat)
    requires l < |v.free|
    ensures Take(v, l, l, u) == InHand(v, l, u).(used := v.used[u := l])
  {}

  lemma UnitInHand(top: nat, e: seq<Entry>, lists: seq<seq<nat>>, v: View, l: nat, u: nat)
    requires Parked(top, e, lists) && v.top == top && Packed(v) && l <= top && u in v.free[l]
    requires ViewOf(top, e, lists) == InHand(v, l, u)
    ensures 0 < u < Pow2(top) && Unlisted(lists, u)
  {
    var h := Holding(Free(l), Block(u, l));
    assert h in Family(v);
    OneUse(v, u, h);
    UnitZeroIsUsed(v, h);
    forall k | 0 <= k <= top ensures u !in FreeSets(lists, top)[k] {
      if u in v.free[k] { OnePlace(Family(v), h, Holding(Free(k), Block(u, k))); }
    }
    NowhereListed(top, e, lists, u);
  }

  lemma ParkedUsed(top: nat, e: seq<Entry>, e': seq<Entry>, lists: seq<seq<nat>>, u: nat)
    requires Parked(top, e, lists) && UsedMap(e').Keys == UsedMap(e).Keys + {u}
    ensures Parked(top, e', lists)
  {}

  lemma ParkedStill(top: nat, e: seq<Entry>, e': seq<Entry>, lists: seq<seq<nat>>, u: nat)
    requires Parked(top, e, lists) && UsedMap(e') == UsedMap(e) - {u} && Unlisted(lists, u)
    ensures Parked(top, e', lists)
  {}

  lemma ParkTables(top: nat, e: seq<Entry>, lists: seq<seq<nat>>, d: nat, u: nat)
    requires Parked(top, e, lists) && Packed(ViewOf(top, e, lists)) && u in UsedMap(e) && |e| == Pow2(top) + 1
    requires d < DELAYED && Unlisted(lists[top + 3..], u)
    ensures Unlisted(lists, u) && u < Pow2(top)
    ensures var lists' := lists[top + 3 + d := lists[top + 3 + d] + [u]];
            && Parked(top, e, lists') && FreeSets(lists', top) == FreeSets(lists, top)
            && lists'[top + 3..] == lists[top + 3..][d := lists[top + 3..][d] + [u]]
  {
    UsedIsUnlisted(top, e, lists, u);
    FreeSetsUpdate(lists, top, top + 3 + d, lists[top + 3 + d] + [u]);
  }

  /** Lists are written bottom first. */
  predicate IsTop(list: seq<nat>, u: nat) { list != [] && list[|list| - 1] == u }

  /** The blocks `us` of `v` have been freed, at the levels they were allocated at. */
  ghost predicate BulkReturned(v: View, w: View, us: set<nat>) {
    && us <= v.used.Keys && w.used == v.used - us && w.top == v.top && |w.free| == |v.free|
    && (forall l :: 0 <= l < |v.free| ==> w.free[l] == v.free[l] + set u | u in us && v.used[u] == l)
    && forall x: nat :: FreeUnit(w, x) <==> FreeUnit(v, x) || exists u :: u in us && Block(u, v.used[u]).Covers(x)
  }

  /** The last `n` blocks of the list `was` have been freed. */
  ghost predicate Round(v: View, w: View, was: seq<nat>, n: nat)
    requires n <= |was|
  {
    BulkReturned(v, w, Members(was[|was| - n..]))
  }

  lemma RoundStarts(v: View, was: seq<nat>)
    ensures Round(v, v, was, 0) && was[..|was|] == was
  {
    assert Members(was[|was|..]) == {};
    assert v.used - {} == v.used;
  }

  lemma RoundStep(v: View, w: View, was: seq<nat>, n: nat, u: nat)
    requires n < |was| && u == was[|was| - n - 1]
    requires Round(v, w, was, n) && Packed(w) && u in w.used && u != 0 && w.used[u] <= w.top
    ensures Round(v, Return(w, u), was, n + 1)
  {
    assert was[|was| - n - 1..] == [u] + was[|was| - n..];
    OneMoreReturned(v, w, Members(was[|was| - n..]), u);
    assert Members(was[|was| - n - 1..]) == {u} + Members(was[|was| - n..]);
  }

  lemma OneMoreReturned(v: View, w: View, us: set<nat>, u: nat)
    requires BulkReturned(v, w, us) && Packed(w) && u in w.used && u != 0 && w.used[u] <= w.top
    ensures BulkReturned(v, Return(w, u), {u} + us)
  {
    ReturnAchieves(w, u);
    assert v.used - ({u} + us) == w.used - {u};
    assert v.used[u] == w.used[u];
    forall l | 0 <= l < |v.free|
      ensures Return(w, u).free[l] == v.free[l] + set x | x in {u} + us && v.used[x] == l
    {
      ReturnLevels(w, u, l);
    }
  }

  /** A block a client holds is on no list. */
  lemma UsedIsUnlisted(top: nat, e: seq<Entry>, lists: seq<seq<nat>>, u: nat)
    requires Parked(top, e, lists) && Packed(ViewOf(top, e, lists)) && u in UsedMap(e) && |e| == Pow2(top) + 1
    requires Unlisted(lists[top + 3..], u)
    ensures Unlisted(lists, u) && u < Pow2(top)
  {
    var v := ViewOf(top, e, lists);
    forall j | 0 <= j < |lists| ensures u !in lists[j] {
      if j <= top {
        if u in lists[j] { assert u in v.free[j]; OneUse(v, u, Holding(Free(j), Block(u, j))); }
      } else if j >= top + 3 {
        assert lists[top + 3..][j - top - 3] == lists[j];
      }
    }
  }

  lemma UnitZeroIsUsed(v: View, h: Holding<Side>)
    requires Packed(v) && h in Family(v) && h.place != Used
    ensures 0 < h.block.unit < Pow2(v.top) && h.block.level <= v.top
  {
    if h.block.unit == 0 { OnePlace(Family(v), h, Holding(Used, Block(0, 0))); }
  }

  // ---------------------------------------------------------------- merge

  lemma {:induction false} ShrLeast(x: nat, l: nat)
    ensures Shr(x, l) <= x
  {
    if l > 0 { ShrLeast(x, l - 1); }
  }

  // ---------------------------------------------------------------- garbage collection

  lemma Pow2Is8(m: nat)
    ensures Pow2(m + 3) == 8 * Pow2(m)
  {
    assert Pow2(m + 3) == 2 * Pow2(m + 2);
  }

  /** The two runs of pair `k` lie side by side in the collector's bitmap. */
  lemma PairFits(k: nat, l: nat, top: nat)
    requires 3 <= top && l < top && k < Pow2(top - l - 1)
    ensures LeftOf(k, l).Aligned() && RightOf(k, l).Aligned() && LeftOf(k, l).unit == Shl(k, l + 1)
    ensures RightOf(k, l).unit == LeftOf(k, l).unit + Pow2(l)
    ensures RightOf(k, l).unit + Pow2(l) <= 8 * Pow2(top - 3)
  {
    Pow2Is8(top - 3);
    Pair(k, l);
    PairInZone(k, l, top);
  }

  /** The allocated blocks of level `l` below run number `k`. */
  ghost function UsedBelow(v: View, l: nat, k: nat): set<nat> {
    set u | u in v.used && v.used[u] == l && Shr(u, l) < k
  }

  lemma RunNumber(k: nat, l: nat, top: nat)
    requires l <= top
    ensures Shl(k, l) < Pow2(top) <==> k < Pow2(top - l)
    ensures Shl(k + 1, l) == Shl(k, l) + Pow2(l)
  {
    ShrShl(k, l);
    ShrRange(Shl(k, l), l, top);
    ShlAdd(k, l);
  }

  lemma UsedBelowNext(v: View, l: nat, k: nat)
    requires Packed(v)
    ensures var u := Shl(k, l);
            if u in v.used && v.used[u] == l then
              UsedBelow(v, l, k + 1) == UsedBelow(v, l, k) + {u} && StartsHere(v, l, u)
            else UsedBelow(v, l, k + 1) == UsedBelow(v, l, k)
  {
    ShrShl(k, l);
    forall u | u in v.used && v.used[u] == l && Shr(u, l) == k ensures u == Shl(k, l) {
      StartsInZone(v, l, u);
    }
  }

  lemma AllUsedBelow(v: View, l: nat)
    requires Packed(v) && l <= v.top
    ensures forall u :: u in UsedBelow(v, l, Pow2(v.top - l)) <==> u in v.used && v.used[u] == l
  {
    forall u | u in v.used && v.used[u] == l ensures Shr(u, l) < Pow2(v.top - l) {
      StartsInZone(v, l, u);
      ShrRange(u, l, v.top);
    }
  }

  lemma FillTables(top: nat, e: seq<Entry>, lists: seq<seq<nat>>, bits: set<nat>, u: nat, l: nat)
    requires Parked(top, e, lists) && l < top && Hole(ViewOf(top, e, lists), bits, Block(u, l))
    ensures Unlisted(lists, u) && 0 < u && u + Pow2(l) <= Pow2(top)
    ensures var lists' := lists[l := lists[l] + [u]];
            && Parked(top, e, lists') && Packed(ViewOf(top, e, lists'))
            && ViewOf(top, e, lists') == Filled(ViewOf(top, e, lists), l, u)
            && lists'[top + 3..] == lists[top + 3..]
  {
    var v := ViewOf(top, e, lists);
    FillPacks(v, bits, Block(u, l));
    FillMarks(v, bits, Block(u, l));
    NowhereListed(top, e, lists, u);
    FreeSetsUpdate(lists, top, l, lists[l] + [u]);
    assert Members(lists[l] + [u]) == Members(lists[l]) + {u};
  }

  lemma LongerSuffix(chain: seq<nat>, n: nat, used: set<nat>)
    requires 0 < n <= |chain|
    ensures used + Members(chain[n - 1..]) == used + Members(chain[n..]) + {chain[n - 1]}
  {
    assert chain[n - 1..] == [chain[n - 1]] + chain[n..];
  }

  class Zone {
    const top: nat
    const unitLog: nat
    const entries: array<Entry>
    const heads: array<nat>
    const words: array<bv64>       // the merge bitmap, as the merge uses it
    const bytes: array<bv8>        // the same room, as the collector uses it
    var mergeInProgress: bool
    var mergeStatus: ZoneProtocol.MergeStatus
    var mergeLevel: int
    var safeCopy: nat
    ghost var lists: seq<seq<nat>>
    ghost var home: map<nat, (nat, nat)>

    ghost predicate Rep()
      reads this, entries, heads
    {
      && unitLog < 63
      && 6 <= top
      && entries.Length == Pow2(top) + 1
      && words.Length == Pow2(top - 6)
      && bytes.Length == Pow2(top - 3)
      && (words as object) != entries && (words as object) != heads
      && (bytes as object) != entries && (bytes as object) != heads && (bytes as object) != words
      && |lists| == top + 3 + DELAYED
      && Linked(entries[..], heads[..], lists, home)
    }

    ghost function View(): View
      requires top < |lists|
      reads this, entries
    {
      ViewOf(top, entries[..], lists)
    }

    /** No merge phase is under way.  A merge whose recovery gave up may have left its level and its safe
        copy behind. */
    predicate Idle()
      reads this
    {
      mergeStatus == ZoneProtocol.NoMerge
    }

    /** What a completed merge leaves. */
    predicate Reset()
      reads this
    {
      Idle() && mergeLevel == -1 && safeCopy == 0
    }

    ghost predicate Valid()
      reads this, entries, heads
    {
      Rep() && Parked(top, entries[..], lists) && Packed(View())
    }

    ghost function Delayed(): seq<seq<nat>>
      requires top + 3 <= |lists|
      reads this
    {
      lists[top + 3..]
    }

    /** A new zone: unit 0 reserved, the rest cut into one block of each level below the top. */
    constructor (top: nat, unitLog: nat)
      requires 6 <= top && 6 <= unitLog && top + unitLog <= 40
      ensures this.top == top && this.unitLog == unitLog
      ensures Valid() && View() == InitialView(top) && Tiled(View())
      ensures Delayed() == [[], [], [], [], []]
      ensures fresh(entries) && fresh(heads) && fresh(words) && fresh(bytes) && !mergeInProgress && Reset()
    {
      this.top, this.unitLog := top, unitLog;
      entries := new Entry[Pow2(top) + 1](_ => Entry(false, 0, 0));
      heads := new nat[top + 3 + DELAYED](_ => 0);
      words := new bv64[Pow2(top - 6)](_ => 0);
      bytes := new bv8[Pow2(top - 3)](_ => 0);
      mergeInProgress, mergeStatus, mergeLevel, safeCopy := false, ZoneProtocol.NoMerge, -1, 0;
      lists := InitialLists(top, 0);
      home := map[];
      new;
      Format();
    }

    /** The constructor's writes: unit 0 is reserved, and every list but the top one gets a block. */
    method Format()
      requires Rep() && lists == InitialLists(top, 0) && UsedMap(entries[..]) == map[] && 6 <= top
      modifies this`lists, this`home, entries, heads
      ensures Valid() && View() == InitialView(top) && Tiled(View()) && Delayed() == [[], [], [], [], []]
    {
      WriteEntry(0, true, 0);
      FillLists();
      InitialTiled(top);
      InitialLooks(top, entries[..], lists);
    }

    /** The constructor's loop over chunk sizes. */
    method FillLists()
      requires Rep() && lists == InitialLists(top, 0) && UsedMap(entries[..]) == map[0 := 0]
      modifies this`lists, this`home, entries, heads
      ensures Rep() && lists == InitialLists(top, top) && UsedMap(entries[..]) == map[0 := 0]
    {
      var level, size := 0, 1;
      while size < Pow2(top)
        invariant level <= top && size == Pow2(level)
        invariant Rep() && lists == InitialLists(top, level) && UsedMap(entries[..]) == map[0 := 0]
      {
        assert level < top;
        InitialUnlisted(top, level);
        Push(level, size);
        level, size := level + 1, size * 2;
      }
      if level < top { Pow2Mono(level + 1, top); }
    }

    /** `ZoneEntryStack::push`: the entry keeps its allocation bit and level. */
    method Push(j: nat, u: nat)
      requires Rep() && j < |lists| && 0 < u < Pow2(top) && Unlisted(lists, u)
      modifies this`lists, this`home, entries, heads
      ensures Rep() && lists == old(lists)[j := old(lists)[j] + [u]]
      ensures Members(lists[j]) == Members(old(lists)[j]) + {u}
      ensures UsedMap(entries[..]) == old(UsedMap(entries[..]))
    {
      ghost var e, hs := entries[..], heads[..];
      PushLinked(e, hs, lists, home, j, u);
      RelinkView(top, e, lists, u + 1, heads[j]);
      entries[u + 1] := entries[u + 1].(next := heads[j]);
      heads[j] := u + 1;
      home := home[u := (j, |lists[j]|)];
      lists := lists[j := lists[j] + [u]];
      assert entries[..] == e[u + 1 := e[u + 1].(next := hs[j])];
      assert heads[..] == hs[j := u + 1];
    }

    /** `ZoneEntryStack::pop`: 0 when the list is empty. */
    method Pop(j: nat) returns (u: nat)
      requires Rep() && j < |lists|
      modifies this`lists, heads
      ensures Rep() && UsedMap(entries[..]) == old(UsedMap(entries[..]))
      ensures u == 0 <==> old(lists)[j] == []
      ensures u == 0 ==> lists == old(lists)
      ensures u != 0 ==> u < Pow2(top) && old(lists)[j] == lists[j] + [u] && lists == old(lists)[j := lists[j]]
      ensures u != 0 ==>
                Unlisted(lists, u) && Members(lists[j]) == Members(old(lists)[j]) - {u}
                && u in Members(old(lists)[j])
    {
      if heads[j] == 0 { return 0; }
      ghost var e, hs := entries[..], heads[..];
      PopLinked(e, hs, lists, home, j);
      u := heads[j] - 1;
      heads[j] := entries[heads[j]].next;
      ghost var n := |lists[j]| - 1;
      assert lists[j] == lists[j][..n] + [u];
      lists := lists[j := lists[j][..n]];
      assert heads[..] == hs[j := e[hs[j]].next];
      assert OnList(e, old(lists)[j], n, j, home);
    }

    /** `set_bitmap_bit` and `reset_bitmap_bit` write the whole entry. */
    method WriteEntry(u: nat, alloc: bool, level: nat)
      requires Rep() && u < Pow2(top) && Unlisted(lists, u)
      modifies entries
      ensures Rep()
      ensures UsedMap(entries[..])
              == if alloc then old(UsedMap(entries[..]))[u := level] else old(UsedMap(entries[..])) - {u}
    {
      ghost var e := entries[..];
      EntryLinked(e, heads[..], lists, home, u, Entry(alloc, level, 0));
      MarkView(e, u, level);
      entries[u + 1] := Entry(alloc, level, 0);
      assert entries[..] == e[u + 1 := Entry(alloc, level, 0)];
    }

    /** Block `u` of level `l` has been popped from the zone `v` describes. */
    ghost predicate Carrying(v: View, l: nat, u: nat)
      reads this, entries, heads
    {
      && Rep() && Parked(top, entries[..], lists)
      && v.top == top && Packed(v) && l <= top && u in v.free[l] && View() == InHand(v, l, u)
    }

    /** One round of the splitting loop: the right half goes to the list below. */
    method SplitOnce(u: nat, l: nat, half: nat, ghost v: View)
      requires 0 < l && Carrying(v, l, u) && half == u + Pow2(l - 1)
      modifies this`lists, this`home, entries, heads
      ensures Carrying(SplitFree(v, l, u), l - 1, u) && Delayed() == old(Delayed())
    {
      SplitStep(top, entries[..], lists, v, l, u);
      SplitFreeRepacks(v, l, u);
      ghost var e := entries[..];
      Push(l - 1, half);
      ParkedByMap(top, e, entries[..], lists);
    }

    /** The splitting loop of `alloc`: `u` is in hand at `level`, and leaves at `want`. */
    method Split(u: nat, level: nat, want: nat, ghost v: View) returns (ghost w: View)
      requires want <= level && Carrying(v, level, u)
      modifies this`lists, this`home, entries, heads
      ensures Carrying(w, want, u) && Delayed() == old(Delayed())
      ensures Take(w, want, want, u) == Take(v, want, level, u)
    {
      w := v;
      var l, size := level, Pow2(level);
      while l != want
        invariant want <= l <= level && size == Pow2(l)
        invariant Carrying(w, l, u) && Delayed() == old(Delayed())
        invariant Take(w, want, l, u) == Take(v, want, level, u)
      {
        SplitOnce(u, l, u + size / 2, w);
        w := SplitFree(w, l, u);
        l := l - 1;
        size := size / 2;
      }
    }

    /** `set_bitmap_bit` on the block in hand. */
    method MarkTaken(u: nat, want: nat, ghost v: View)
      requires Carrying(v, want, u)
      modifies entries
      ensures Valid() && View() == Take(v, want, want, u)
    {
      TakeOne(v, want, u);
      UnitInHand(top, entries[..], lists, v, want, u);
      TakeAchieves(v, want, want, u);
      ghost var e := entries[..];
      WriteEntry(u, true, want);
      ParkedUsed(top, e, entries[..], lists, u);
    }

    /** `alloc` at one level: 0 if its list is empty. */
    method TakeFrom(level: nat, want: nat) returns (unit: nat)
      requires Valid() && want <= level <= top
      modifies this`lists, this`home, entries, heads
      ensures Valid() && Delayed() == old(Delayed())
      ensures unit == 0 ==> View() == old(View()) && View().free[level] == {} && lists == old(lists)
      ensures unit != 0 ==> unit in old(View()).free[level] && View() == Take(old(View()), want, level, unit)
      ensures unit != 0 ==> IsTop(old(lists)[level], unit)
    {
      ghost var v, e, before := View(), entries[..], lists;
      unit := Pop(level);
      if unit != 0 {
        PopIsInHand(top, e, before, entries[..], lists, level, unit);
        ghost var w := Split(unit, level, want, v);
        MarkTaken(unit, want, w);
      }
    }

    /** The search of `alloc`: the lists from `want` up, until one is not empty. */
    method TakeFirst(want: nat) returns (unit: nat)
      requires Valid()
      modifies this`lists, this`home, entries, heads
      ensures Valid() && Delayed() == old(Delayed())
      ensures var v := old(View()); var s := FirstLevel(v, want);
              if s > top then unit == 0 && View() == v
              else && unit != 0 && unit in v.free[s] && View() == Take(v, want, s, unit)
                   && IsTop(old(lists)[s], unit)
    {
      ghost var v := View();
      var level := want;
      while level <= top
        invariant want <= level && (want <= top ==> level <= top + 1)
        invariant Valid() && Delayed() == old(Delayed()) && View() == v && lists == old(lists)
        invariant forall j :: want <= j < level && j <= top ==> v.free[j] == {}
      {
        unit := TakeFrom(level, want);
        if unit != 0 { return unit; }
        level := level + 1;
      }
      unit := 0;
    }

    /** `alloc`: the least level whose list is not empty supplies the block, split down to the level the
        request needs. */
    method Alloc(size: nat) returns (unit: nat)
      requires Valid() && size < SizeClass.WORD
      modifies this`lists, this`home, entries, heads
      ensures Valid() && Delayed() == old(Delayed())
      ensures var v := old(View()); var want := SizeClass.LevelFor(size, unitLog); var s := FirstLevel(v, want);
              if s > top then unit == 0 && View() == v
              else && unit != 0 && unit in v.free[s] && View() == Take(v, want, s, unit)
                   && IsTop(old(lists)[s], unit)
    {
      var want := SizeClass.FindLevel(size, unitLog);
      unit := TakeFirst(want);
    }

    /** `free`: clears the allocation bit and pushes the block on the list of the level it was allocated at. */
    method Free(unit: nat)
      requires Valid() && (unit != 0 ==> unit in View().used && Unlisted(Delayed(), unit))
      modifies this`lists, this`home, entries, heads
      ensures Valid() && Delayed() == old(Delayed())
      ensures unit == 0 ==> View() == old(View())
      ensures unit != 0 ==> old(View()).used[unit] <= top && View() == Return(old(View()), unit)
      ensures unit != 0 ==> var l := old(View()).used[unit]; lists == old(lists)[l := old(lists)[l] + [unit]]
    {
      if unit == 0 { return; }
      ghost var v := View();
      UsedIsUnlisted(top, entries[..], lists, unit);
      ReturnAchieves(v, unit);
      var level := entries[unit + 1].level;
      ghost var e := entries[..];
      WriteEntry(unit, false, level);
      ParkedStill(top, e, entries[..], lists, unit);
      FreeSetsUpdate(lists, top, level, lists[level] + [unit]);
      e := entries[..];
      Push(level, unit);
      ParkedByMap(top, e, entries[..], lists);
      assert View() == Return(v, unit);
    }

    /** A block just freed is what the next request for its level gets, and then the zone is as it was. */
    method FreeThenAlloc(unit: nat, size: nat) returns (again: nat)
      requires Valid() && unit != 0 && unit in View().used && Unlisted(Delayed(), unit)
      requires size < SizeClass.WORD && SizeClass.LevelFor(size, unitLog) == View().used[unit]
      modifies this`lists, this`home, entries, heads
      ensures Valid() && again == unit && View() == old(View()) && Delayed() == old(Delayed())
    {
      AllocUndoesFree(View(), unit);
      Free(unit);
      again := Alloc(size);
    }

    /** `EpochZoneHeap::Free`: the block goes on a delayed list, still marked allocated. */
    method Park(d: nat, unit: nat)
      requires Valid() && d < DELAYED && 0 < unit && unit in View().used && Unlisted(Delayed(), unit)
      modifies this`lists, this`home, entries, heads
      ensures Valid() && View() == old(View())
      ensures Delayed() == old(Delayed())[d := old(Delayed())[d] + [unit]]
    {
      ghost var e := entries[..];
      ParkTables(top, e, lists, d, unit);
      Push(top + 3 + d, unit);
      ParkedByMap(top, e, entries[..], lists);
    }

    /** The worker's pop: the block comes back still allocated at its level, and on no list. */
    method Unpark(d: nat) returns (unit: nat)
      requires Valid() && d < DELAYED
      modifies this`lists, heads
      ensures Valid() && View() == old(View())
      ensures unit == 0 <==> old(Delayed())[d] == []
      ensures unit == 0 ==> Delayed() == old(Delayed())
      ensures unit != 0 ==> old(Delayed())[d] == Delayed()[d] + [unit] && Delayed() == old(Delayed())[d := Delayed()[d]]
      ensures unit != 0 ==> unit in View().used && Unlisted(Delayed(), unit)
    {
      ghost var before := lists;
      unit := Pop(top + 3 + d);
      if unit != 0 {
        assert unit in before[top + 3 + d];
        FreeSetsUpdate(before, top, top + 3 + d, lists[top + 3 + d]);
        assert forall j :: 0 <= j < DELAYED ==> Delayed()[j] == lists[top + 3 + j];
      }
    }
  
    /** One block of the worker's round: popped, then freed. */
    method FreeOneParked(d: nat) returns (unit: nat)
      requires Valid() && d < DELAYED
      modifies this`lists, this`home, entries, heads
      ensures Valid()
      ensures unit == 0 <==> old(Delayed())[d] == []
      ensures unit == 0 ==> View() == old(View()) && Delayed() == old(Delayed())
      ensures unit != 0 ==> old(Delayed())[d] == Delayed()[d] + [unit] && Delayed() == old(Delayed())[d := Delayed()[d]]
      ensures unit != 0 ==>
                unit in old(View()).used && old(View()).used[unit] <= top && View() == Return(old(View()), unit)
    {
      unit := Unpark(d);
      Free(unit);
    }

    /** The worker's round on delayed list `d`: at most `budget` of its blocks are freed, newest first. */
    method FreeParked(d: nat, budget: nat)
      requires Valid() && d < DELAYED
      modifies this`lists, this`home, entries, heads
      ensures Valid()
      ensures var was := old(Delayed())[d]; var n := if |was| < budget then |was| else budget;
              Round(old(View()), View(), was, n) && Delayed() == old(Delayed())[d := was[..|was| - n]]
    {
      ghost var v, delayed := View(), Delayed();
      RoundStarts(v, delayed[d]);
      var i := 0;
      while i < budget
        invariant i <= budget && InRound(v, delayed, d, i)
      {
        var more := FreeNextParked(d, v, delayed, i);
        if !more { break; }
        i := i + 1;
      }
    }

    /** The worker has freed `i` blocks of its round, which began with the zone `v` and these lists. */
    ghost predicate InRound(v: View, delayed: seq<seq<nat>>, d: nat, i: nat)
      requires d < |delayed|
      reads this, entries, heads
    {
      && Valid() && i <= |delayed[d]|
      && Delayed() == delayed[d := delayed[d][..|delayed[d]| - i]]
      && Round(v, View(), delayed[d], i)
    }

    method FreeNextParked(d: nat, ghost v: View, ghost delayed: seq<seq<nat>>, ghost i: nat) returns (more: bool)
      requires d < DELAYED == |delayed| && InRound(v, delayed, d, i)
      modifies this`lists, this`home, entries, heads
      ensures InRound(v, delayed, d, if more then i + 1 else i) && (!more ==> i == |delayed[d]|)
    {
      ghost var w, was := View(), delayed[d];
      var unit := FreeOneParked(d);
      more := unit != 0;
      if more {
        RoundStep(v, w, was, i, unit);
        assert Delayed()[d] == was[..|was| - i - 1];
      }
    }

  
    // -------------------------------------------------------------- merge

    /** `swap_freelist` */
    method SwapFreelist(l: nat) returns (ghost chain: seq<nat>)
      requires Valid() && Idle() && l < top
      modifies this`mergeStatus, this`mergeLevel, this`safeCopy, this`lists, heads
      ensures Rep() && mergeStatus == ZoneProtocol.SwapCompleted && mergeLevel == l
      ensures Chained(entries[..], safeCopy, chain, top) && DistinctChunks(chain, l)
              && Members(chain) == old(View()).free[l]
      ensures lists == old(lists)[l := []]
    {
      ghost var hs := heads[..];
      mergeLevel := l;
      SwapChained(entries[..], hs, lists, home, top, View(), l);
      DropLinked(entries[..], hs, lists, home, l);
      chain := lists[l];
      var levelHead := heads[l];
      safeCopy := levelHead;
      heads[l] := 0;
      lists := lists[l := []];
      assert heads[..] == hs[l := 0];
      mergeStatus := ZoneProtocol.SwapCompleted;
    }

    /** One block of the swapped list: `set_bit` finds its bit clear. */
    method MarkChunk(l: nat, unit: nat, ghost chain: seq<nat>, ghost n: nat)
      requires 6 <= top && words.Length == Pow2(top - 6) && DistinctChunks(chain, l)
      requires 0 < n <= |chain| && unit == chain[n - 1] < Pow2(top)
      requires WordBits(words[..]) == Chunks(Members(chain[n..]), l)
      modifies words
      ensures WordBits(words[..]) == Chunks(Members(chain[n - 1..]), l)
    {
      Pow2Is64(top - 6);
      ShrLeast(unit, l);
      ChunksOfSuffix(chain, n, l);
      BitIsClear(chain, n, l);
      SetBit(words, Shr(unit, l));
    }

    method MarkNext(l: nat, idx: nat, ghost chain: seq<nat>, ghost n: nat) returns (next: nat)
      requires 6 <= top && entries.Length == Pow2(top) + 1 && words.Length == Pow2(top - 6)
      requires Chained(entries[..], safeCopy, chain, top) && DistinctChunks(chain, l)
      requires n <= |chain| && idx == Top(chain[..n]) && idx != 0
      requires WordBits(words[..]) == Chunks(Members(chain[n..]), l)
      modifies words
      ensures n > 0 && next == Top(chain[..n - 1])
      ensures WordBits(words[..]) == Chunks(Members(chain[n - 1..]), l)
    {
      FollowLink(entries[..], safeCopy, chain, top, n);
      next := entries[idx].next;
      MarkChunk(l, idx - 1, chain, n);
    }

    /** `create_merge_bitmap`: one bit for every block of the swapped list. */
    method CreateMergeBitmap(l: nat, ghost chain: seq<nat>)
      requires mergeStatus == ZoneProtocol.SwapCompleted
      requires 6 <= top && entries.Length == Pow2(top) + 1 && words.Length == Pow2(top - 6)
      requires Chained(entries[..], safeCopy, chain, top) && DistinctChunks(chain, l)
      modifies words, this`mergeStatus
      ensures WordBits(words[..]) == Chunks(Members(chain), l)
      ensures mergeStatus == ZoneProtocol.BitmapCompleted
    {
      ClearWords(words);
      var idx := safeCopy;
      ghost var n: nat := |chain|;
      assert chain[..n] == chain && Members(chain[n..]) == {};
      while idx != 0
        invariant n <= |chain| && idx == Top(chain[..n])
        invariant WordBits(words[..]) == Chunks(Members(chain[n..]), l)
        decreases n
      {
        idx := MarkNext(l, idx, chain, n);
        n := n - 1;
      }
      assert chain[n..] == chain;
      mergeStatus := ZoneProtocol.BitmapCompleted;
    }
  
    /** The scan of `do_merge` has finished the first `k` buddy pairs of level `l`. */
    ghost predicate Scanning(v: View, l: nat, k: nat)
      reads this, entries, heads, words
    {
      && Rep() && Scanned(top, UsedMap(entries[..]), lists, v, l, k)
      && WordBits(words[..]) == Chunks(v.free[l], l)
    }

    method PushMerged(j: nat, x: nat, ghost v: View, ghost l: nat, ghost k: nat)
      requires Scanning(v, l, k) && Pushable(top, UsedMap(entries[..]), lists, v, l, k, j, x)
      modifies this`lists, this`home, entries, heads
      ensures Scanning(v, l, k + 1) && Delayed() == old(Delayed())
    {
      Push(j, x);
    }

    /** One buddy pair: joined for the next level, kept at this one, or absent. */
    method ScanPair(l: nat, base: nat, both: bool, left: bool, right: bool, ghost v: View, ghost k: nat)
      requires Scanning(v, l, k) && base == 2 * k
      requires (left <==> base in WordBits(words[..])) && (right <==> base + 1 in WordBits(words[..]))
               && (both <==> left && right)
      modifies this`lists, this`home, entries, heads
      ensures Scanning(v, l, k + 1) && Delayed() == old(Delayed())
    {
      PairTables(top, UsedMap(entries[..]), lists, v, l, k);
      if both {
        PushMerged(top + 2, Shl(base, l), v, l, k);
      } else if left {
        PushMerged(top + 1, Shl(base, l), v, l, k);
      } else if right {
        PushMerged(top + 1, Shl(base + 1, l), v, l, k);
      }
    }

    /** The pair at bit `i` of word `w`, under the mask `shift`. */
    method ScanAt(l: nat, w: nat, data: bv64, i: nat, shift: bv64, ghost v: View, ghost j: nat) returns (next: bv64)
      requires w < words.Length && data == words[w] && i == 2 * j < 64 && shift == PairMask(j)
      requires Scanning(v, l, 32 * w + j)
      modifies this`lists, this`home, entries, heads
      ensures Scanning(v, l, 32 * w + j + 1) && Delayed() == old(Delayed())
      ensures next == PairMask(j + 1)
    {
      var both, left, right := ReadPair(words, w, data, i, shift, j);
      ScanPair(l, 64 * w + i, both, left, right, v, 32 * w + j);
      next := NextMask(shift, j);
    }

    /** The 32 pairs of a word, under a mask that moves two bits a round. */
    method ScanBits(l: nat, w: nat, data: bv64, ghost v: View)
      requires Scanning(v, l, 32 * w) && w < words.Length && data == words[w]
      modifies this`lists, this`home, entries, heads
      ensures Scanning(v, l, 32 * w + 32) && Delayed() == old(Delayed())
    {
      var shift := FirstMask();
      var i: nat := 0;
      ghost var j: nat := 0;
      while i < 64
        invariant i == 2 * j <= 64 && shift == PairMask(j)
        invariant Scanning(v, l, 32 * w + j) && Delayed() == old(Delayed())
      {
        shift := ScanAt(l, w, data, i, shift, v, j);
        i := i + 2;
        j := j + 1;
      }
    }

    /** One 64-bit word of the bitmap; a word of zeros is skipped. */
    method ScanWord(l: nat, w: nat, ghost v: View)
      requires Scanning(v, l, 32 * w) && w < words.Length
      modifies this`lists, this`home, entries, heads
      ensures Scanning(v, l, 32 * w + 32) && Delayed() == old(Delayed())
    {
      var data := words[w];
      if data == 0 {
        NoBits(words[..], w);
        ClearTables(top, UsedMap(entries[..]), lists, v, l, 32 * w, 32);
      } else {
        ScanBits(l, w, data, v);
      }
    }

    /** `do_merge` */
    method DoMerge(l: nat, ghost v: View)
      requires mergeStatus == ZoneProtocol.BitmapCompleted && l < top && Scanning(v, l, 0)
      modifies this`mergeStatus, this`lists, this`home, entries, heads
      ensures mergeStatus == ZoneProtocol.FreelistCompleted
      ensures Rep() && Draining(top, UsedMap(entries[..]), lists, MergeLevel(v, l), l) && Delayed() == old(Delayed())
    {
      ghost var k := ScanWords(l, v);
      DrainStarts(top, UsedMap(entries[..]), lists, v, l, k);
      mergeStatus := ZoneProtocol.FreelistCompleted;
    }

    /** The scan, 64 bits at a time. */
    method ScanWords(l: nat, ghost v: View) returns (ghost k: nat)
      requires l < top && Scanning(v, l, 0)
      modifies this`lists, this`home, entries, heads
      ensures Scanning(v, l, k) && k >= Pow2(top - l - 1) && Delayed() == old(Delayed())
    {
      var maxLength := BitmapLength(top, l);
      var length: nat := 0;
      while length < maxLength
        invariant length % 8 == 0 && Scanning(v, l, 4 * length) && Delayed() == old(Delayed())
      {
        BitmapLengthSuffices(top, l, length);
        ScanWord(l, length / 8, v);
        length := length + 8;
      }
      BitmapLengthSuffices(top, l, length);
      k := 4 * length;
    }

    /** One round of a loop of `finish_merge`: false when the post-merge list is empty. */
    method DrainOne(l: nat, next: bool, ghost w: View) returns (more: bool)
      requires l < top && Rep() && Draining(top, UsedMap(entries[..]), lists, w, l)
      modifies this`lists, this`home, entries, heads
      ensures Rep() && Draining(top, UsedMap(entries[..]), lists, w, l) && Delayed() == old(Delayed())
      ensures var j := if next then top + 2 else top + 1;
              if more then |lists[j]| + 1 == |old(lists)[j]| else lists[j] == []
      ensures !next ==> lists[top + 2] == old(lists)[top + 2]
    {
      ghost var before := lists;
      var result := Pop(if next then top + 2 else top + 1);
      if result == 0 { return false; }
      DrainStep(top, UsedMap(entries[..]), before, lists, w, l, next, result);
      Push(if next then l + 1 else l, result);
      return true;
    }

    /** `finish_merge` */
    method FinishMerge(l: nat, ghost w: View)
      requires mergeStatus == ZoneProtocol.FreelistCompleted && mergeLevel == l < top
      requires Rep() && Draining(top, UsedMap(entries[..]), lists, w, l) && |lists| == top + 3 + DELAYED
      modifies this`mergeStatus, this`mergeLevel, this`safeCopy, this`lists, this`home, entries, heads, words
      ensures Valid() && View() == w && Delayed() == old(Delayed()) && Reset()
    {
      var more := true;
      while more
        invariant Rep() && Draining(top, UsedMap(entries[..]), lists, w, l) && Delayed() == old(Delayed())
        invariant !more ==> lists[top + 2] == []
        decreases |lists[top + 2]|, more
      {
        more := DrainOne(l, true, w);
      }
      more := true;
      while more
        invariant Rep() && Draining(top, UsedMap(entries[..]), lists, w, l) && Delayed() == old(Delayed())
        invariant lists[top + 2] == [] && (!more ==> lists[top + 1] == [])
        decreases |lists[top + 1]|, more
      {
        more := DrainOne(l, false, w);
      }
      DrainEnds(top, UsedMap(entries[..]), lists, w, l);
      ClearWords(words);
      safeCopy := 0;
      mergeLevel := -1;
      mergeStatus := ZoneProtocol.NoMerge;
    }

    method SwapAndMark(l: nat)
      requires Valid() && Idle() && l < top
      modifies this`mergeStatus, this`mergeLevel, this`safeCopy, this`lists, heads, words
      ensures Scanning(old(View()), l, 0) && mergeStatus == ZoneProtocol.BitmapCompleted && mergeLevel == l
      ensures Delayed() == old(Delayed())
    {
      ghost var v, before := View(), lists;
      ghost var chain := SwapFreelist(l);
      CreateMergeBitmap(l, chain);
      ScanStarts(top, UsedMap(entries[..]), before, lists, v, l);
    }

    /** `merge(level)`: refused while another merge holds the lock. */
    method MergeOneLevel(l: nat) returns (done: bool)
      requires Valid() && l < top && (!mergeInProgress ==> Idle())
      modifies this`mergeInProgress, this`mergeStatus, this`mergeLevel, this`safeCopy, this`lists, this`home, entries,
               heads, words
      ensures Valid() && Delayed() == old(Delayed()) && mergeInProgress == old(mergeInProgress)
      ensures done <==> !old(mergeInProgress)
      ensures View() == if done then ZoneView.MergeLevel(old(View()), l) else old(View())
      ensures done ==> Reset()
    {
      if mergeInProgress { return false; }
      mergeInProgress := true;
      ghost var v := View();
      SwapAndMark(l);
      DoMerge(l, v);
      FinishMerge(l, ZoneView.MergeLevel(v, l));
      mergeInProgress := false;
      return true;
    }

    /** `merge()`: every level below the top in turn.  It fails only if a merge was already running. */
    method Merge() returns (ok: bool)
      requires Valid() && (!mergeInProgress ==> Idle())
      modifies this`mergeInProgress, this`mergeStatus, this`mergeLevel, this`safeCopy, this`lists, this`home, entries,
               heads, words
      ensures Valid() && Delayed() == old(Delayed())
      ensures ok <==> !old(mergeInProgress)
      ensures View() == if ok then ZoneView.Merge(old(View())) else old(View())
      ensures ok ==> Reset()
    {
      ghost var v := View();
      var level: nat := 0;
      while level < top
        invariant level <= top && Valid() && Delayed() == old(Delayed()) && mergeInProgress == old(mergeInProgress)
        invariant !mergeInProgress ==> Idle()
        invariant level > 0 ==> !mergeInProgress && Reset()
        invariant View() == MergeBelow(v, level)
      {
        ok := MergeOneLevel(level);
        if !ok { return; }
        level := level + 1;
      }
      return true;
    }
  
    // -------------------------------------------------------------- garbage collection

    /** `set_n_bits` over one block. */
    method MarkBlock(u: nat, size: nat, ghost l: nat)
      requires size == Pow2(l) && u + size <= 8 * bytes.Length
      modifies bytes
      ensures ByteBits(bytes[..]) == old(ByteBits(bytes[..])) + Units(Block(u, l))
    {
      SetNBits(bytes, u / 8, u % 8, size);
    }

    /** One block of level `l`: its bits are set. */
    method MarkStart(u: nat, l: nat, size: nat, ghost v: View, ghost done: set<nat>)
      requires Packed(v) && v.top == top && 6 <= top && bytes.Length == Pow2(top - 3) && size == Pow2(l)
      requires MarkedSome(v, ByteBits(bytes[..]), l, done) && Uniform(ByteBits(bytes[..]), l) && StartsHere(v, l, u)
      modifies bytes
      ensures MarkedSome(v, ByteBits(bytes[..]), l, done + {u}) && Uniform(ByteBits(bytes[..]), l)
    {
      Pow2Is8(top - 3);
      MarkOne(v, ByteBits(bytes[..]), l, done, u);
      MarkBlock(u, size, l);
    }

    method MarkIfUsed(i: nat, l: nat, size: nat, ghost k: nat)
      requires Valid() && size == Pow2(l) && i == Shl(k, l) < Pow2(top)
      requires MarkedSome(View(), ByteBits(bytes[..]), l, UsedBelow(View(), l, k)) && Uniform(ByteBits(bytes[..]), l)
      modifies bytes
      ensures MarkedSome(View(), ByteBits(bytes[..]), l, UsedBelow(View(), l, k + 1)) && Uniform(ByteBits(bytes[..]), l)
    {
      UsedBelowNext(View(), l, k);
      if entries[i + 1].alloc && entries[i + 1].level == l {
        MarkStart(i, l, size, View(), UsedBelow(View(), l, k));
      }
    }

    /** Step 3.1: the allocated blocks of level `l`. */
    method MarkUsed(l: nat, size: nat)
      requires Valid() && l < top && size == Pow2(l)
      requires MarkedBelow(View(), ByteBits(bytes[..]), l) && Uniform(ByteBits(bytes[..]), l)
      modifies bytes
      ensures MarkedSome(View(), ByteBits(bytes[..]), l, UsedBelow(View(), l, Pow2(top - l)))
              && Uniform(ByteBits(bytes[..]), l)
    {
      MarkingStarts(View(), ByteBits(bytes[..]), l);
      assert UsedBelow(View(), l, 0) == {};
      ZoneProtocol.ShlZero(l);
      var i: nat := 0;
      ghost var k: nat := 0;
      while i < Pow2(top)
        invariant i == Shl(k, l) && k <= Pow2(top - l)
        invariant MarkedSome(View(), ByteBits(bytes[..]), l, UsedBelow(View(), l, k)) && Uniform(ByteBits(bytes[..]), l)
      {
        RunNumber(k, l, top);
        MarkIfUsed(i, l, size, k);
        i := i + size;
        k := k + 1;
      }
      RunNumber(k, l, top);
    }

    /** Step 3.2: the blocks on the free list of level `l`, whose chain the table holds. */
    method MarkChain(l: nat, size: nat, ghost v: View, ghost chain: seq<nat>, ghost used: set<nat>)
      requires Packed(v) && v.top == top && 6 <= top && bytes.Length == Pow2(top - 3) && size == Pow2(l)
      requires l <= top < heads.Length && Chained(entries[..], heads[l], chain, top) && Members(chain) == v.free[l]
      requires (bytes as object) != entries && (bytes as object) != heads
      requires MarkedSome(v, ByteBits(bytes[..]), l, used) && Uniform(ByteBits(bytes[..]), l)
      modifies bytes
      ensures MarkedSome(v, ByteBits(bytes[..]), l, used + v.free[l]) && Uniform(ByteBits(bytes[..]), l)
    {
      ghost var n: nat := |chain|;
      assert chain[..n] == chain && used + Members(chain[n..]) == used;
      var idx := heads[l];
      while idx != 0
        invariant n <= |chain| && idx == Top(chain[..n])
        invariant MarkedSome(v, ByteBits(bytes[..]), l, used + Members(chain[n..])) && Uniform(ByteBits(bytes[..]), l)
        decreases n
      {
        FollowLink(entries[..], heads[l], chain, top, n);
        var next := entries[idx].next;
        assert chain[n - 1] in Members(chain);
        MarkStart(idx - 1, l, size, v, used + Members(chain[n..]));
        LongerSuffix(chain, n, used);
        idx := next;
        n := n - 1;
      }
      assert chain[n..] == chain;
    }

    /** Steps 3.1 and 3.2: every block of level `l`, allocated or free. */
    method MarkLevel(l: nat, size: nat)
      requires Valid() && l < top && size == Pow2(l)
      requires MarkedBelow(View(), ByteBits(bytes[..]), l) && Uniform(ByteBits(bytes[..]), l)
      modifies bytes
      ensures MarkedBelow(View(), ByteBits(bytes[..]), l + 1) && Uniform(ByteBits(bytes[..]), l)
    {
      MarkUsed(l, size);
      SwapChained(entries[..], heads[..], lists, home, top, View(), l);
      ghost var used := UsedBelow(View(), l, Pow2(top - l));
      MarkChain(l, size, View(), lists[l], used);
      AllUsedBelow(View(), l);
      MarkingEnds(View(), ByteBits(bytes[..]), l, used + View().free[l]);
    }
  
    /** A leaked half is pushed on the free list of its level, and marked. */
    method FillHole(u: nat, l: nat, size: nat)
      requires Valid() && l < top && size == Pow2(l) && Hole(View(), ByteBits(bytes[..]), Block(u, l))
      modifies this`lists, this`home, entries, heads, bytes
      ensures Valid() && Delayed() == old(Delayed()) && View() == Filled(old(View()), l, u)
      ensures ByteBits(bytes[..]) == old(ByteBits(bytes[..])) + Units(Block(u, l))
    {
      ghost var e := entries[..];
      FillTables(top, e, lists, ByteBits(bytes[..]), u, l);
      Push(l, u);
      ParkedByMap(top, e, entries[..], lists);
      Pow2Is8(top - 3);
      MarkBlock(u, size, l);
    }

    /** The collector between two pairs of level `l`, having started from `v`. */
    ghost predicate Collecting(v: View, l: nat, k: nat)
      reads this, entries, heads, bytes
    {
      Valid() && v.top == top && l < top && PairsDone(v, View(), ByteBits(bytes[..]), l, k)
    }

    method FillHalf(u: nat, l: nat, size: nat, ghost v: View, ghost k: nat)
      requires Collecting(v, l, k) && size == Pow2(l) && k < Pow2(top - l - 1)
      requires u == LeftOf(k, l).unit || u == RightOf(k, l).unit
      requires u !in ByteBits(bytes[..]) && Block(u, l).Buddy().unit in ByteBits(bytes[..])
      modifies this`lists, this`home, entries, heads, bytes
      ensures Collecting(v, l, k) && Delayed() == old(Delayed())
      ensures old(ByteBits(bytes[..])) <= ByteBits(bytes[..]) && u in ByteBits(bytes[..])
    {
      FillHalfKept(v, View(), ByteBits(bytes[..]), l, k, Block(u, l));
      FillHole(u, l, size);
    }

    /** `check_n_bits` over one run: it is marked whole or not at all. */
    method CheckRun(u: nat, l: nat, size: nat) returns (marked: bool)
      requires size == Pow2(l) && u + size <= 8 * bytes.Length
      requires Uniform(ByteBits(bytes[..]), l) && Block(u, l).Aligned()
      ensures marked <==> u in ByteBits(bytes[..])
    {
      WholeOrNot(ByteBits(bytes[..]), Block(u, l), u);
      marked := CheckNBits(bytes, u / 8, u % 8, size);
    }

    method CheckPair(i: nat, l: nat, size: nat, ghost v: View, ghost k: nat) returns (res1: bool, res2: bool)
      requires Collecting(v, l, k) && size == Pow2(l) && k < Pow2(top - l - 1) && i == Shl(k, l + 1)
      ensures i == LeftOf(k, l).unit && i + size == RightOf(k, l).unit
      ensures res1 <==> LeftOf(k, l).unit in ByteBits(bytes[..])
      ensures res2 <==> RightOf(k, l).unit in ByteBits(bytes[..])
    {
      PairFits(k, l, top);
      res1 := CheckRun(i, l, size);
      res2 := CheckRun(i + size, l, size);
    }

    /** Steps 3.3 and 3.4 on the pair of runs that starts at unit `i`. */
    method FillPair(i: nat, l: nat, size: nat, ghost v: View, ghost k: nat)
      requires Collecting(v, l, k) && size == Pow2(l) && k < Pow2(top - l - 1) && i == Shl(k, l + 1)
      modifies this`lists, this`home, entries, heads, bytes
      ensures Collecting(v, l, k + 1) && Delayed() == old(Delayed())
    {
      var res1, res2 := CheckPair(i, l, size, v, k);
      Pair(k, l);
      if !res1 && res2 {
        FillHalf(i, l, size, v, k);
      }
      if res1 && !res2 {
        FillHalf(i + size, l, size, v, k);
      }
      PairsNext(v, View(), ByteBits(bytes[..]), l, k);
    }

    /** The collector between two levels. */
    ghost predicate CollectedTo(v: View, l: nat)
      reads this, entries, heads, bytes
    {
      Valid() && v.top == top && LevelsDone(v, View(), ByteBits(bytes[..]), l)
    }

    /** The pairs of one level. */
    method FillLevel(l: nat, size: nat, ghost v: View)
      requires Collecting(v, l, 0) && size == Pow2(l)
      modifies this`lists, this`home, entries, heads, bytes
      ensures CollectedTo(v, l + 1) && Delayed() == old(Delayed())
    {
      ZoneProtocol.ShlZero(l + 1);
      var i: nat := 0;
      ghost var k: nat := 0;
      while i < Pow2(top)
        invariant i == Shl(k, l + 1) && k <= Pow2(top - l - 1)
        invariant Collecting(v, l, k) && Delayed() == old(Delayed())
      {
        RunNumber(k, l + 1, top);
        FillPair(i, l, size, v, k);
        i := i + 2 * size;
        k := k + 1;
      }
      RunNumber(k, l + 1, top);
      PairsEnd(v, View(), ByteBits(bytes[..]), l, k);
    }

    /** One level of the collector. */
    method CollectLevel(l: nat, size: nat, ghost v: View)
      requires CollectedTo(v, l) && l < top && size == Pow2(l)
      modifies this`lists, this`home, entries, heads, bytes
      ensures CollectedTo(v, l + 1) && Delayed() == old(Delayed())
    {
      MarkLevel(l, size);
      assert PairsDone(v, View(), ByteBits(bytes[..]), l, 0);
      FillLevel(l, size, v);
    }

    method CollectLevels(ghost v: View)
      requires CollectedTo(v, 0)
      modifies this`lists, this`home, entries, heads, bytes
      ensures CollectedTo(v, top) && Delayed() == old(Delayed())
    {
      var level, size := 0, 1;
      while level < top
        invariant level <= top && size == Pow2(level)
        invariant CollectedTo(v, level) && Delayed() == old(Delayed())
      {
        CollectLevel(level, size, v);
        level, size := level + 1, 2 * size;
      }
    }

    /** `garbage_collection`, for the levels below the top: every leaked run ends as one free block of its own
        level, nothing else changes, and a zone that leaks nothing is left as it is. */
    method CollectGarbage()
      requires Valid()
      modifies this`lists, this`home, entries, heads, bytes
      ensures Valid() && Delayed() == old(Delayed())
      ensures Tiled(View()) && OnlyAdds(old(View()), View()) && AddsLeaked(old(View()), View())
      ensures Tiled(old(View())) ==> View() == old(View())
    {
      ghost var v := View();
      ClearBytes(bytes);
      LevelsStart(v);
      CollectLevels(v);
      LevelsEnd(v, View(), ByteBits(bytes[..]));
    }
  }
}
