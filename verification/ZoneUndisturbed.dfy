/** A merge of `ZoneProtocol` that nobody disturbs does to the tables what `ZoneView` says a merge does. */
module ZoneUndisturbed {
  import opened Dyadic
  import opened ZoneProtocol
  import ZoneView
  import R = ZoneRecovery

  type View = ZoneView.View

  function Members(list: seq<nat>): set<nat> { set u | u in list }

  /** The list of level `k`, as a set. */
  function FreeAt(s: Zone, k: nat): set<nat>
    requires k < |s.free|
  {
    Members(s.free[k])
  }

  predicate Elsewhere(s: Zone, v: View, l: nat) {
    |s.free| == |v.free| && forall k :: 0 <= k < |v.free| && k != l && k != l + 1 ==> FreeAt(s, k) == v.free[k]
  }

  predicate Unmerged(s: Zone, v: View, l: nat) {
    Elsewhere(s, v, l) && l + 1 < |v.free| && FreeAt(s, l) == v.free[l] && FreeAt(s, l + 1) == v.free[l + 1]
  }

  /** The list of the level is swapped out. */
  predicate SwappedOut(s: Zone, v: View, l: nat) {
    Elsewhere(s, v, l) && l + 1 < |v.free| && FreeAt(s, l) == {} && FreeAt(s, l + 1) == v.free[l + 1]
  }

  /** The merged lists, some of their blocks still on the post-merge lists or in hand. */
  predicate Merged(s: Zone, v: View, l: nat) {
    && Elsewhere(s, v, l) && l + 1 < |v.free|
    && var w := ZoneView.MergeLevel(v, l);
    && FreeAt(s, l) + Members(s.merge.sameList) + HandSame(s.merge.merger) == w.free[l]
    && FreeAt(s, l + 1) + Members(s.merge.nextList) + HandNext(s.merge.merger) == w.free[l + 1]
  }

  function HandSame(m: Merger): set<nat> { if m.Draining? && m.hand.FromSame? then {m.hand.unit} else {} }

  function HandNext(m: Merger): set<nat> { if m.Draining? && m.hand.FromNext? then {m.hand.unit} else {} }

  /** The bitmap stands for the blocks of the level. */
  ghost predicate BitmapOf(m: MergeState, v: View, l: nat) {
    && l < |v.free|
    && forall b: Block :: b.level == l && b.Aligned() ==> (Shr(b.unit, l) in m.bitmap <==> b.unit in v.free[l])
  }

  /** Where the merge of level `l`, begun with the tables `v`, stands. */
  ghost predicate Underway(s: Zone, v: View, l: nat) {
    && l + 1 < |v.free| && s.top + 1 == |v.free|
    && (HasLevel(s.merge.merger) ==> s.merge.merger.level == l)
    && match s.merge.merger
       case Entered(_) => Unmerged(s, v, l)
       case LevelSet(_) => Unmerged(s, v, l)
       case HeadRead(_, _) => Unmerged(s, v, l)
       case CopySaved(_, _) => Unmerged(s, v, l)
       case Swapped(_) => SwappedOut(s, v, l) && Members(s.merge.chain) == v.free[l]
       case StatusSwapped(_) => SwappedOut(s, v, l) && Members(s.merge.chain) == v.free[l]
       case Building(_, _) => SwappedOut(s, v, l) && Members(s.merge.chain) == v.free[l]
       case BitmapBuilt(_) => SwappedOut(s, v, l) && BitmapOf(s.merge, v, l)
       case Scanning(_, _) => SwappedOut(s, v, l) && BitmapOf(s.merge, v, l)
       case Draining(_, _) => Merged(s, v, l)
       case CopyCleared(_) => Merged(s, v, l) && Cleared(s.merge)
       case LevelReset => Merged(s, v, l) && Cleared(s.merge)
       case Leaving => Merged(s, v, l) && Cleared(s.merge) && s.merge.level == -1
       case Absent => Merged(s, v, l) && Cleared(s.merge) && s.merge.level == -1
  }

  /** The merge has cleaned up behind it. */
  predicate Cleared(m: MergeState) { m.safeCopy == 0 && m.bitmap == {} }

  /** The header of a zone in which no merge is under way and none has gone wrong. */
  const AT_REST := MergeState(false, NoMerge, -1, 0, {}, [], [], Absent, [])

  /** What the invariant says of the header and of the lists as such. */
  ghost predicate HeaderFits(s: Zone) { FreeListsOk(s) && HeaderOk(s.merge, s.top) && MergerOk(s.merge, s.top) }

  lemma FreeIsPlaced(v: View, l: nat, u: nat)
    requires ZoneView.Packed(v) && l < |v.free|
    ensures u in v.free[l] ==> Block(u, l).Aligned() && u < Pow2(v.top)
  {
    if u in v.free[l] {
      assert Tiling.Holding(ZoneView.Free(l), Block(u, l)) in ZoneView.Family(v);
    }
  }

  lemma BuildEndUnderway(s: Zone, v: View, l: nat)
    requires HeaderFits(s) && Underway(s, v, l) && s.merge.merger == Building(l, |s.merge.chain|)
    requires ZoneView.Packed(v)
    ensures BitmapOf(s.merge, v, l)
  {
    var m := s.merge;
    forall i | 0 <= i < |m.chain| ensures Block(m.chain[i], l).Aligned() {
      assert m.chain[i] in Members(m.chain);
      FreeIsPlaced(v, l, m.chain[i]);
    }
    forall b: Block | b.level == l && b.Aligned() ensures Shr(b.unit, l) in m.bitmap <==> b.unit in v.free[l] {
      ChainIsMarked(m, l, b);
      assert b.unit in m.chain <==> b.unit in Members(m.chain);
    }
  }

  lemma SingleMeans(m: MergeState, v: View, l: nat, u: nat)
    requires ZoneView.Packed(v) && l < v.top && BitmapOf(m, v, l) && Distributed(m, l, Pow2(v.top - l - 1))
    ensures u in m.sameList <==> u in v.free[l] && !ZoneView.Mergeable(v, l, u)
  {
    var b := Block(u, l);
    if b.Aligned() {
      BuddyNumber(b);
      PairNumber(b, v.top);
    }
    FreeIsPlaced(v, l, u);
  }

  lemma ParentOfLeft(b: Block)
    requires b.Aligned() && b.IsLeft()
    ensures b.Parent().Aligned() && b.Parent().Left() == b
    ensures b.Parent().unit == b.unit && b.Parent().level == b.level + 1
  {
    FamilyAligned(b);
  }

  /** The two bits of an aligned pair are those of its halves. */
  lemma HalvesMean(m: MergeState, v: View, l: nat, c: Block)
    requires BitmapOf(m, v, l) && c.level == l + 1 && c.Aligned()
    ensures Joins(m, l, c.unit) <==> c.unit in v.free[l] && c.Right().unit in v.free[l]
    ensures c.Left() == Block(c.unit, l) && c.Left().Buddy() == c.Right() && c.Left().Aligned() && c.Left().IsLeft()
  {
    HalfNumbers(c);
    HalvesAligned(c);
  }

  lemma PairMeans(m: MergeState, v: View, l: nat, u: nat)
    requires ZoneView.Packed(v) && l < v.top && BitmapOf(m, v, l) && Distributed(m, l, Pow2(v.top - l - 1))
    ensures u in m.nextList <==> u in v.free[l] && ZoneView.Mergeable(v, l, u) && Block(u, l).IsLeft()
  {
    var c := Block(u, l + 1);
    FreeIsPlaced(v, l, u);
    ShrRange(u, l + 1, v.top);
    if c.Aligned() {
      HalvesMean(m, v, l, c);
    } else if Block(u, l).Aligned() && Block(u, l).IsLeft() {
      ParentOfLeft(Block(u, l));
    }
  }

  lemma ScanEndLists(m: MergeState, v: View, l: nat)
    requires ZoneView.Packed(v) && l < v.top && BitmapOf(m, v, l) && Distributed(m, l, Pow2(v.top - l - 1))
    ensures var w := ZoneView.MergeLevel(v, l);
            Members(m.sameList) == w.free[l] && v.free[l + 1] + Members(m.nextList) == w.free[l + 1]
  {
    var w := ZoneView.MergeLevel(v, l);
    var same, next := Members(m.sameList), v.free[l + 1] + Members(m.nextList);
    var same', next' := w.free[l], w.free[l + 1];
    forall u: nat ensures u in same <==> u in same' { SingleMeans(m, v, l, u); }
    forall u: nat ensures u in next <==> u in next' { PairMeans(m, v, l, u); }
  }

  lemma ScanEndMerged(s: Zone, v: View, l: nat)
    requires ZoneView.Packed(v) && l < v.top == s.top && |s.free| == s.top + 1
    requires SwappedOut(s, v, l) && BitmapOf(s.merge, v, l) && Distributed(s.merge, l, Pow2(v.top - l - 1))
    requires s.merge.merger == Scanning(l, Pow2(v.top - l - 1))
    ensures Merged(MergeNext(s), v, l) && MergeNext(s).merge.merger.Draining?
  {
    ScanEndLists(s.merge, v, l);
    assert MergeNext(s).free == s.free;
  }

  lemma TakeOne(listed: set<nat>, list: seq<nat>, all: set<nat>)
    requires list != [] && listed + Members(list) + {} == all
    ensures listed + Members(list[1..]) + {list[0]} == all
  {
    assert list == [list[0]] + list[1..];
  }

  lemma PutOne(list: seq<nat>, rest: set<nat>, u: nat, all: set<nat>)
    requires Members(list) + rest + {u} == all
    ensures Members([u] + list) + rest + {} == all
  {
    var list' := [u] + list;
    assert list'[0] == u && list'[1..] == list;
  }

  lemma DrainTake(s: Zone, v: View, l: nat)
    requires Merged(s, v, l) && s.merge.merger == Draining(l, Nothing) && l < s.top && |s.free| == s.top + 1
    ensures Merged(MergeNext(s), v, l)
  {
    var m, w := s.merge, ZoneView.MergeLevel(v, l);
    assert MergeNext(s).free == s.free;
    if m.nextList != [] {
      TakeOne(FreeAt(s, l + 1), m.nextList, w.free[l + 1]);
    } else if m.sameList != [] {
      TakeOne(FreeAt(s, l), m.sameList, w.free[l]);
    }
  }

  lemma PushElsewhere(s: Zone, s': Zone, v: View, l: nat, k: nat, u: nat)
    requires Elsewhere(s, v, l) && (k == l || k == l + 1) && k < |s.free| && s'.free == s.free[k := [u] + s.free[k]]
    ensures Elsewhere(s', v, l)
  {
    forall j | 0 <= j < |v.free| && j != l && j != l + 1 ensures FreeAt(s', j) == FreeAt(s, j) {}
  }

  lemma DrainPut(s: Zone, v: View, l: nat)
    requires Merged(s, v, l) && s.merge.merger.Draining? && s.merge.merger.level == l < s.top
    requires |s.free| == s.top + 1 && s.merge.merger.hand != Nothing
    ensures Merged(MergeNext(s), v, l)
  {
    var m, w, s' := s.merge, ZoneView.MergeLevel(v, l), MergeNext(s);
    if m.merger.hand.FromNext? {
      PutOne(s.free[l + 1], Members(m.nextList), m.merger.hand.unit, w.free[l + 1]);
      PushElsewhere(s, s', v, l, l + 1, m.merger.hand.unit);
    } else {
      PutOne(s.free[l], Members(m.sameList), m.merger.hand.unit, w.free[l]);
      PushElsewhere(s, s', v, l, l, m.merger.hand.unit);
    }
  }

  lemma DrainMerged(s: Zone, v: View, l: nat)
    requires HeaderFits(s) && Underway(s, v, l) && s.merge.merger.Draining? && CanAdvance(s.merge, s.top)
    ensures Underway(MergeNext(s), v, l)
  {
    if s.merge.merger.hand == Nothing { DrainTake(s, v, l); } else { DrainPut(s, v, l); }
  }

  lemma SwapUnderway(s: Zone, v: View, l: nat)
    requires HeaderFits(s) && Underway(s, v, l) && CanAdvance(s.merge, s.top)
    requires s.merge.merger.Entered? || s.merge.merger.LevelSet?
             || s.merge.merger.HeadRead? || s.merge.merger.CopySaved?
    ensures Underway(MergeNext(s), v, l)
  {
  }

  lemma BuildUnderway(s: Zone, v: View, l: nat)
    requires HeaderFits(s) && Underway(s, v, l) && CanAdvance(s.merge, s.top) && ZoneView.Packed(v)
    requires s.merge.merger.Swapped? || s.merge.merger.StatusSwapped?
             || s.merge.merger.Building? || s.merge.merger.BitmapBuilt?
    ensures Underway(MergeNext(s), v, l)
  {
    var m := s.merge;
    if m.merger.Building? && m.merger.marked == |m.chain| { BuildEndUnderway(s, v, l); }
  }

  lemma EndUnderway(s: Zone, v: View, l: nat)
    requires HeaderFits(s) && Underway(s, v, l) && CanAdvance(s.merge, s.top)
    requires s.merge.merger.CopyCleared? || s.merge.merger.LevelReset? || s.merge.merger.Leaving?
    ensures Underway(MergeNext(s), v, l)
  {
  }

  lemma ScanUnderway(s: Zone, v: View, l: nat)
    requires HeaderFits(s) && Underway(s, v, l) && CanAdvance(s.merge, s.top) && ZoneView.Packed(v) && s.top == v.top
    requires s.merge.merger.Scanning?
    ensures Underway(MergeNext(s), v, l)
  {
    if s.merge.merger.pair < Pow2(s.top - l - 1) { ScanOn(s, v, l); } else { ScanEndMerged(s, v, l); }
  }

  lemma ScanOn(s: Zone, v: View, l: nat)
    requires |s.free| == s.top + 1 && SwappedOut(s, v, l) && BitmapOf(s.merge, v, l)
    requires s.merge.merger.Scanning? && s.merge.merger.level == l < s.top
    requires s.merge.merger.pair < Pow2(s.top - l - 1)
    ensures SwappedOut(MergeNext(s), v, l) && BitmapOf(MergeNext(s).merge, v, l)
    ensures MergeNext(s).merge.merger.Scanning?
  {
    assert MergeNext(s).free == s.free && MergeNext(s).merge.bitmap == s.merge.bitmap;
  }

  lemma UnderwayKept(s: Zone, v: View, l: nat)
    requires HeaderFits(s) && Underway(s, v, l) && CanAdvance(s.merge, s.top) && ZoneView.Packed(v) && s.top == v.top
    ensures Underway(MergeNext(s), v, l)
  {
    match s.merge.merger
    case Swapped(_) => BuildUnderway(s, v, l);
    case StatusSwapped(_) => BuildUnderway(s, v, l);
    case Building(_, _) => BuildUnderway(s, v, l);
    case BitmapBuilt(_) => BuildUnderway(s, v, l);
    case Scanning(_, _) => ScanUnderway(s, v, l);
    case Draining(_, _) => DrainMerged(s, v, l);
    case CopyCleared(_) => EndUnderway(s, v, l);
    case LevelReset => EndUnderway(s, v, l);
    case Leaving => EndUnderway(s, v, l);
    case _ => SwapUnderway(s, v, l);
  }

  /** The steps of the merging process, and nobody else's, lead from `s` to `s'`. */
  ghost predicate MergesTo(s: Zone, s': Zone) { exists path :: IsPath(path, s, s') }

  ghost predicate IsPath(path: seq<Zone>, s: Zone, s': Zone) {
    && path != [] && path[0] == s && path[|path| - 1] == s'
    && forall t :: 0 <= t < |path| - 1 ==> MergesOn(path, t)
  }

  ghost predicate MergesOn(path: seq<Zone>, t: nat)
    requires t + 1 < |path|
  {
    |path[t].free| == path[t].top + 1 && Next(path[t], MergeStep, path[t + 1])
  }

  lemma MergeOn(s: Zone, s1: Zone, s': Zone)
    requires |s.free| == s.top + 1 && Next(s, MergeStep, s1) && MergesTo(s1, s')
    ensures MergesTo(s, s')
  {
    var path :| IsPath(path, s1, s');
    var path' := [s] + path;
    forall t | 0 <= t < |path'| - 1 ensures MergesOn(path', t) {
      if t > 0 { assert MergesOn(path, t - 1); }
    }
    assert IsPath(path', s, s');
  }

  lemma {:induction false} MergeRuns(s: Zone, v: View, l: nat) returns (s': Zone)
    requires Inv(s) && Underway(s, v, l) && ZoneView.Packed(v) && s.top == v.top && R.HeadIsFresh(s)
    ensures MergesTo(s, s') && Inv(s') && Underway(s', v, l) && s'.merge.merger == Absent && s'.top == s.top
    ensures s'.alloc == s.alloc && (if s.merge.merger == Absent then s' == s else !s'.merge.locked)
    decreases R.Phase(s.merge.merger), R.WorkLeft(s.merge, s.top)
  {
    if s.merge.merger == Absent {
      s' := s;
      assert IsPath([s], s, s);
    } else {
      var s1 := MergeOnce(s, v, l);
      s' := MergeRuns(s1, v, l);
      MergeOn(s, s1, s');
    }
  }

  lemma MergeOnce(s: Zone, v: View, l: nat) returns (s': Zone)
    requires Inv(s) && Underway(s, v, l) && ZoneView.Packed(v) && s.top == v.top && R.HeadIsFresh(s)
    requires s.merge.merger != Absent
    ensures |s.free| == s.top + 1 && Next(s, MergeStep, s') && Inv(s') && Underway(s', v, l)
    ensures s'.top == s.top && |s'.free| == s'.top + 1 && R.HeadIsFresh(s') && s'.alloc == s.alloc
    ensures R.Closer(s.merge, s'.merge, s.top) && (s'.merge.merger == Absent ==> !s'.merge.locked)
  {
    s' := MergeNext(s);
    R.StepProgresses(s.merge, s.top, MergerList(s));
    R.HeadStaysFresh(s);
    MergeKept(s, s');
    UnderwayKept(s, v, l);
  }

  lemma TablesMerged(s: Zone, v: View, l: nat)
    requires Merged(s, v, l) && s.merge.merger == Absent && !s.merge.locked && HeaderFits(s)
    requires |s.free| == s.top + 1 && s.top == v.top && s.alloc == v.used
    ensures R.TablesOf(s) == ZoneView.MergeLevel(v, l)
  {
    var w := ZoneView.MergeLevel(v, l);
    forall k | 0 <= k <= s.top ensures R.TablesOf(s).free[k] == w.free[k] { assert FreeAt(s, k) == w.free[k]; }
    assert R.TablesOf(s).free == w.free;
  }

  /** A merge of level `l` that nobody disturbs leaves the tables that `MergeLevel` gives: the same that the
      sequential code leaves. */
  lemma UndisturbedMerge(s: Zone, l: nat) returns (s1: Zone, s': Zone)
    requires Inv(s) && !s.merge.locked && s.merge.merger == Absent && l < s.top
    ensures Next(s, Enter(l), s1) && MergesTo(s1, s')
    ensures Inv(s') && s'.merge == AT_REST
    ensures R.TablesOf(s') == ZoneView.MergeLevel(R.TablesOf(s), l)
  {
    var v := R.TablesOf(s);
    R.TablesArePacked(s);
    s1 := WithMerge(s, s.merge.(locked := true, merger := Entered(l)));
    EnterKept(s, l, s1);
    s' := MergeRuns(s1, v, l);
    TablesMerged(s', v, l);
  }

  // ---------------------------------------------------------------- a merge that crashes

  /** The persistent header says how far the merge has come, and the merging process has no block in hand. */
  predicate Resumes(m: MergeState) {
    match m.merger
    case Entered(_) => false
    case LevelSet(_) => m.safeCopy == 0
    case HeadRead(_, _) => m.safeCopy == 0
    case CopySaved(_, _) => m.safeCopy == 0
    case Swapped(_) => m.safeCopy == 0
    case Draining(_, hand) => hand == Nothing
    case _ => true
  }

  /** The merging process dies and recovery begins. */
  function CrashedAndResumed(s: Zone): Zone {
    var m := s.merge.(merger := Absent);
    s.(merge := m.(merger := Resume(m)))
  }

  lemma ResumesEarly(s: Zone, v: View, l: nat)
    requires HeaderFits(s) && Underway(s, v, l) && Resumes(s.merge)
    requires s.merge.merger.LevelSet? || s.merge.merger.HeadRead?
             || s.merge.merger.CopySaved? || s.merge.merger.Swapped?
    ensures Underway(CrashedAndResumed(s), v, l)
  {
    if s.merge.merger.Swapped? {
      assert s.merge.chain == [];
    }
  }

  lemma ResumesMidway(s: Zone, v: View, l: nat)
    requires HeaderFits(s) && Underway(s, v, l)
    requires s.merge.merger.StatusSwapped? || s.merge.merger.Building?
             || s.merge.merger.BitmapBuilt? || s.merge.merger.Scanning?
    ensures Underway(CrashedAndResumed(s), v, l)
  {
  }

  lemma ResumesLate(s: Zone, v: View, l: nat)
    requires HeaderFits(s) && Underway(s, v, l) && Resumes(s.merge)
    requires s.merge.merger.Draining? || s.merge.merger.CopyCleared?
             || s.merge.merger.LevelReset? || s.merge.merger.Leaving?
    ensures Underway(CrashedAndResumed(s), v, l)
  {
  }

  lemma ResumedUnderway(s: Zone, v: View, l: nat)
    requires HeaderFits(s) && Underway(s, v, l) && s.merge.merger != Absent && Resumes(s.merge)
    ensures Underway(CrashedAndResumed(s), v, l)
  {
    match s.merge.merger
    case LevelSet(_) => ResumesEarly(s, v, l);
    case HeadRead(_, _) => ResumesEarly(s, v, l);
    case CopySaved(_, _) => ResumesEarly(s, v, l);
    case Swapped(_) => ResumesEarly(s, v, l);
    case Draining(_, _) => ResumesLate(s, v, l);
    case CopyCleared(_) => ResumesLate(s, v, l);
    case LevelReset => ResumesLate(s, v, l);
    case Leaving => ResumesLate(s, v, l);
    case _ => ResumesMidway(s, v, l);
  }

  lemma CrashKeeps(s: Zone) returns (s1: Zone, s2: Zone)
    requires Inv(s) && s.merge.merger != Absent && Resumes(s.merge)
    requires !(s.merge.status == NoMerge && s.merge.level >= 0 && s.merge.safeCopy != 0)
    ensures Next(s, MergerCrash, s1) && |s1.free| == s1.top + 1 && Next(s1, Recover, s2)
    ensures s2 == CrashedAndResumed(s) && Inv(s2) && s2.lost == s.lost
  {
    s1 := WithMerge(s, s.merge.(merger := Absent)).(lost := s.lost + MergerTransit(s.merge.merger));
    MergerCrashKept(s, s1);
    assert s.lost + MergerTransit(s.merge.merger) == s.lost;
    s2 := CrashedAndResumed(s);
    RecoverKept(s1, s2);
  }

  /** A merge whose process dies with no block in hand, at any point where the header says how far it has come:
      recovery, left alone, completes it as if nothing had happened, and nothing is lost. */
  lemma RecoveryCompletesMerge(s: Zone, v: View, l: nat) returns (s1: Zone, s2: Zone, s': Zone)
    requires Inv(s) && Underway(s, v, l) && ZoneView.Packed(v) && s.top == v.top && s.alloc == v.used
    requires s.merge.merger != Absent && Resumes(s.merge)
    ensures Next(s, MergerCrash, s1) && |s1.free| == s1.top + 1 && Next(s1, Recover, s2) && MergesTo(s2, s')
    ensures Inv(s') && s'.merge == AT_REST && s2.lost == s.lost
    ensures R.TablesOf(s') == ZoneView.MergeLevel(v, l)
  {
    ResumedUnderway(s, v, l);
    s1, s2 := CrashKeeps(s);
    s' := MergeRuns(s2, v, l);
    TablesMerged(s', v, l);
  }

  /** It died before the swap, and the header does not say so: no level is set, or the safe copy may be an old
      one. */
  predicate GivesUp(m: MergeState) {
    match m.merger
    case Entered(_) => m.level == -1 || m.safeCopy != 0
    case LevelSet(_) => m.safeCopy != 0
    case HeadRead(_, _) => m.safeCopy != 0
    case CopySaved(_, _) => m.safeCopy != 0
    case _ => false
  }

  function CrashedAndGivenUp(s: Zone): Zone { s.(merge := s.merge.(merger := Leaving)) }

  lemma GivingUp(s: Zone) returns (s1: Zone, s2: Zone)
    requires Inv(s) && GivesUp(s.merge)
    ensures Next(s, MergerCrash, s1) && |s1.free| == s1.top + 1 && Next(s1, Recover, s2)
    ensures s2 == CrashedAndGivenUp(s) && Inv(s2)
  {
    s1 := WithMerge(s, s.merge.(merger := Absent)).(lost := s.lost + MergerTransit(s.merge.merger));
    MergerCrashKept(s, s1);
    assert s.lost + MergerTransit(s.merge.merger) == s.lost;
    s2 := CrashedAndGivenUp(s);
    assert s.lost + ChainBlocks(s1.merge) == s.lost;
    RecoverKept(s1, s2);
  }

  lemma TablesUnmerged(s: Zone, v: View, l: nat)
    requires Unmerged(s, v, l) && |s.free| == s.top + 1 && s.top == v.top && s.alloc == v.used
    ensures R.TablesOf(s) == v
  {
    forall k | 0 <= k <= s.top ensures R.TablesOf(s).free[k] == v.free[k] { assert FreeAt(s, k) == v.free[k]; }
    assert R.TablesOf(s).free == v.free;
  }

  /** Then recovery only frees the merge lock: the tables are as they were, and nothing is lost. */
  lemma RecoveryGivesUp(s: Zone, v: View, l: nat) returns (s1: Zone, s2: Zone, s': Zone)
    requires Inv(s) && Underway(s, v, l) && s.top == v.top && s.alloc == v.used && GivesUp(s.merge)
    ensures Next(s, MergerCrash, s1) && |s1.free| == s1.top + 1 && Next(s1, Recover, s2)
    ensures |s2.free| == s2.top + 1 && Next(s2, MergeStep, s')
    ensures Inv(s') && !s'.merge.locked && R.TablesOf(s') == v && s'.lost == s.lost
  {
    s1, s2 := GivingUp(s);
    s' := MergeNext(s2);
    MergeKept(s2, s');
    TablesUnmerged(s', v, l);
  }
}
