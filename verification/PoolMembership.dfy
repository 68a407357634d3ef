/** Pool membership: one 16-bit word a shelf index, a valid bit over a version number, changed by
    compare-and-store, interleaved with the creation, renaming and deletion of shelf files by any number
    of processes that add, remove and recover shelves and may die at any step. */
module PoolMembership {

  // ---------------------------------------------------------------- the word

  const VALID_BIT: bv16 := 0x8000
  const VERSION_MASK: bv16 := 0x7FFF

  predicate TestValidBit(w: bv16) { (w & VALID_BIT) != 0 }
  function GetVersionNum(w: bv16): bv16 { w & VERSION_MASK }
  function SetValidBit(w: bv16): bv16 { w ^ VALID_BIT }
  function ClearValidBit(w: bv16): bv16 { w & !VALID_BIT }
  function IncVersionNum(w: bv16): bv16 { (w & VALID_BIT) ^ (((w & VERSION_MASK) + 1) & VERSION_MASK) }

  lemma SetValidTest(w: bv16)
    ensures TestValidBit(SetValidBit(w)) != TestValidBit(w)
  {}

  lemma SetValidVersion(w: bv16)
    ensures GetVersionNum(SetValidBit(w)) == GetVersionNum(w)
  {}

  lemma ClearValidTest(w: bv16)
    ensures !TestValidBit(ClearValidBit(w))
  {}

  lemma ClearValidVersion(w: bv16)
    ensures GetVersionNum(ClearValidBit(w)) == GetVersionNum(w)
  {}

  lemma IncVersionTest(w: bv16)
    ensures TestValidBit(IncVersionNum(w)) == TestValidBit(w)
  {}

  lemma LastVersionWraps(w: bv16)
    requires GetVersionNum(w) == VERSION_MASK
    ensures GetVersionNum(IncVersionNum(w)) == 0
  {}

  lemma OtherVersionsGrow(w: bv16)
    requires GetVersionNum(w) != VERSION_MASK
    ensures GetVersionNum(IncVersionNum(w)) == GetVersionNum(w) + 1
  {}

  /** Increasing a version makes it larger exactly when it is not the last. */
  lemma VersionGrowsUnlessLast(w: bv16)
    ensures GetVersionNum(IncVersionNum(w)) > GetVersionNum(w) <==> GetVersionNum(w) != VERSION_MASK
  {
    if GetVersionNum(w) == VERSION_MASK { LastVersionWraps(w); } else { OtherVersionsGrow(w); }
  }

  // ---------------------------------------------------------------- the slot a word stands for

  type Version = nat

  /** A version is 15 bits. */
  const VERSION_LIMIT: nat := 0x8000

  datatype Slot = Slot(valid: bool, version: Version)

  function NextVersion(v: Version): Version { (v + 1) % VERSION_LIMIT }

  /** The number that a word is. */
  function Number(w: bv16): nat
    decreases w
  {
    if w == 0 then 0 else Number(w - 1) + 1
  }

  function SlotOf(w: bv16): Slot { Slot(TestValidBit(w), Number(GetVersionNum(w))) }

  lemma NumberNext(w: bv16)
    requires w < 0xFFFF
    ensures Number(w + 1) == Number(w) + 1
  {
    assert w + 1 != 0 && w + 1 - 1 == w;
  }

  lemma SamePredecessor(v: bv16, w: bv16)
    requires v - 1 == w - 1
    ensures v == w
  {}

  lemma {:induction false} SameNumber(v: bv16, w: bv16)
    requires Number(v) == Number(w)
    ensures v == w
    decreases Number(v)
  {
    if v != 0 {
      SameNumber(v - 1, w - 1);
      SamePredecessor(v, w);
    }
  }

  lemma HalfRange(w: bv16, h: bv16, d: bv16)
    requires 0 < w < 0x8000 && h == w - 1 && d == h + h
    ensures h < w && d < 0xFFFF && d + 1 < 0xFFFF && w + w == d + 1 + 1
  {}

  lemma {:induction false} NumberDouble(w: bv16)
    requires w < 0x8000
    ensures Number(w + w) == 2 * Number(w)
    decreases w
  {
    if w == 0 {
      assert w + w == 0;
    } else {
      var h := w - 1;
      var d := h + h;
      HalfRange(w, h, d);
      NumberDouble(h);
      NumberNext(d);
      NumberNext(d + 1);
    }
  }

  lemma NumberByte()
    ensures Number(0x80) == 0x80
  {
    NumberDouble(1);
    NumberDouble(2);
    NumberDouble(4);
    NumberDouble(8);
    NumberDouble(0x10);
    NumberDouble(0x20);
    NumberDouble(0x40);
  }

  lemma NumberLast()
    ensures Number(VERSION_MASK) == VERSION_LIMIT - 1
  {
    NumberByte();
    NumberDouble(0x80);
    NumberDouble(0x100);
    NumberDouble(0x200);
    NumberDouble(0x400);
    NumberDouble(0x800);
    NumberDouble(0x1000);
    NumberDouble(0x2000);
    NumberDouble(0x4000);
    NumberNext(VERSION_MASK);
  }

  lemma VersionInRange(w: bv16)
    ensures GetVersionNum(w) <= VERSION_MASK
  {}

  lemma Upward(v: bv16)
    requires v <= VERSION_MASK && v != VERSION_MASK
    ensures v < 0xFFFF && v + 1 <= VERSION_MASK
    ensures VERSION_MASK - v != 0 && VERSION_MASK - (v + 1) == VERSION_MASK - v - 1
  {}

  lemma {:induction false} VersionBelow(v: bv16)
    requires v <= VERSION_MASK
    ensures Number(v) < VERSION_LIMIT && (Number(v) == VERSION_LIMIT - 1 <==> v == VERSION_MASK)
    decreases Number(VERSION_MASK - v)
  {
    if v == VERSION_MASK {
      NumberLast();
    } else {
      Upward(v);
      VersionBelow(v + 1);
      NumberNext(v);
    }
  }

  /** The version goes up by one, except that the last one wraps to 0. */
  lemma IncVersionVersion(w: bv16)
    ensures Number(GetVersionNum(IncVersionNum(w))) == NextVersion(Number(GetVersionNum(w)))
  {
    VersionInRange(w);
    VersionBelow(GetVersionNum(w));
    if GetVersionNum(w) == VERSION_MASK {
      LastVersionWraps(w);
    } else {
      OtherVersionsGrow(w);
      Upward(GetVersionNum(w));
      NumberNext(GetVersionNum(w));
    }
  }

  lemma BothParts(w: bv16, x: bv16)
    requires TestValidBit(w) == TestValidBit(x) && GetVersionNum(w) == GetVersionNum(x)
    ensures w == x
  {}

  /** A word is nothing but its slot. */
  lemma SlotOfInjective(w: bv16, x: bv16)
    requires SlotOf(w) == SlotOf(x)
    ensures w == x
  {
    SameNumber(GetVersionNum(w), GetVersionNum(x));
    BothParts(w, x);
  }

  lemma Claimed(w: bv16)
    requires !TestValidBit(w)
    ensures SlotOf(IncVersionNum(w)) == Slot(false, NextVersion(SlotOf(w).version))
  {
    IncVersionTest(w);
    IncVersionVersion(w);
  }

  lemma MadeUsed(w: bv16)
    requires !TestValidBit(w)
    ensures SlotOf(SetValidBit(w)) == Slot(true, SlotOf(w).version)
  {
    SetValidTest(w);
    SetValidVersion(w);
  }

  lemma MadeFree(w: bv16)
    ensures SlotOf(ClearValidBit(IncVersionNum(w))) == Slot(false, NextVersion(SlotOf(w).version))
  {
    ClearValidTest(IncVersionNum(w));
    ClearValidVersion(IncVersionNum(w));
    IncVersionVersion(w);
  }

  lemma ZeroWord()
    ensures SlotOf(0) == Slot(false, 0)
  {}

  /** What other processes do to a word between this process's load of it and its compare-and-store. */
  datatype Others = LeaveIt | Store(word: bv16)

  /** The word as the compare-and-store finds it. */
  function Found(loaded: bv16, others: Others): bv16 { if others.Store? then others.word else loaded }

  class Membership {
    const items: array<bv16>

    constructor (count: nat)
      ensures items.Length == count && fresh(items)
      ensures forall i :: 0 <= i < count ==> SlotOf(items[i]) == Slot(false, 0)
    {
      ZeroWord();
      items := new bv16[count](_ => 0);
    }

    method CompareAndStore(i: nat, expected: bv16, desired: bv16) returns (ok: bool, actual: bv16)
      requires i < items.Length
      modifies items
      ensures actual == old(items[i]) && (ok <==> actual == expected)
      ensures items[..] == old(items[..])[i := if ok then desired else actual]
    {
      actual := items[i];
      ok := actual == expected;
      if ok { items[i] := desired; }
    }

    /** A free slot gets a new version and stays free, unless another process got to the word first. */
    method GetFreeSlot(i: nat, others: Others) returns (ok: bool, value: bv16)
      requires i < items.Length
      modifies items
      ensures var was := old(items[i]);
              ok <==> !TestValidBit(was) && Found(was, others) == was
      ensures ok ==> SlotOf(value) == Slot(false, NextVersion(SlotOf(old(items[i])).version))
      ensures !ok ==> value == if TestValidBit(old(items[i])) then old(items[i]) else Found(old(items[i]), others)
      ensures items[..] == old(items[..])[i := value]
    {
      value := items[i];
      if TestValidBit(value) { return false, value; }
      Claimed(value);
      var newValue := IncVersionNum(value);
      items[i] := Found(value, others);
      ok, value := CompareAndStore(i, value, newValue);
      if ok { value := newValue; }
    }

    /** The caller's value, if it is still there, becomes valid. */
    method MarkSlotUsed(i: nat, expected: bv16) returns (ok: bool, value: bv16)
      requires i < items.Length && !TestValidBit(expected)
      modifies items
      ensures ok <==> old(items[i]) == expected
      ensures ok ==> SlotOf(value) == Slot(true, SlotOf(expected).version)
      ensures !ok ==> value == old(items[i])
      ensures items[..] == old(items[..])[i := value]
    {
      MadeUsed(expected);
      ok, value := CompareAndStore(i, expected, SetValidBit(expected));
      if ok { value := SetValidBit(expected); }
    }

    /** A used slot gets a new version and becomes free, unless another process got to the word first; the
        caller learns the version it removed. */
    method MarkSlotFree(i: nat, others: Others) returns (ok: bool, value: bv16)
      requires i < items.Length
      modifies items
      ensures var was := old(items[i]);
              ok <==> TestValidBit(was) && Found(was, others) == was
      ensures ok ==> value == old(items[i]) && SlotOf(items[i]) == Slot(false, NextVersion(SlotOf(value).version))
      ensures !ok ==> items[i] == value
                      && value == if TestValidBit(old(items[i])) then Found(old(items[i]), others) else old(items[i])
      ensures forall j :: 0 <= j < items.Length && j != i ==> items[j] == old(items[j])
    {
      value := items[i];
      if !TestValidBit(value) { return false, value; }
      MadeFree(value);
      var newValue := ClearValidBit(IncVersionNum(value));
      items[i] := Found(value, others);
      ok, value := CompareAndStore(i, value, newValue);
    }
  }

  // ---------------------------------------------------------------- the protocol

  type Process = nat
  type Index = nat

  datatype File = Temp(id: nat, index: Index) | Shelf(index: Index, version: Version)

  /** What a process is in the middle of. */
  datatype Task =
    | Ready
    // AddShelf
    | Create(index: Index, other: bool)                              // about to create the temporary file
    | Claim(index: Index, other: bool, file: File)                   // about to get a free slot
    | Rename(index: Index, other: bool, file: File, version: Version)
    | MarkUsed(index: Index, other: bool, version: Version)          // renamed, about to set the valid bit
    // RemoveShelf
    | MarkFree(index: Index)
    | Destroy(index: Index, version: Version)
    // Recover
    | ReadSlot(index: Index)
    // deleting temporaries and older versions; `left` are those there from the start, not yet visited
    | CleanUp(index: Index, version: Version, left: set<File>)

  /** `bumps`, `claimed`, `added` and `removed` are history: how often the version of a slot has been
      increased, and the versions handed to an adder, made valid by one, and freed by a remover that
      returned NO_ERROR. */
  datatype State = State(
    slots: seq<Slot>, files: set<File>, tasks: map<Process, Task>, nextTemp: nat,
    bumps: seq<nat>,
    claimed: set<(Index, Version)>, added: set<(Index, Version)>, removed: set<(Index, Version)>)

  datatype Step =
    | Spawn(p: Process)
    | Crash(p: Process)
    | BeginAdd(p: Process, index: Index, other: bool)
    | BeginRemove(p: Process, index: Index)
    | BeginRecover(p: Process)
    | Advance(p: Process)
    | GiveUp(p: Process)                              // a call fails and returns
    | TryOther(p: Process, index: Index)              // AddShelf goes on to another free index
    | Delete(p: Process, file: File)                  // one deletion of RemoveOldShelfFiles
    | NextIndex(p: Process)

  ghost predicate Init(s: State) {
    && (forall i :: 0 <= i < |s.slots| ==> s.slots[i] == Slot(false, 0))
    && s.bumps == seq(|s.slots|, _ => 0)
    && s.files == {} && s.tasks == map[] && s.claimed == {} && s.added == {} && s.removed == {}
  }

  function At(s: State, p: Process, task: Task): State { s.(tasks := s.tasks[p := task]) }

  function SetSlot(s: State, i: Index, slot: Slot): State
    requires i < |s.slots|
  {
    s.(slots := s.slots[i := slot])
  }

  /** The slot gets its next version. */
  function Bump(s: State, i: Index): State
    requires i < |s.slots| == |s.bumps|
  {
    SetSlot(s, i, Slot(false, NextVersion(s.slots[i].version))).(bumps := s.bumps[i := s.bumps[i] + 1])
  }

  /** A temporary file, or one of an earlier version. */
  predicate Old(f: File, i: Index, v: Version) { f.index == i && (f.Shelf? ==> f.version < v) }

  function OldFiles(files: set<File>, i: Index, v: Version): set<File> { set f | f in files && Old(f, i, v) }

  ghost predicate Next(s: State, step: Step, s': State) {
    match step
    case Spawn(p) => p !in s.tasks && s' == At(s, p, Ready)
    case Crash(p) => p in s.tasks && s' == s.(tasks := s.tasks - {p})
    case BeginAdd(p, i, o) => p in s.tasks && s.tasks[p] == Ready && i < |s.slots| && s' == At(s, p, Create(i, o))
    case BeginRemove(p, i) => p in s.tasks && s.tasks[p] == Ready && i < |s.slots| && s' == At(s, p, MarkFree(i))
    case BeginRecover(p) => p in s.tasks && s.tasks[p] == Ready && s' == At(s, p, ReadSlot(0))
    case Advance(p) => p in s.tasks && (Adds(s, p, s') || Removes(s, p, s') || Recovers(s, p, s'))
    case GiveUp(p) =>
      // formatting failed, the slot was taken or changed under a load, or no free index is left
      p in s.tasks && (s.tasks[p].Claim? || s.tasks[p].MarkFree?) && s' == At(s, p, Ready)
    case TryOther(p, j) =>
      && p in s.tasks && s.tasks[p].Claim? && s.tasks[p].other && j < |s.slots|
      && s' == At(s, p, Claim(j, true, s.tasks[p].file))
    case Delete(p, f) =>
      // the walk through the directory may also come across files that have appeared since it began
      && p in s.tasks && s.tasks[p].CleanUp? && Old(f, s.tasks[p].index, s.tasks[p].version)
      && s' == At(s, p, s.tasks[p].(left := s.tasks[p].left - {f})).(files := s.files - {f})
    case NextIndex(p) =>
      && p in s.tasks && s.tasks[p].CleanUp? && s.tasks[p].left == {}
      && s' == At(s, p, ReadSlot(s.tasks[p].index + 1))
  }

  /** `AddShelf` */
  ghost predicate Adds(s: State, p: Process, s': State)
    requires p in s.tasks
  {
    match s.tasks[p]
    case Create(i, o) =>
      var f := Temp(s.nextTemp, i);
      s' == At(s, p, Claim(i, o, f)).(files := s.files + {f}, nextTemp := s.nextTemp + 1)
    case Claim(i, o, f) =>
      && i < |s.slots| == |s.bumps| && !s.slots[i].valid
      && var v := NextVersion(s.slots[i].version);
      s' == At(Bump(s, i), p, Rename(i, o, f, v)).(claimed := s.claimed + {(i, v)})
    case Rename(i, o, f, v) =>
      s' == if f in s.files then At(s, p, MarkUsed(i, o, v)).(files := s.files - {f} + {Shelf(i, v)})
            else At(s, p, Ready)
    case MarkUsed(i, o, v) =>
      && i < |s.slots|
      && s' == if s.slots[i] == Slot(false, v) then
                 At(SetSlot(s, i, Slot(true, v)), p, Ready).(added := s.added + {(i, v)})
               else if o then At(s, p, Claim(i, o, Shelf(i, v)))
               else At(s, p, Ready)
    case _ => false
  }

  /** `RemoveShelf` */
  ghost predicate Removes(s: State, p: Process, s': State)
    requires p in s.tasks
  {
    match s.tasks[p]
    case MarkFree(i) =>
      && i < |s.slots| == |s.bumps| && s.slots[i].valid
      && var v := s.slots[i].version;
      s' == At(Bump(s, i), p, Destroy(i, v)).(removed := s.removed + {(i, v)})
    case Destroy(i, v) => s' == At(s, p, Ready).(files := s.files - {Shelf(i, v)})
    case _ => false
  }

  /** `Recover`: a slot never used is skipped. */
  ghost predicate Recovers(s: State, p: Process, s': State)
    requires p in s.tasks
  {
    match s.tasks[p]
    case ReadSlot(i) =>
      s' == if i >= |s.slots| then At(s, p, Ready)
            else if !s.slots[i].valid && s.slots[i].version == 0 then At(s, p, ReadSlot(i + 1))
            else At(s, p, CleanUp(i, s.slots[i].version, OldFiles(s.files, i, s.slots[i].version)))
    case _ => false
  }

  // ---------------------------------------------------------------- words and slots

  /** The words are those of the machine's slots. */
  ghost predicate Depicts(items: seq<bv16>, s: State) {
    && |items| == |s.slots| == |s.bumps|
    && forall i :: 0 <= i < |items| ==> SlotOf(items[i]) == s.slots[i]
  }

  lemma DepictsUpdate(items: seq<bv16>, s: State, i: nat, w: bv16, s': State)
    requires Depicts(items, s) && i < |items| && |s'.bumps| == |s.bumps| && s'.slots == s.slots[i := SlotOf(w)]
    ensures Depicts(items[i := w], s')
  {
  }

  /** `GetFreeSlot` as a step of an adder, `s` being the state in which the compare-and-store takes place: a
      success is the machine's claim, and where it fails the adder gives up or tries elsewhere. */
  method ClaimSlot(m: Membership, i: nat, others: Others, ghost s: State, ghost p: Process)
    returns (ok: bool, value: bv16, ghost s': State)
    requires i < m.items.Length && Depicts(m.items[..][i := Found(m.items[i], others)], s)
    requires p in s.tasks && s.tasks[p].Claim? && s.tasks[p].index == i
    modifies m.items
    ensures ok ==> Next(s, Advance(p), s') && Depicts(m.items[..], s')
    ensures ok ==> p in s'.tasks && s'.tasks[p].Rename? && s'.tasks[p].version == SlotOf(value).version
    ensures !ok ==> Next(s, GiveUp(p), s') && s'.slots == s.slots
    ensures !ok ==> m.items[..] == old(m.items[..])
                    || m.items[..] == old(m.items[..])[i := Found(old(m.items[i]), others)]
  {
    ghost var items := m.items[..];
    ghost var was := m.items[i];
    ok, value := m.GetFreeSlot(i, others);
    if ok {
      var Claim(_, o, f) := s.tasks[p];
      var v := NextVersion(s.slots[i].version);
      s' := At(Bump(s, i), p, Rename(i, o, f, v)).(claimed := s.claimed + {(i, v)});
      assert items[i := was] == items;
      DepictsUpdate(items, s, i, value, s');
    } else {
      s' := At(s, p, Ready);
    }
  }

  /** `MarkSlotUsed` as a step of an adder that has claimed the version: both outcomes are the machine's. */
  method UseSlot(m: Membership, i: nat, expected: bv16, ghost s: State, ghost p: Process)
    returns (ok: bool, value: bv16, ghost s': State)
    requires i < m.items.Length && Depicts(m.items[..], s) && !TestValidBit(expected)
    requires p in s.tasks && s.tasks[p].MarkUsed? && s.tasks[p].index == i
    requires s.tasks[p].version == SlotOf(expected).version
    modifies m.items
    ensures Next(s, Advance(p), s') && Depicts(m.items[..], s')
    ensures ok <==> s.slots[i] == Slot(false, s.tasks[p].version)
  {
    ghost var items := m.items[..];
    if SlotOf(m.items[i]) == SlotOf(expected) { SlotOfInjective(m.items[i], expected); }
    ok, value := m.MarkSlotUsed(i, expected);
    var MarkUsed(_, o, v) := s.tasks[p];
    if ok {
      s' := At(SetSlot(s, i, Slot(true, v)), p, Ready).(added := s.added + {(i, v)});
    } else {
      s' := if o then At(s, p, Claim(i, o, Shelf(i, v))) else At(s, p, Ready);
    }
    DepictsUpdate(items, s, i, value, s');
  }

  /** `MarkSlotFree` as a step of a remover. */
  method FreeSlot(m: Membership, i: nat, others: Others, ghost s: State, ghost p: Process)
    returns (ok: bool, value: bv16, ghost s': State)
    requires i < m.items.Length && Depicts(m.items[..][i := Found(m.items[i], others)], s)
    requires p in s.tasks && s.tasks[p].MarkFree? && s.tasks[p].index == i
    modifies m.items
    ensures ok ==> Next(s, Advance(p), s') && Depicts(m.items[..], s')
    ensures ok ==> p in s'.tasks && s'.tasks[p] == Destroy(i, SlotOf(value).version)
    ensures !ok ==> Next(s, GiveUp(p), s') && s'.slots == s.slots
    ensures !ok ==> m.items[..] == old(m.items[..])
                    || m.items[..] == old(m.items[..])[i := Found(old(m.items[i]), others)]
  {
    ghost var items := m.items[..];
    ok, value := m.MarkSlotFree(i, others);
    if ok {
      s' := At(Bump(s, i), p, Destroy(i, s.slots[i].version)).(removed := s.removed + {(i, s.slots[i].version)});
      assert items[i := value] == items;
      assert m.items[..] == items[i := m.items[i]];
      DepictsUpdate(items, s, i, m.items[i], s');
    } else {
      s' := At(s, p, Ready);
      assert m.items[..] == items[i := m.items[i]];
    }
  }

  // ---------------------------------------------------------------- invariant

  /** The version is in the slot's past: it was left behind, or is now current and valid. */
  predicate Past(s: State, i: Index, v: Version) { i < |s.slots| && v < s.slots[i].version }

  predicate Reached(s: State, i: Index, v: Version) { i < |s.slots| && v <= s.slots[i].version }

  /** Shelf files an adder carries from one index to the next belong to versions left behind. */
  predicate FileOk(s: State, f: File) { f.Shelf? ==> Past(s, f.index, f.version) }

  ghost predicate TaskOk(s: State, p: Process)
    requires p in s.tasks
  {
    match s.tasks[p]
    case Claim(i, _, f) => FileOk(s, f)
    case Rename(i, _, f, v) =>
      FileOk(s, f) && (i, v) in s.claimed && (i, v) !in s.added && Shelf(i, v) !in s.files
    case MarkUsed(i, _, v) =>
      && (i, v) in s.claimed && (i, v) !in s.added
      && (i < |s.slots| && s.slots[i].version == v ==> Shelf(i, v) in s.files)
    case Destroy(i, v) => Past(s, i, v) && (i, v) in s.removed
    case CleanUp(i, v, _) => Reached(s, i, v)
    case _ => true
  }

  predicate Owns(task: Task, i: Index, v: Version) {
    (task.Rename? && task.index == i && task.version == v) || (task.MarkUsed? && task.index == i && task.version == v)
  }

  ghost predicate HistoryOk(s: State) {
    && (forall c :: c in s.claimed ==> Reached(s, c.0, c.1) && c.1 > 0)
    && (forall c :: c in s.added ==> c in s.claimed && (Past(s, c.0, c.1) || s.slots[c.0].valid))
    && (forall c :: c in s.removed ==> c in s.added && Past(s, c.0, c.1))
    && (forall f :: f in s.files && f.Shelf? ==> (f.index, f.version) in s.claimed)
  }

  ghost predicate SlotOk(s: State, i: Index)
    requires i < |s.slots|
  {
    s.slots[i].valid ==> Shelf(i, s.slots[i].version) in s.files && (i, s.slots[i].version) in s.added
  }

  /** A version has one adder. */
  ghost predicate OneAdder(s: State) {
    forall p, q, i, v :: p in s.tasks && q in s.tasks && Owns(s.tasks[p], i, v) && Owns(s.tasks[q], i, v) ==> p == q
  }

  /** No slot has used up its versions. */
  ghost predicate InRange(s: State) { forall i :: 0 <= i < |s.bumps| ==> s.bumps[i] < VERSION_LIMIT }

  ghost predicate VersionsOk(s: State) {
    |s.bumps| == |s.slots| && forall i :: 0 <= i < |s.slots| ==> s.slots[i].version == s.bumps[i]
  }

  ghost predicate Inv(s: State) {
    && VersionsOk(s) && HistoryOk(s) && OneAdder(s)
    && (forall i :: 0 <= i < |s.slots| ==> SlotOk(s, i))
    && (forall p :: p in s.tasks ==> TaskOk(s, p))
  }

  // ---------------------------------------------------------------- every step

  /** Nothing shared changes, and `p` moves on to something that promises no more. */
  lemma TaskKept(s: State, p: Process, task: Task, s': State)
    requires Inv(s) && s' == At(s, p, task) && TaskOk(s', p)
    requires !task.Rename? && !task.MarkUsed?
    ensures Inv(s')
  {
    forall q | q in s'.tasks ensures TaskOk(s', q) { if q != p { assert TaskOk(s, q); } }
    forall i | 0 <= i < |s'.slots| ensures SlotOk(s', i) { assert SlotOk(s, i); }
  }

  lemma CrashKept(s: State, p: Process, s': State)
    requires Inv(s) && Next(s, Crash(p), s')
    ensures Inv(s')
  {
    forall q | q in s'.tasks ensures TaskOk(s', q) { assert TaskOk(s, q); }
    forall i | 0 <= i < |s'.slots| ensures SlotOk(s', i) { assert SlotOk(s, i); }
  }

  /** A file disappears that no current version needs. */
  lemma DeleteKept(s: State, f: File, s': State)
    requires Inv(s) && s' == s.(files := s.files - {f}) && FileOk(s, f)
    ensures Inv(s')
  {
    forall q | q in s'.tasks ensures TaskOk(s', q) { assert TaskOk(s, q); }
    forall i | 0 <= i < |s'.slots| ensures SlotOk(s', i) { assert SlotOk(s, i); }
  }

  lemma CreateKept(s: State, p: Process, s': State)
    requires Inv(s) && p in s.tasks && s.tasks[p].Create? && Adds(s, p, s')
    ensures Inv(s')
  {
    forall q | q in s'.tasks ensures TaskOk(s', q) { if q != p { assert TaskOk(s, q); } }
    forall i | 0 <= i < |s'.slots| ensures SlotOk(s', i) { assert SlotOk(s, i); }
  }

  /** The version of slot `i` goes up by one. */
  lemma BumpedPast(s: State, i: Index, slot: Slot, s': State)
    requires i < |s.slots| && s'.slots == s.slots[i := slot] && slot.version == s.slots[i].version + 1
    ensures forall j, v :: Past(s, j, v) ==> Past(s', j, v)
    ensures forall j, v :: Reached(s, j, v) ==> Reached(s', j, v)
    ensures forall v :: Reached(s, i, v) ==> Past(s', i, v)
    ensures forall j, v :: j != i && Reached(s', j, v) ==> Reached(s, j, v)
  {}

  lemma NotWrapped(s: State, i: Index)
    requires VersionsOk(s) && i < |s.slots| && InRange(Bump(s, i))
    ensures NextVersion(s.slots[i].version) == s.slots[i].version + 1 && VersionsOk(Bump(s, i))
  {
    assert Bump(s, i).bumps[i] < VERSION_LIMIT;
  }

  lemma ClaimKept(s: State, p: Process, s': State)
    requires Inv(s) && p in s.tasks && s.tasks[p].Claim? && Adds(s, p, s') && InRange(s')
    ensures Inv(s')
  {
    var i := s.tasks[p].index;
    var v := s.slots[i].version + 1;
    assert s'.bumps == Bump(s, i).bumps;
    NotWrapped(s, i);
    BumpedPast(s, i, s'.slots[i], s');
    assert TaskOk(s, p);
    assert (i, v) !in s.claimed;
    forall q | q in s'.tasks ensures TaskOk(s', q) { if q != p { assert TaskOk(s, q); } }
    forall q | q in s.tasks && q != p ensures !Owns(s.tasks[q], i, v) { assert TaskOk(s, q); }
    forall j | 0 <= j < |s'.slots| ensures SlotOk(s', j) { assert SlotOk(s, j); }
  }

  lemma RenameKept(s: State, p: Process, s': State)
    requires Inv(s) && p in s.tasks && s.tasks[p].Rename? && s.tasks[p].file in s.files && Adds(s, p, s')
    ensures Inv(s')
  {
    var Rename(i, o, f, v) := s.tasks[p];
    assert TaskOk(s, p);
    forall q | q in s'.tasks ensures TaskOk(s', q) {
      if q != p {
        assert TaskOk(s, q);
        assert Owns(s.tasks[p], i, v);
        assert s.tasks[q].Rename? ==> Owns(s.tasks[q], s.tasks[q].index, s.tasks[q].version);
      }
    }
    forall q, w, j, u | q in s'.tasks && w in s'.tasks && Owns(s'.tasks[q], j, u) && Owns(s'.tasks[w], j, u)
      ensures q == w
    {
      assert Owns(s.tasks[q], j, u) && Owns(s.tasks[w], j, u);
    }
    forall j | 0 <= j < |s'.slots| ensures SlotOk(s', j) { assert SlotOk(s, j); }
  }

  lemma MarkUsedKept(s: State, p: Process, s': State)
    requires Inv(s) && p in s.tasks && s.tasks[p].MarkUsed? && Adds(s, p, s')
    ensures Inv(s')
  {
    var MarkUsed(i, o, v) := s.tasks[p];
    assert TaskOk(s, p);
    assert Owns(s.tasks[p], i, v);
    if s.slots[i] == Slot(false, v) {
      forall q | q in s'.tasks ensures TaskOk(s', q) {
        if q != p {
          assert TaskOk(s, q);
          assert s.tasks[q].Rename? || s.tasks[q].MarkUsed? ==> Owns(s.tasks[q], s.tasks[q].index, s.tasks[q].version);
        }
      }
      forall j | 0 <= j < |s'.slots| ensures SlotOk(s', j) { assert SlotOk(s, j); }
    } else {
      assert Reached(s, i, v);
      assert SlotOk(s, i);
      TaskKept(s, p, s'.tasks[p], s');
    }
  }

  lemma MarkFreeKept(s: State, p: Process, s': State)
    requires Inv(s) && p in s.tasks && s.tasks[p].MarkFree? && Removes(s, p, s') && InRange(s')
    ensures Inv(s')
  {
    var i := s.tasks[p].index;
    var v := s.slots[i].version;
    assert s'.bumps == Bump(s, i).bumps;
    NotWrapped(s, i);
    BumpedPast(s, i, s'.slots[i], s');
    assert SlotOk(s, i);
    forall q | q in s'.tasks ensures TaskOk(s', q) {
      if q != p { assert TaskOk(s, q); VersionAhead(s, q, i); }
    }
    forall j | 0 <= j < |s'.slots| ensures SlotOk(s', j) { assert SlotOk(s, j); }
  }

  /** No adder waits for a version the slot has not reached. */
  lemma VersionAhead(s: State, q: Process, i: Index)
    requires Inv(s) && q in s.tasks && i < |s.slots|
    ensures s.tasks[q].MarkUsed? && s.tasks[q].index == i ==> s.tasks[q].version <= s.slots[i].version
  {
    assert TaskOk(s, q);
  }

  lemma AddsKept(s: State, p: Process, s': State)
    requires Inv(s) && p in s.tasks && Adds(s, p, s') && InRange(s')
    ensures Inv(s')
  {
    match s.tasks[p]
    case Create(_, _) => CreateKept(s, p, s');
    case Claim(_, _, _) => ClaimKept(s, p, s');
    case Rename(_, _, f, _) => if f in s.files { RenameKept(s, p, s'); } else { TaskKept(s, p, Ready, s'); }
    case MarkUsed(_, _, _) => MarkUsedKept(s, p, s');
    case _ =>
  }

  lemma RemovesKept(s: State, p: Process, s': State)
    requires Inv(s) && p in s.tasks && Removes(s, p, s') && InRange(s')
    ensures Inv(s')
  {
    match s.tasks[p]
    case MarkFree(_) => MarkFreeKept(s, p, s');
    case Destroy(i, v) =>
      assert TaskOk(s, p);
      DeleteKept(s, Shelf(i, v), s.(files := s.files - {Shelf(i, v)}));
      TaskKept(s.(files := s.files - {Shelf(i, v)}), p, Ready, s');
    case _ =>
  }

  lemma InvKept(s: State, step: Step, s': State)
    requires Inv(s) && Next(s, step, s') && InRange(s')
    ensures Inv(s')
  {
    match step
    case Crash(p) => CrashKept(s, p, s');
    case Advance(p) =>
      if Adds(s, p, s') { AddsKept(s, p, s'); }
      else if Removes(s, p, s') { RemovesKept(s, p, s'); }
      else { TaskKept(s, p, s'.tasks[p], s'); }
    case Delete(p, f) =>
      assert TaskOk(s, p);
      DeleteKept(s, f, s.(files := s.files - {f}));
      TaskKept(s.(files := s.files - {f}), p, s'.tasks[p], s');
    case TryOther(p, j) =>
      assert TaskOk(s, p);
      TaskKept(s, p, s'.tasks[p], s');
    case _ => TaskKept(s, step.p, s'.tasks[step.p], s');
  }

  // ---------------------------------------------------------------- runs

  ghost predicate IsRun(states: seq<State>, steps: seq<Step>) {
    && |states| == |steps| + 1
    && Init(states[0])
    && forall t :: 0 <= t < |steps| ==> StepTaken(states, steps, t)
  }

  ghost predicate StepTaken(states: seq<State>, steps: seq<Step>, t: nat)
    requires t < |steps| && t + 1 < |states|
  {
    Next(states[t], steps[t], states[t + 1])
  }

  /** Bumps are never taken back. */
  lemma InRangeBefore(s: State, step: Step, s': State)
    requires Next(s, step, s') && InRange(s')
    ensures InRange(s)
  {
    assert |s'.bumps| == |s.bumps| && forall i :: 0 <= i < |s.bumps| ==> s.bumps[i] <= s'.bumps[i];
  }

  lemma {:induction false} RunInv(states: seq<State>, steps: seq<Step>, t: nat)
    requires IsRun(states, steps) && t < |states| && InRange(states[t])
    ensures Inv(states[t])
  {
    if t > 0 {
      assert StepTaken(states, steps, t - 1);
      InRangeBefore(states[t - 1], steps[t - 1], states[t]);
      RunInv(states, steps, t - 1);
      InvKept(states[t - 1], steps[t - 1], states[t]);
    }
  }

  /** In every run a slot whose valid bit is set has the file of its version on disk, and
      that version is not 0, as long as no slot has used up its versions. */
  lemma ValidSlotHasFile(states: seq<State>, steps: seq<Step>, t: nat, i: Index)
    requires IsRun(states, steps) && t < |states| && i < |states[t].slots| && states[t].slots[i].valid
    requires InRange(states[t])
    ensures Shelf(i, states[t].slots[i].version) in states[t].files && states[t].slots[i].version > 0
  {
    RunInv(states, steps, t);
    assert SlotOk(states[t], i);
  }

  /** Versions of a slot only grow. */
  lemma VersionsGrow(s: State, step: Step, s': State, i: Index)
    requires Inv(s) && Next(s, step, s') && InRange(s') && i < |s.slots|
    ensures |s'.slots| == |s.slots| && s'.slots[i].version >= s.slots[i].version
    ensures s'.slots[i].version == s.slots[i].version && s'.slots[i] != s.slots[i] ==> s'.slots[i].valid
  {
    InvKept(s, step, s');
    assert s'.bumps[i] >= s.bumps[i];
  }

  /** A version is claimed by at most one adder, ever. */
  lemma ClaimedOnce(states: seq<State>, steps: seq<Step>, t: nat, p: Process)
    requires IsRun(states, steps) && t < |steps| && steps[t] == Advance(p) && InRange(states[t + 1])
    requires p in states[t].tasks && states[t].tasks[p].Claim?
    ensures p in states[t + 1].tasks && states[t + 1].tasks[p].Rename?
    ensures var s, s', r := states[t], states[t + 1], states[t + 1].tasks[p];
            && (r.index, r.version) !in s.claimed && s'.claimed == s.claimed + {(r.index, r.version)}
            && Shelf(r.index, r.version) !in s.files
  {
    assert StepTaken(states, steps, t);
    InRangeBefore(states[t], steps[t], states[t + 1]);
    RunInv(states, steps, t);
    NotWrapped(states[t], states[t].tasks[p].index) by {
      assert states[t + 1].bumps == Bump(states[t], states[t].tasks[p].index).bumps;
    }
  }

  /** Every successful `RemoveShelf` undoes a successful `AddShelf` of the same index and version, and no
      other remover has undone it. */
  lemma RemoveUndoesOneAdd(states: seq<State>, steps: seq<Step>, t: nat, p: Process)
    requires IsRun(states, steps) && t < |steps| && steps[t] == Advance(p) && InRange(states[t])
    requires p in states[t].tasks && states[t].tasks[p].MarkFree?
    ensures p in states[t + 1].tasks && states[t + 1].tasks[p].Destroy?
    ensures var s, s', d := states[t], states[t + 1], states[t + 1].tasks[p];
            && (d.index, d.version) in s.added && (d.index, d.version) !in s.removed
            && s'.removed == s.removed + {(d.index, d.version)}
  {
    RunInv(states, steps, t);
    assert StepTaken(states, steps, t);
    assert SlotOk(states[t], states[t].tasks[p].index);
  }

  /** Each version is added at most once. */
  lemma AddedOnce(states: seq<State>, steps: seq<Step>, t: nat, p: Process)
    requires IsRun(states, steps) && t < |steps| && steps[t] == Advance(p) && InRange(states[t])
    requires p in states[t].tasks && states[t].tasks[p].MarkUsed?
    ensures var s, s', m := states[t], states[t + 1], states[t].tasks[p];
            && (m.index, m.version) !in s.added
            && (s'.added == s.added || s'.added == s.added + {(m.index, m.version)})
  {
    RunInv(states, steps, t);
    assert StepTaken(states, steps, t);
    assert TaskOk(states[t], p);
  }

  /** Renaming never overwrites a file. */
  lemma RenameTargetIsNew(states: seq<State>, steps: seq<Step>, t: nat, p: Process)
    requires IsRun(states, steps) && t < |states| && p in states[t].tasks && states[t].tasks[p].Rename?
    requires InRange(states[t])
    ensures Shelf(states[t].tasks[p].index, states[t].tasks[p].version) !in states[t].files
  {
    RunInv(states, steps, t);
    assert TaskOk(states[t], p);
  }

  // ---------------------------------------------------------------- a slot that uses up its versions

  ghost predicate EndsIn(states: seq<State>, steps: seq<Step>, s: State) {
    IsRun(states, steps) && states[|steps|] == s
  }

  ghost predicate Reachable(s: State) { exists states, steps :: EndsIn(states, steps, s) }

  lemma ReachStep(s: State, step: Step, s': State)
    requires Reachable(s) && Next(s, step, s')
    ensures Reachable(s')
  {
    var states, steps :| EndsIn(states, steps, s);
    var states', steps' := states + [s'], steps + [step];
    forall t | 0 <= t < |steps'| ensures StepTaken(states', steps', t) {
      if t < |steps| { assert StepTaken(states, steps, t); }
    }
    assert EndsIn(states', steps', s');
  }

  /** One slot, free, after `n` bumps, and a process with nothing to do. */
  ghost predicate Climbed(s: State, n: nat) {
    && Reachable(s) && s.slots == [Slot(false, n % VERSION_LIMIT)] && s.bumps == [n]
    && 0 in s.tasks && s.tasks[0] == Ready && 1 !in s.tasks
  }

  /** Process 0 has claimed the next version of the slot, with its temporary file in hand. */
  lemma ClaimNext(s: State, n: nat) returns (s': State, f: File)
    requires Reachable(s) && s.slots == [Slot(false, n % VERSION_LIMIT)] && s.bumps == [n]
    requires 0 in s.tasks && s.tasks[0] == Ready
    ensures Reachable(s') && s'.slots == [Slot(false, (n + 1) % VERSION_LIMIT)] && s'.bumps == [n + 1]
    ensures s'.tasks == s.tasks[0 := Rename(0, false, f, (n + 1) % VERSION_LIMIT)] && f in s'.files
  {
    var s1 := At(s, 0, Create(0, false));
    ReachStep(s, BeginAdd(0, 0, false), s1);
    f := Temp(s.nextTemp, 0);
    var s2 := At(s1, 0, Claim(0, false, f)).(files := s1.files + {f}, nextTemp := s1.nextTemp + 1);
    ReachStep(s1, Advance(0), s2);
    var v := NextVersion(s2.slots[0].version);
    s' := At(Bump(s2, 0), 0, Rename(0, false, f, v)).(claimed := s2.claimed + {(0, v)});
    ReachStep(s2, Advance(0), s');
  }

  /** Adders that die before they rename use up one version each. */
  lemma {:induction false} Climb(n: nat) returns (s: State)
    ensures Climbed(s, n)
  {
    if n == 0 {
      var s0 := State([Slot(false, 0)], {}, map[], 0, [0], {}, {}, {});
      assert EndsIn([s0], [], s0);
      s := At(s0, 0, Ready);
      ReachStep(s0, Spawn(0), s);
    } else {
      var s0 := Climb(n - 1);
      var s1, f := ClaimNext(s0, n - 1);
      var s2 := s1.(tasks := s1.tasks - {0});
      ReachStep(s1, Crash(0), s2);
      s := At(s2, 0, Ready);
      ReachStep(s2, Spawn(0), s);
    }
  }

  /** Process 1 is about to delete what is older than the last version. */
  lemma RecoverLast(s: State) returns (s': State)
    requires Climbed(s, VERSION_LIMIT - 1)
    ensures Reachable(s') && s'.slots == s.slots && s'.bumps == s.bumps
    ensures 0 in s'.tasks && 1 in s'.tasks && s'.tasks[0] == Ready
    ensures s'.tasks[1].CleanUp? && s'.tasks[1].index == 0 && s'.tasks[1].version == VERSION_LIMIT - 1
  {
    var s1 := At(s, 1, Ready);
    ReachStep(s, Spawn(1), s1);
    var s2 := At(s1, 1, ReadSlot(0));
    ReachStep(s1, BeginRecover(1), s2);
    s' := At(s2, 1, CleanUp(0, VERSION_LIMIT - 1, OldFiles(s2.files, 0, VERSION_LIMIT - 1)));
    ReachStep(s2, Advance(1), s');
  }

  /** Process 0 completes its addition. */
  lemma FinishAdd(s: State, f: File, v: Version) returns (s': State)
    requires Reachable(s) && 0 in s.tasks && s.tasks[0] == Rename(0, false, f, v) && f in s.files
    requires s.slots == [Slot(false, v)]
    ensures Reachable(s') && s'.slots == [Slot(true, v)] && s'.bumps == s.bumps
    ensures s'.tasks == s.tasks[0 := Ready]
  {
    var s1 := At(s, 0, MarkUsed(0, false, v)).(files := s.files - {f} + {Shelf(0, v)});
    ReachStep(s, Advance(0), s1);
    s' := At(SetSlot(s1, 0, Slot(true, v)), 0, Ready).(added := s1.added + {(0, v)});
    ReachStep(s1, Advance(0), s');
  }

  /** A slot that has used up its versions starts over at 0, and a recovery that still has the last version
      in mind takes the new shelf for an old one. */
  lemma WrapLosesFile() returns (s: State)
    ensures Reachable(s) && s.bumps == [VERSION_LIMIT]
    ensures s.slots == [Slot(true, 0)] && Shelf(0, 0) !in s.files
  {
    var s0 := Climb(VERSION_LIMIT - 1);
    var s1 := RecoverLast(s0);
    var s2, f := ClaimNext(s1, VERSION_LIMIT - 1);
    var s3 := FinishAdd(s2, f, 0);
    var f0 := Shelf(0, 0);
    s := At(s3, 1, s3.tasks[1].(left := s3.tasks[1].left - {f0})).(files := s3.files - {f0});
    ReachStep(s3, Delete(1, Shelf(0, 0)), s);
  }

  ghost predicate FilesKept(s: State) {
    forall i :: 0 <= i < |s.slots| && s.slots[i].valid ==> Shelf(i, s.slots[i].version) in s.files
  }

  ghost predicate BumpedAtMost(s: State, n: nat) { forall i :: 0 <= i < |s.bumps| ==> s.bumps[i] <= n }

  /** Valid slots keep their files in every run in which no version is bumped more than `n` times, exactly
      when `n` leaves a slot within its versions. */
  lemma FilesKeptIff(n: nat)
    ensures n < VERSION_LIMIT <==> forall s :: Reachable(s) && BumpedAtMost(s, n) ==> FilesKept(s)
  {
    if n < VERSION_LIMIT {
      forall s | Reachable(s) && BumpedAtMost(s, n) ensures FilesKept(s) {
        var states, steps :| EndsIn(states, steps, s);
        forall i | 0 <= i < |s.slots| && s.slots[i].valid ensures Shelf(i, s.slots[i].version) in s.files {
          ValidSlotHasFile(states, steps, |steps|, i);
        }
      }
    } else {
      var s := WrapLosesFile();
      assert s.slots[0].valid && !FilesKept(s);
    }
  }
}
