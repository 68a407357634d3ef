/** Fraser-style epochs across processes, and the delayed-free lists that rest on them. */
module EpochReclamation {

  // One shared frontier; one slot per participating process holding the epoch it last reported; any number
  // of processes that join late, report, scan the slots, race to advance the frontier by CAS, die and get
  // their slot cleared.  On top: five round-robin lists of blocks waiting to be freed.
  //
  // A process's own threads appear here only through what its lock guarantees: it reports a new epoch
  // while none of its operations is running.  `EpochProcess` proves that guarantee.

  const PARTICIPANTS: nat := 128
  const LIST_COUNT: nat := 5

  // Reserved values of a reported epoch
  const NO_PARTICIPANT: nat := 0
  const NEW_PARTICIPANT: nat := 1
  const MIN_ACTIVE: nat := 2

  type Epoch = nat
  type OpId = nat

  datatype Stage =
    | Vacant                       // the slot is free
    | New                          // slot acquired, not yet visible to scanners
    | Frozen                       // reported MIN_ACTIVE, frontier not yet read
    | Joining(seen: Epoch)         // frontier read, not yet reported
    | Joined                       // active
    | Reporting(seen: Epoch)       // active, frontier read for a fresh report, not yet reported
    | Dead                         // killed, slot not yet cleared

  datatype Scan =
    | NoScan
    | Flushed                                                  // cache invalidated
    | Scanning(frontier: Epoch, next: nat, allIn: bool)        // slots below `next` inspected

  /** A slot of the epoch vector together with the volatile state of the process that holds it:
      `cache` has the slots whose cached copy is valid, `ops` the operations in progress. */
  datatype Participant = Participant(stage: Stage, reported: Epoch, cache: map<nat, Epoch>, scan: Scan, ops: set<OpId>)

  /** A block waiting on a delayed-free list.  Beside the unit there is history no code reads: the
      reported epoch and frontier at the deferral and the operations then in progress anywhere. */
  datatype Parked = Parked(unit: nat, epoch: Epoch, frontier: Epoch, guards: set<OpId>)

  /** `hands` has the block each worker, known by its operation, has popped and not yet freed; `lost` has the
      blocks whose worker died with them.  Nothing in shared memory tells a lost block from one in use. */
  datatype State = State(
    frontier: Epoch, slots: seq<Participant>, lists: seq<seq<Parked>>, nextOp: OpId,
    hands: map<OpId, Parked>, lost: map<OpId, Parked>)

  datatype Step =
    | Register(i: nat)
    | Freeze(i: nat)
    | ReadFrontierToJoin(i: nat)
    | Join(i: nat)
    | ReadFrontierToReport(i: nat)
    | Report(i: nat)
    | EnterOp(i: nat)
    | ExitOp(i: nat, op: OpId)
    | Flush(i: nat)
    | ScanFrontier(i: nat)
    | ScanSlot(i: nat)
    | EndScan(i: nat)
    | Die(i: nat)
    | ClearDead(i: nat)
    | Leave(i: nat)
    | Defer(i: nat, op: OpId, unit: nat)
    | Take(i: nat, op: OpId)                       // the worker's pop
    | HandBack(i: nat, op: OpId)                   // its call of the zone's free

  function VacantSlot(): Participant { Participant(Vacant, NO_PARTICIPANT, map[], NoScan, {}) }

  ghost predicate Init(s: State) {
    && s.frontier == MIN_ACTIVE
    && s.slots == seq(PARTICIPANTS, k => VacantSlot())
    && s.lists == seq(LIST_COUNT, k => [])
    && s.nextOp == 0 && s.hands == map[] && s.lost == map[]
  }

  predicate WellShaped(s: State) {
    |s.slots| == PARTICIPANTS && |s.lists| == LIST_COUNT
  }

  /** Reading a slot's epoch through the process's cache. */
  function Reads(s: State, i: nat, k: nat): Epoch
    requires i < |s.slots| && k < |s.slots|
  {
    if k in s.slots[i].cache then s.slots[i].cache[k] else s.slots[k].reported
  }

  function Set(s: State, i: nat, p: Participant): State
    requires i < |s.slots|
  {
    s.(slots := s.slots[i := p])
  }

  function Publish(p: Participant, i: nat, e: Epoch, stage: Stage): Participant {
    p.(stage := stage, reported := e, cache := p.cache[i := e])
  }

  /** Operation `o` is running in some process. */
  ghost predicate InProgress(s: State, o: OpId) {
    exists i :: 0 <= i < |s.slots| && o in s.slots[i].ops
  }

  ghost predicate IsInProgressSet(s: State, ops: set<OpId>) {
    forall o :: o in ops <==> InProgress(s, o)
  }

  ghost predicate Next(s: State, step: Step, s': State)
    requires WellShaped(s)
  {
    && step.i < PARTICIPANTS
    && var i := step.i;
    var p := s.slots[i];
    match step
    case Register(_) =>
      // CAS on the whole slot; the cache of the new process starts with arbitrary contents
      && p.stage == Vacant
      && |s'.slots| == PARTICIPANTS
      && var q := s'.slots[i];
      && s' == Set(s, i, q)
      && q == Participant(New, NEW_PARTICIPANT, q.cache, NoScan, {})
    case Freeze(_) =>
      p.stage == New && s' == Set(s, i, Publish(p, i, MIN_ACTIVE, Frozen))
    case ReadFrontierToJoin(_) =>
      p.stage == Frozen && s' == Set(s, i, p.(stage := Joining(s.frontier)))
    case Join(_) =>
      p.stage.Joining? && s' == Set(s, i, Publish(p, i, p.stage.seen, Joined))
    case ReadFrontierToReport(_) =>
      p.stage == Joined && p.ops == {} && s' == Set(s, i, p.(stage := Reporting(s.frontier)))
    case Report(_) =>
      p.stage.Reporting? && s' == Set(s, i, Publish(p, i, p.stage.seen, Joined))
    case EnterOp(_) =>
      p.stage == Joined && s' == Set(s, i, p.(ops := p.ops + {s.nextOp})).(nextOp := s.nextOp + 1)
    case ExitOp(_, op) =>
      // a worker's operation spans its whole round
      op in p.ops && op !in s.hands && s' == Set(s, i, p.(ops := p.ops - {op}))
    case Flush(_) =>
      && (p.stage == Joined || p.stage.Reporting?) && p.scan == NoScan
      && s' == Set(s, i, p.(cache := map[], scan := Flushed))
    case ScanFrontier(_) =>
      p.scan == Flushed && s' == Set(s, i, p.(scan := Scanning(s.frontier, 0, true)))
    case ScanSlot(_) =>
      && p.scan.Scanning? && p.scan.next < PARTICIPANTS
      && var k := p.scan.next;
      var r := Reads(s, i, k);
      s' == Set(s, i, p.(
        cache := p.cache[k := r],
        scan := Scanning(p.scan.frontier, k + 1, p.scan.allIn && !(r >= MIN_ACTIVE && r != p.scan.frontier))))
    case EndScan(_) =>
      // the CAS takes place only when every active participant was seen at the frontier
      && p.scan.Scanning? && p.scan.next == PARTICIPANTS
      && s' == Set(s, i, p.(scan := NoScan)).(
        frontier := if p.scan.allIn && s.frontier == p.scan.frontier then s.frontier + 1 else s.frontier)
    case Die(_) =>
      && p.stage != Vacant && p.stage != Dead
      && s' == Set(s, i, p.(stage := Dead, scan := NoScan, ops := {}))
               .(hands := s.hands - p.ops, lost := s.lost + HeldBy(s.hands, p.ops))
    case ClearDead(_) =>
      p.stage == Dead && s' == Set(s, i, VacantSlot())
    case Leave(_) =>
      p.stage == Joined && p.ops == {} && p.scan == NoScan && s' == Set(s, i, VacantSlot())
    case Defer(_, op, unit) =>
      && op in p.ops
      && var e := Reads(s, i, i);
      var l := (e + 3) % LIST_COUNT;
      exists guards: set<OpId> :: IsInProgressSet(s, guards)
        && s' == Set(s, i, p.(cache := p.cache[i := e])).(
             lists := s.lists[l := [Parked(unit, e, s.frontier, guards)] + s.lists[l]])
    case Take(_, op) =>
      && op in p.ops && op !in s.hands
      && var e := Reads(s, i, i);
      && s.lists[e % LIST_COUNT] != []
      && s' == Set(s, i, p.(cache := p.cache[i := e])).(
           lists := s.lists[e % LIST_COUNT := s.lists[e % LIST_COUNT][1..]],
           hands := s.hands[op := Taken(s, i)])
    case HandBack(_, op) =>
      op in p.ops && op in s.hands && s' == s.(hands := s.hands - {op})
  }

  /** What the workers running `ops` have in hand. */
  function HeldBy(hands: map<OpId, Parked>, ops: set<OpId>): map<OpId, Parked> {
    map o | o in hands && o in ops :: hands[o]
  }

  /** The record a `Take` step pops. */
  function Taken(s: State, i: nat): Parked
    requires WellShaped(s) && i < PARTICIPANTS && s.lists[Reads(s, i, i) % LIST_COUNT] != []
  {
    s.lists[Reads(s, i, i) % LIST_COUNT][0]
  }

  // ---------------------------------------------------------------- invariant

  /** Scanner `j` has passed slot `i` and could still advance the frontier from where it is now. */
  ghost predicate Passed(s: State, j: nat, i: nat)
    requires j < |s.slots|
  {
    var c := s.slots[j].scan;
    c.Scanning? && c.allIn && c.frontier == s.frontier && i < c.next
  }

  predicate Active(p: Participant) { p.stage == Joined || p.stage.Reporting? }

  ghost predicate SlotOk(s: State, i: nat)
    requires i < |s.slots|
  {
    var p := s.slots[i];
    && (p.ops != {} ==> p.stage == Joined)
    && (forall o :: o in p.ops ==> o < s.nextOp)
    && (p.scan != NoScan ==> Active(p))
    && (p.stage.Frozen? || p.stage.Joining? || Active(p) ==> (i in p.cache ==> p.cache[i] == p.reported))
    && match p.stage
       case Vacant => p.reported == NO_PARTICIPANT
       case New => p.reported == NEW_PARTICIPANT
       case Frozen => p.reported == MIN_ACTIVE
       case Joining(v) =>
         && p.reported == MIN_ACTIVE <= v <= s.frontier <= v + 1
         && (s.frontier == v + 1 ==> forall j :: 0 <= j < |s.slots| ==> !Passed(s, j, i))
       case Joined => InWindow(s, i)
       case Reporting(v) => InWindow(s, i) && p.reported <= v <= s.frontier
       case Dead => true
  }

  ghost predicate InWindow(s: State, i: nat)
    requires i < |s.slots|
  {
    && MIN_ACTIVE <= s.slots[i].reported <= s.frontier <= s.slots[i].reported + 1
    && (forall j :: 0 <= j < |s.slots| && Passed(s, j, i) ==> s.slots[i].reported == s.frontier)
  }

  ghost predicate ScanOk(s: State, j: nat)
    requires j < |s.slots|
  {
    var p := s.slots[j];
    && (p.scan.Flushed? ==> forall k :: k in p.cache ==> k == j)
    && (p.scan.Scanning? ==>
          && MIN_ACTIVE <= p.scan.frontier <= s.frontier
          && p.scan.next <= |s.slots|
          && forall k :: k in p.cache && k >= p.scan.next ==> k == j)
  }

  ghost predicate ParkedOk(s: State, l: nat, q: Parked) {
    && l == (q.epoch + 3) % LIST_COUNT
    && q.frontier - 1 <= q.epoch <= q.frontier <= s.frontier
    && (forall o :: o in q.guards ==> o < s.nextOp)
    && (forall i, o :: 0 <= i < |s.slots| && o in s.slots[i].ops && o in q.guards ==> s.slots[i].reported <= q.frontier)
  }

  /** Every operation that saw the deferral has ended. */
  ghost predicate Ended(s: State, q: Parked) {
    forall o :: o in q.guards ==> o < s.nextOp && !InProgress(s, o)
  }

  /** An operation runs in one process. */
  ghost predicate OpsOk(s: State) {
    forall i, j, o :: 0 <= i < |s.slots| && 0 <= j < |s.slots| && o in s.slots[i].ops && o in s.slots[j].ops ==> i == j
  }

  ghost predicate HandsOk(s: State) {
    && (forall o :: o in s.hands ==> o < s.nextOp && InProgress(s, o) && Ended(s, s.hands[o]))
    && (forall o :: o in s.lost ==> o < s.nextOp && !InProgress(s, o))
  }

  ghost predicate Inv(s: State) {
    && WellShaped(s) && OpsOk(s) && HandsOk(s)
    && s.frontier >= MIN_ACTIVE
    && (forall i :: 0 <= i < PARTICIPANTS ==> SlotOk(s, i))
    && (forall j :: 0 <= j < PARTICIPANTS ==> ScanOk(s, j))
    && (forall l, n :: 0 <= l < LIST_COUNT && 0 <= n < |s.lists[l]| ==> ParkedOk(s, l, s.lists[l][n]))
  }

  lemma InitInv(s: State)
    requires Init(s)
    ensures Inv(s)
  {}

  /** A scanner that can still advance the frontier after a step could before it, unless the step is
      its own look at the slot: then it saw the slot vacant, new, or exactly at the frontier. */
  lemma PassedBefore(s: State, step: Step, s': State, j: nat, k: nat)
    requires Inv(s) && Next(s, step, s') && j < PARTICIPANTS && k < PARTICIPANTS
    requires WellShaped(s') && Passed(s', j, k)
    ensures s'.frontier == s.frontier
    ensures Passed(s, j, k) || (step == ScanSlot(j) && s.slots[j].scan.next == k
                                && (Reads(s, j, k) < MIN_ACTIVE || Reads(s, j, k) == s.frontier))
  {
    assert ScanOk(s, j);
  }

  /** A successful CAS finds every active participant at the frontier and no joiner behind it. */
  lemma AdvanceIsSafe(s: State, j: nat, k: nat)
    requires Inv(s) && j < PARTICIPANTS && k < PARTICIPANTS
    requires var c := s.slots[j].scan; c.Scanning? && c.next == PARTICIPANTS && c.allIn && c.frontier == s.frontier
    ensures Active(s.slots[k]) ==> s.slots[k].reported == s.frontier
    ensures s.slots[k].stage.Joining? ==> s.slots[k].stage.seen == s.frontier
  {
    assert SlotOk(s, k) && Passed(s, j, k);
  }

  /** Who has passed a slot that the step does not write had passed it before, or has just seen it at the
      frontier. */
  lemma OtherPassed(s: State, step: Step, s': State, j: nat, k: nat)
    requires Inv(s) && Next(s, step, s') && j < PARTICIPANTS && k < PARTICIPANTS && k != step.i
    requires WellShaped(s') && Passed(s', j, k)
    ensures Passed(s, j, k) || s.slots[k].reported < MIN_ACTIVE || s.slots[k].reported == s.frontier
  {
    PassedBefore(s, step, s', j, k);
    assert ScanOk(s, j);
  }

  /** The slots a step does not write. */
  lemma OtherSlotKept(s: State, step: Step, s': State, k: nat)
    requires Inv(s) && Next(s, step, s') && k < PARTICIPANTS && k != step.i && s'.frontier == s.frontier
    ensures WellShaped(s') && SlotOk(s', k)
  {
    assert s'.slots[k] == s.slots[k] && s'.nextOp >= s.nextOp;
    forall j | 0 <= j < PARTICIPANTS && Passed(s', j, k)
      ensures Passed(s, j, k) || s.slots[k].reported < MIN_ACTIVE || s.slots[k].reported == s.frontier
    {
      OtherPassed(s, step, s', j, k);
    }
    SlotStays(s, s', k);
  }

  lemma SlotStays(s: State, s': State, k: nat)
    requires WellShaped(s) && WellShaped(s') && k < PARTICIPANTS && SlotOk(s, k)
    requires s'.slots[k] == s.slots[k] && s'.frontier == s.frontier && s'.nextOp >= s.nextOp
    requires forall j :: 0 <= j < PARTICIPANTS && Passed(s', j, k)
               ==> Passed(s, j, k) || s.slots[k].reported < MIN_ACTIVE || s.slots[k].reported == s.frontier
    ensures SlotOk(s', k)
  {
  }

  lemma OwnPassed(s: State, step: Step, s': State, j: nat)
    requires Inv(s) && Next(s, step, s') && j < PARTICIPANTS && WellShaped(s') && Passed(s', j, step.i)
    ensures Passed(s, j, step.i)
            || (j == step.i && step == ScanSlot(j) && s.slots[j].reported == s.frontier)
  {
    assert SlotOk(s, step.i);
    PassedBefore(s, step, s', j, step.i);
  }

  /** The slot a step writes. */
  lemma OwnSlotKept(s: State, step: Step, s': State)
    requires Inv(s) && Next(s, step, s') && s'.frontier == s.frontier
    ensures WellShaped(s') && SlotOk(s', step.i)
  {
    var k := step.i;
    assert SlotOk(s, k) && ScanOk(s, k);
    forall j | 0 <= j < PARTICIPANTS && Passed(s', j, k)
      ensures Passed(s, j, k) || (j == k && step == ScanSlot(k) && s.slots[k].reported == s.frontier)
    {
      OwnPassed(s, step, s', j);
    }
    if step.Register? || step.Freeze? || step.ReadFrontierToJoin? || step.Join? { JoinerKept(s, step, s'); }
    else if s'.slots[k].stage == s.slots[k].stage { WorkerKept(s, step, s'); }
    else { MemberKept(s, step, s'); }
  }

  /** Steps of a process that is joining. */
  lemma JoinerKept(s: State, step: Step, s': State)
    requires WellShaped(s) && Next(s, step, s') && WellShaped(s') && s.frontier >= MIN_ACTIVE
    requires step.Register? || step.Freeze? || step.ReadFrontierToJoin? || step.Join?
    requires SlotOk(s, step.i) && s'.frontier == s.frontier
    requires forall j :: 0 <= j < PARTICIPANTS && Passed(s', j, step.i) ==> Passed(s, j, step.i)
    ensures SlotOk(s', step.i)
  {
  }

  /** Steps of one that has joined: operations, scans and blocks. */
  lemma WorkerKept(s: State, step: Step, s': State)
    requires WellShaped(s) && Next(s, step, s') && WellShaped(s')
    requires !(step.Register? || step.Freeze? || step.ReadFrontierToJoin? || step.Join?)
    requires SlotOk(s, step.i) && s'.frontier == s.frontier && s'.slots[step.i].stage == s.slots[step.i].stage
    requires forall j :: 0 <= j < PARTICIPANTS && Passed(s', j, step.i)
               ==> Passed(s, j, step.i) || s.slots[step.i].reported == s.frontier
    ensures SlotOk(s', step.i)
  {
  }

  /** Its reports, and its end. */
  lemma MemberKept(s: State, step: Step, s': State)
    requires WellShaped(s) && Next(s, step, s') && WellShaped(s') && s'.slots[step.i].stage != s.slots[step.i].stage
    requires !(step.Register? || step.Freeze? || step.ReadFrontierToJoin? || step.Join?)
    requires SlotOk(s, step.i) && s'.frontier == s.frontier
    requires forall j :: 0 <= j < PARTICIPANTS && Passed(s', j, step.i)
               ==> Passed(s, j, step.i) || s.slots[step.i].reported == s.frontier
    ensures SlotOk(s', step.i)
  {
  }

  lemma SlotKept(s: State, step: Step, s': State, k: nat)
    requires Inv(s) && Next(s, step, s') && k < PARTICIPANTS
    ensures WellShaped(s') && SlotOk(s', k)
  {
    if s'.frontier != s.frontier {
      assert SlotOk(s, k);
      AdvanceIsSafe(s, step.i, k);
      forall j | 0 <= j < PARTICIPANTS ensures !Passed(s', j, k) {
        assert ScanOk(s, j);
      }
    } else if k == step.i {
      OwnSlotKept(s, step, s');
    } else {
      OtherSlotKept(s, step, s', k);
    }
  }

  lemma CountersGrow(s: State, step: Step, s': State)
    requires WellShaped(s) && Next(s, step, s')
    ensures s.frontier <= s'.frontier && s.nextOp <= s'.nextOp
  {
  }

  lemma ScanKept(s: State, step: Step, s': State, j: nat)
    requires Inv(s) && Next(s, step, s') && j < PARTICIPANTS
    ensures WellShaped(s') && ScanOk(s', j)
  {
    CountersGrow(s, step, s');
    assert ScanOk(s, j);
    if j == step.i { OwnScanKept(s, step, s'); } else { assert s'.slots[j] == s.slots[j]; }
  }

  lemma OwnScanKept(s: State, step: Step, s': State)
    requires WellShaped(s) && Next(s, step, s') && ScanOk(s, step.i)
    requires s.frontier >= MIN_ACTIVE
    ensures WellShaped(s') && ScanOk(s', step.i)
  {
  }

  /** A block just deferred: no operation can have seen a frontier beyond the present one. */
  lemma DeferOk(s: State, step: Step, s': State)
    requires Inv(s) && step.Defer? && Next(s, step, s')
    ensures var l := (Reads(s, step.i, step.i) + 3) % LIST_COUNT;
            s'.lists[l] != [] && s'.lists[l][1..] == s.lists[l] && ParkedOk(s', l, s'.lists[l][0])
  {
    var q := s'.lists[(Reads(s, step.i, step.i) + 3) % LIST_COUNT][0];
    assert SlotOk(s, step.i);
    forall o | o in q.guards ensures o < s.nextOp {
      assert InProgress(s, o);
      var i :| 0 <= i < |s.slots| && o in s.slots[i].ops;
      assert SlotOk(s, i);
    }
    forall i, o | 0 <= i < |s'.slots| && o in s'.slots[i].ops ensures s'.slots[i].reported <= q.frontier {
      assert SlotOk(s, i);
    }
  }

  /** An operation that goes on keeps its process from reporting anew. */
  lemma OpHoldsEpoch(s: State, step: Step, s': State, i: nat, o: OpId)
    requires WellShaped(s) && Next(s, step, s') && SlotOk(s, step.i) && WellShaped(s')
    requires i < PARTICIPANTS && o in s'.slots[i].ops && o < s.nextOp
    ensures o in s.slots[i].ops && s'.slots[i].reported == s.slots[i].reported
  {
    if i != step.i { assert s'.slots[i] == s.slots[i]; }
  }

  /** A block that waits goes on waiting rightly. */
  lemma WaitingKept(s: State, step: Step, s': State, l: nat, q: Parked)
    requires Inv(s) && Next(s, step, s') && WellShaped(s') && ParkedOk(s, l, q)
    ensures ParkedOk(s', l, q)
  {
    CountersGrow(s, step, s');
    forall i, o | 0 <= i < |s'.slots| && o in s'.slots[i].ops && o in q.guards
      ensures s'.slots[i].reported <= q.frontier
    {
      OpHoldsEpoch(s, step, s', i, o);
    }
  }

  lemma ParkedKept(s: State, step: Step, s': State, l: nat, n: nat)
    requires Inv(s) && Next(s, step, s') && WellShaped(s') && l < LIST_COUNT && n < |s'.lists[l]|
    ensures ParkedOk(s', l, s'.lists[l][n])
  {
    if step.Defer? && l == (Reads(s, step.i, step.i) + 3) % LIST_COUNT {
      DeferOk(s, step, s');
      if n > 0 { WaitingKept(s, step, s', l, s.lists[l][n - 1]); }
    } else {
      var m :| 0 <= m < |s.lists[l]| && s'.lists[l][n] == s.lists[l][m];
      WaitingKept(s, step, s', l, s.lists[l][m]);
    }
  }

  // ---- blocks in hand

  lemma SlotFrame(s: State, step: Step, s': State, i: nat)
    requires WellShaped(s) && Next(s, step, s') && i < PARTICIPANTS && i != step.i
    ensures WellShaped(s') && s'.slots[i] == s.slots[i]
  {
  }

  /** What a step does to the operations of its process. */
  lemma OwnOps(s: State, step: Step, s': State)
    requires WellShaped(s) && Next(s, step, s') && SlotOk(s, step.i)
    ensures WellShaped(s')
    ensures s'.slots[step.i].ops == match step
            case EnterOp(i) => s.slots[i].ops + {s.nextOp}
            case ExitOp(i, op) => s.slots[i].ops - {op}
            case Die(i) => {}
            case _ => s.slots[step.i].ops
  {
  }

  /** Who is active after a step was so before it, or has just joined. */
  lemma OwnActive(s: State, step: Step, s': State)
    requires WellShaped(s) && Next(s, step, s')
    ensures WellShaped(s')
    ensures Active(s'.slots[step.i]) ==> step.Join? || (Active(s.slots[step.i]) && !step.Die? && !step.Leave?)
  {
  }

  lemma ProgressBefore(s: State, step: Step, s': State, o: OpId)
    requires Inv(s) && Next(s, step, s') && InProgress(s', o)
    ensures InProgress(s, o) || (step.EnterOp? && o == s.nextOp)
  {
    assert SlotOk(s, step.i);
    OwnOps(s, step, s');
    var i :| 0 <= i < |s'.slots| && o in s'.slots[i].ops;
    if i != step.i { SlotFrame(s, step, s', i); }
    assert o in s.slots[i].ops || (step.EnterOp? && o == s.nextOp);
  }

  lemma OpsKept(s: State, step: Step, s': State)
    requires Inv(s) && Next(s, step, s')
    ensures OpsOk(s')
  {
    assert SlotOk(s, step.i);
    OwnOps(s, step, s');
    forall i, j, o | 0 <= i < |s'.slots| && 0 <= j < |s'.slots| && o in s'.slots[i].ops && o in s'.slots[j].ops
      ensures i == j
    {
      if i != step.i { SlotFrame(s, step, s', i); }
      if j != step.i { SlotFrame(s, step, s', j); }
      assert SlotOk(s, i) && SlotOk(s, j);
    }
  }

  lemma EndedStays(s: State, step: Step, s': State, q: Parked)
    requires Inv(s) && Next(s, step, s') && Ended(s, q)
    ensures Ended(s', q)
  {
    CountersGrow(s, step, s');
    forall o | o in q.guards ensures !InProgress(s', o) {
      if InProgress(s', o) { ProgressBefore(s, step, s', o); }
    }
  }

  /** An operation that goes on, or has just begun. */
  lemma Goes(s: State, step: Step, s': State, o: OpId)
    requires Inv(s) && Next(s, step, s') && InProgress(s, o)
    requires step.ExitOp? ==> o != step.op
    requires step.Die? ==> o !in s.slots[step.i].ops
    ensures InProgress(s', o)
  {
    var i :| 0 <= i < |s.slots| && o in s.slots[i].ops;
    assert SlotOk(s, i);
    if i == step.i { OwnOps(s, step, s'); } else { SlotFrame(s, step, s', i); }
    assert o in s'.slots[i].ops;
  }

  /** The core of reclamation: while an operation that saw the deferral is still running, the frontier
      is at most one past it, so every active process reports an epoch within [-1, 2] of the deferral's. */
  lemma EpochGap(s: State, l: nat, q: Parked, i: nat)
    requires Inv(s) && ParkedOk(s, l, q) && i < PARTICIPANTS && Active(s.slots[i])
    ensures forall m, o :: 0 <= m < PARTICIPANTS && o in s.slots[m].ops && o in q.guards
                           ==> -1 <= s.slots[i].reported - q.epoch <= 2
  {
    assert SlotOk(s, i);
    forall m, o | 0 <= m < PARTICIPANTS && o in s.slots[m].ops && o in q.guards
      ensures -1 <= s.slots[i].reported - q.epoch <= 2
    {
      assert SlotOk(s, m);
    }
  }

  /** No epoch in that range selects the list the block waits on: with five lists and an offset of three,
      neither `e + 3` nor `e - 2` can be mistaken for it. */
  lemma TakenEnded(s: State, step: Step, s': State)
    requires Inv(s) && step.Take? && Next(s, step, s')
    ensures Ended(s, Taken(s, step.i))
  {
    var q := Taken(s, step.i);
    var l := Reads(s, step.i, step.i) % LIST_COUNT;
    assert SlotOk(s, step.i) && ParkedOk(s, l, s.lists[l][0]);
    EpochGap(s, l, q, step.i);
    forall o | o in q.guards ensures !InProgress(s, o) { FiveListsSuffice(s.slots[step.i].reported, q.epoch); }
  }

  lemma FiveListsSuffice(e: Epoch, d: Epoch)
    requires (d + 3) % LIST_COUNT == e % LIST_COUNT
    ensures !(-1 <= e - d <= 2)
  {
  }

  lemma HandKept(s: State, step: Step, s': State, o: OpId)
    requires Inv(s) && Next(s, step, s') && o in s'.hands
    ensures o < s'.nextOp && InProgress(s', o) && Ended(s', s'.hands[o])
  {
    CountersGrow(s, step, s');
    if o in s.hands {
      Goes(s, step, s', o);
      EndedStays(s, step, s', s.hands[o]);
    } else {
      assert step.Take? && o == step.op && SlotOk(s, step.i);
      assert InProgress(s, o);
      Goes(s, step, s', o);
      TakenEnded(s, step, s');
      EndedStays(s, step, s', s'.hands[o]);
    }
  }

  /** The operation of a dead worker is over for good. */
  lemma LostKept(s: State, step: Step, s': State, o: OpId)
    requires Inv(s) && Next(s, step, s') && o in s'.lost
    ensures o < s'.nextOp && !InProgress(s', o)
  {
    CountersGrow(s, step, s');
    if o in s.lost {
      if InProgress(s', o) { ProgressBefore(s, step, s', o); }
    } else {
      assert o in s.slots[step.i].ops && step.Die?;
      forall i | 0 <= i < |s'.slots| ensures o !in s'.slots[i].ops {}
    }
  }

  lemma HandsKept(s: State, step: Step, s': State)
    requires Inv(s) && Next(s, step, s')
    ensures HandsOk(s')
  {
    forall o | o in s'.hands ensures o < s'.nextOp && InProgress(s', o) && Ended(s', s'.hands[o]) {
      HandKept(s, step, s', o);
    }
    forall o | o in s'.lost ensures o < s'.nextOp && !InProgress(s', o) {
      LostKept(s, step, s', o);
    }
  }

  lemma InvKept(s: State, step: Step, s': State)
    requires Inv(s) && Next(s, step, s')
    ensures Inv(s')
  {
    OpsKept(s, step, s');
    HandsKept(s, step, s');
    forall k | 0 <= k < PARTICIPANTS ensures SlotOk(s', k) && ScanOk(s', k) {
      SlotKept(s, step, s', k);
      ScanKept(s, step, s', k);
    }
    forall l, n | 0 <= l < LIST_COUNT && 0 <= n < |s'.lists[l]| ensures ParkedOk(s', l, s'.lists[l][n]) {
      ParkedKept(s, step, s', l, n);
    }
  }

  // ---------------------------------------------------------------- runs

  /** `states[t]` takes `steps[t]` to `states[t + 1]`, from the initial state on. */
  ghost predicate IsRun(states: seq<State>, steps: seq<Step>) {
    && |states| == |steps| + 1
    && Init(states[0])
    && forall t :: 0 <= t < |steps| ==> StepTaken(states, steps, t)
  }

  ghost predicate StepTaken(states: seq<State>, steps: seq<Step>, t: nat)
    requires t < |steps| && t + 1 < |states|
  {
    WellShaped(states[t]) && Next(states[t], steps[t], states[t + 1])
  }

  lemma {:induction false} RunInv(states: seq<State>, steps: seq<Step>, t: nat)
    requires IsRun(states, steps) && t < |states|
    ensures Inv(states[t])
  {
    if t == 0 {
      InitInv(states[0]);
    } else {
      RunInv(states, steps, t - 1);
      assert StepTaken(states, steps, t - 1);
      InvKept(states[t - 1], steps[t - 1], states[t]);
    }
  }

  /** However scanners race and reports lag, every participant that has finished joining reports the
      frontier or the epoch just before it. */
  lemma FrontierWindow(states: seq<State>, steps: seq<Step>, t: nat, i: nat)
    requires IsRun(states, steps) && t < |states| && i < PARTICIPANTS
    ensures WellShaped(states[t])
    ensures Active(states[t].slots[i]) ==>
              states[t].frontier - 1 <= states[t].slots[i].reported <= states[t].frontier
  {
    RunInv(states, steps, t);
    assert SlotOk(states[t], i);
  }

  lemma {:induction false} FrontierNeverDecreases(states: seq<State>, steps: seq<Step>, t: nat, u: nat)
    requires IsRun(states, steps) && t <= u < |states|
    ensures states[t].frontier <= states[u].frontier
    decreases u
  {
    if t < u {
      FrontierNeverDecreases(states, steps, t, u - 1);
      RunInv(states, steps, u - 1);
      assert StepTaken(states, steps, u - 1);
    }
  }

  /** The step that put `q` on its list. */
  ghost predicate DeferredAt(s: State, step: Step, q: Parked) {
    && step.Defer? && step.i < |s.slots| && step.op in s.slots[step.i].ops
    && q.unit == step.unit
    && IsInProgressSet(s, q.guards)
  }

  lemma {:induction false} ParkedWasDeferred(states: seq<State>, steps: seq<Step>, t: nat, l: nat, n: nat)
    requires IsRun(states, steps) && t < |states| && l < LIST_COUNT
    requires WellShaped(states[t]) && n < |states[t].lists[l]|
    ensures exists b :: 0 <= b < t && DeferredAt(states[b], steps[b], states[t].lists[l][n])
  {
    var q := states[t].lists[l][n];
    assert t > 0;
    var s, step := states[t - 1], steps[t - 1];
    assert StepTaken(states, steps, t - 1);
    if m :| 0 <= m < |s.lists[l]| && q == s.lists[l][m] {
      ParkedWasDeferred(states, steps, t - 1, l, m);
      var b :| 0 <= b < t - 1 && DeferredAt(states[b], steps[b], q);
    } else {
      assert DeferredAt(states[t - 1], steps[t - 1], q);
    }
  }

  lemma {:induction false} HandWasDeferred(states: seq<State>, steps: seq<Step>, t: nat, o: OpId)
    requires IsRun(states, steps) && t < |states| && o in states[t].hands
    ensures exists b :: 0 <= b < t && DeferredAt(states[b], steps[b], states[t].hands[o])
  {
    var q := states[t].hands[o];
    assert t > 0;
    var s, step := states[t - 1], steps[t - 1];
    assert StepTaken(states, steps, t - 1);
    if o in s.hands {
      HandWasDeferred(states, steps, t - 1, o);
      var b :| 0 <= b < t - 1 && DeferredAt(states[b], steps[b], q);
    } else {
      ParkedWasDeferred(states, steps, t - 1, Reads(s, step.i, step.i) % LIST_COUNT, 0);
      var b :| 0 <= b < t - 1 && DeferredAt(states[b], steps[b], q);
    }
  }

  /** Whoever holds a popped block: it was deferred at an earlier step, and every operation that was then in
      progress, in any process, has ended. */
  lemma TakenIsSafe(states: seq<State>, steps: seq<Step>, t: nat, o: OpId)
    requires IsRun(states, steps) && t < |states| && o in states[t].hands
    ensures exists b :: 0 <= b < t
              && DeferredAt(states[b], steps[b], states[t].hands[o])
              && forall g :: InProgress(states[b], g) ==> !InProgress(states[t], g)
  {
    RunInv(states, steps, t);
    HandWasDeferred(states, steps, t, o);
    var b :| 0 <= b < t && DeferredAt(states[b], steps[b], states[t].hands[o]);
    assert Ended(states[t], states[t].hands[o]);
  }

  /** Reclamation safety over every run: a block handed back to the zone was deferred at an earlier
      step, and every operation that was then in progress, in any process, has ended. */
  lemma ReclamationSafety(states: seq<State>, steps: seq<Step>, t: nat)
    requires IsRun(states, steps) && t < |steps| && steps[t].HandBack?
    ensures steps[t].op in states[t].hands
    ensures exists b :: 0 <= b < t
              && DeferredAt(states[b], steps[b], states[t].hands[steps[t].op])
              && forall o :: InProgress(states[b], o) ==> !InProgress(states[t], o)
  {
    assert StepTaken(states, steps, t);
    TakenIsSafe(states, steps, t, steps[t].op);
  }

  // ---------------------------------------------------------------- conservation

  function Count(list: seq<Parked>, unit: nat): nat {
    if list == [] then 0 else (if list[0].unit == unit then 1 else 0) + Count(list[1..], unit)
  }

  /** How often `unit` waits on the lists. */
  function Waiting(lists: seq<seq<Parked>>, unit: nat): nat {
    if lists == [] then 0 else Count(lists[0], unit) + Waiting(lists[1..], unit)
  }

  lemma {:induction false} WaitingUpdate(lists: seq<seq<Parked>>, l: nat, list: seq<Parked>, unit: nat)
    requires l < |lists|
    ensures Waiting(lists[l := list], unit) + Count(lists[l], unit) == Waiting(lists, unit) + Count(list, unit)
  {
    if l > 0 {
      assert lists[l := list][1..] == lists[1..][l - 1 := list];
      WaitingUpdate(lists[1..], l - 1, list, unit);
    } else {
      assert lists[l := list][1..] == lists[1..];
    }
  }

  lemma {:induction false} NothingWaiting(lists: seq<seq<Parked>>, unit: nat)
    requires forall l :: 0 <= l < |lists| ==> lists[l] == []
    ensures Waiting(lists, unit) == 0
  {
    if lists != [] { NothingWaiting(lists[1..], unit); }
  }

  lemma WaitingPush(lists: seq<seq<Parked>>, l: nat, q: Parked, unit: nat)
    requires l < |lists|
    ensures Waiting(lists[l := [q] + lists[l]], unit) == Waiting(lists, unit) + if q.unit == unit then 1 else 0
  {
    WaitingUpdate(lists, l, [q] + lists[l], unit);
    assert ([q] + lists[l])[1..] == lists[l];
  }

  /** How often `unit` was deferred, and handed back, in the first `t` steps. */
  ghost function Deferrals(steps: seq<Step>, t: nat, unit: nat): nat
    requires t <= |steps|
  {
    if t == 0 then 0
    else Deferrals(steps, t - 1, unit) + if steps[t - 1].Defer? && steps[t - 1].unit == unit then 1 else 0
  }

  ghost function HandBacks(states: seq<State>, steps: seq<Step>, t: nat, unit: nat): nat
    requires IsRun(states, steps) && t <= |steps|
  {
    if t == 0 then 0
    else
      assert StepTaken(states, steps, t - 1);
      HandBacks(states, steps, t - 1, unit)
      + if steps[t - 1].HandBack? && states[t - 1].hands[steps[t - 1].op].unit == unit then 1 else 0
  }

  function Holders(hands: map<OpId, Parked>, unit: nat): set<OpId> { set o | o in hands && hands[o].unit == unit }

  /** How often `unit` is among the blocks in hand, or among those lost. */
  function Held(hands: map<OpId, Parked>, unit: nat): nat { |Holders(hands, unit)| }

  lemma HeldTake(hands: map<OpId, Parked>, o: OpId, q: Parked, unit: nat)
    requires o !in hands
    ensures Held(hands[o := q], unit) == Held(hands, unit) + if q.unit == unit then 1 else 0
  {
    assert Holders(hands[o := q], unit) == Holders(hands, unit) + if q.unit == unit then {o} else {};
  }

  lemma HeldDrop(hands: map<OpId, Parked>, o: OpId, unit: nat)
    requires o in hands
    ensures Held(hands - {o}, unit) + (if hands[o].unit == unit then 1 else 0) == Held(hands, unit)
  {
    assert Holders(hands - {o}, unit) == Holders(hands, unit) - {o};
  }

  lemma HoldersMove(hands: map<OpId, Parked>, lost: map<OpId, Parked>, ops: set<OpId>, unit: nat)
    requires hands.Keys !! lost.Keys
    ensures Holders(hands - ops, unit) == Holders(hands, unit) - ops
    ensures Holders(lost + HeldBy(hands, ops), unit) == Holders(lost, unit) + Holders(hands, unit) * ops
    ensures Holders(lost, unit) !! Holders(hands, unit)
  {
    forall o | o in Holders(lost, unit) ensures o !in Holders(hands, unit) { assert o in lost.Keys; }
    forall o ensures o in Holders(hands - ops, unit) <==> o in Holders(hands, unit) - ops {}
    forall o ensures o in Holders(lost + HeldBy(hands, ops), unit)
                     <==> o in Holders(lost, unit) + Holders(hands, unit) * ops
    {
      assert o in hands ==> o !in lost.Keys;
    }
  }

  lemma SetSplit<T>(all: set<T>, part: set<T>)
    ensures |all - part| + |all * part| == |all|
  {
    assert all == (all - part) + (all * part);
  }

  /** What dying workers had in hand goes from one account to the other. */
  lemma HeldMove(hands: map<OpId, Parked>, lost: map<OpId, Parked>, ops: set<OpId>, unit: nat)
    requires hands.Keys !! lost.Keys
    ensures Held(hands - ops, unit) + Held(lost + HeldBy(hands, ops), unit) == Held(hands, unit) + Held(lost, unit)
    ensures Held(lost + HeldBy(hands, ops), unit) == Held(lost, unit) + |Holders(hands, unit) * ops|
  {
    HoldersMove(hands, lost, ops, unit);
    SetSplit(Holders(hands, unit), ops);
    assert Holders(lost, unit) !! Holders(hands, unit) * ops;
  }

  lemma HandsApart(s: State)
    requires HandsOk(s)
    ensures s.hands.Keys !! s.lost.Keys
  {
    forall o | o in s.hands ensures o !in s.lost {}
  }

  /** All the places a deferred block can be. */
  ghost function Accounted(s: State, unit: nat): nat {
    Waiting(s.lists, unit) + Held(s.hands, unit) + Held(s.lost, unit)
  }

  lemma DeferAccount(s: State, step: Step, s': State, unit: nat)
    requires WellShaped(s) && Next(s, step, s') && step.Defer?
    ensures Accounted(s', unit) == Accounted(s, unit) + if step.unit == unit then 1 else 0
  {
    var l := (Reads(s, step.i, step.i) + 3) % LIST_COUNT;
    WaitingPush(s.lists, l, s'.lists[l][0], unit);
  }

  lemma TakeAccount(s: State, step: Step, s': State, unit: nat)
    requires WellShaped(s) && Next(s, step, s') && step.Take?
    ensures Accounted(s', unit) == Accounted(s, unit)
  {
    var l := Reads(s, step.i, step.i) % LIST_COUNT;
    WaitingUpdate(s.lists, l, s.lists[l][1..], unit);
    HeldTake(s.hands, step.op, Taken(s, step.i), unit);
  }

  lemma DieAccount(s: State, step: Step, s': State, unit: nat)
    requires WellShaped(s) && HandsOk(s) && Next(s, step, s') && step.Die?
    ensures Accounted(s', unit) == Accounted(s, unit)
    ensures Held(s'.lost, unit) == Held(s.lost, unit) + |Holders(s.hands, unit) * s.slots[step.i].ops|
  {
    HandsApart(s);
    HeldMove(s.hands, s.lost, s.slots[step.i].ops, unit);
  }

  /** No other step moves a block. */
  lemma QuietAccount(s: State, step: Step, s': State)
    requires WellShaped(s) && Next(s, step, s') && !step.Defer? && !step.Take? && !step.HandBack? && !step.Die?
    ensures s'.lists == s.lists && s'.hands == s.hands && s'.lost == s.lost
  {
  }

  lemma AccountStep(s: State, step: Step, s': State, unit: nat)
    requires WellShaped(s) && HandsOk(s) && Next(s, step, s')
    ensures Accounted(s', unit) + (if step.HandBack? && s.hands[step.op].unit == unit then 1 else 0)
            == Accounted(s, unit) + (if step.Defer? && step.unit == unit then 1 else 0)
  {
    match step
    case Defer(_, _, _) => DeferAccount(s, step, s', unit);
    case Take(_, op) => TakeAccount(s, step, s', unit);
    case HandBack(_, op) => HeldDrop(s.hands, op, unit);
    case Die(i) => DieAccount(s, step, s', unit);
    case _ => QuietAccount(s, step, s');
  }

  /** Every deferral is matched by exactly one hand-back, or the block still waits, or a worker has it in
      hand, or its worker died with it: nothing is freed twice, and nothing else is dropped. */
  lemma {:induction false} DeferredIsConserved(states: seq<State>, steps: seq<Step>, t: nat, unit: nat)
    requires IsRun(states, steps) && t <= |steps|
    ensures Deferrals(steps, t, unit)
            == HandBacks(states, steps, t, unit) + Waiting(states[t].lists, unit)
               + Held(states[t].hands, unit) + Held(states[t].lost, unit)
  {
    if t == 0 {
      NothingWaiting(states[0].lists, unit);
      assert Holders(states[0].hands, unit) == {};
    } else {
      DeferredIsConserved(states, steps, t - 1, unit);
      assert StepTaken(states, steps, t - 1);
      RunInv(states, steps, t - 1);
      AccountStep(states[t - 1], steps[t - 1], states[t], unit);
    }
  }

  // ---------------------------------------------------------------- what a death costs

  /** Only a death loses blocks, each dying worker at most the one it had in hand, and a lost block stays
      lost. */
  lemma OnlyDeathLoses(s: State, step: Step, s': State, o: OpId)
    requires Inv(s) && Next(s, step, s')
    ensures o in s.lost ==> o in s'.lost && s'.lost[o] == s.lost[o]
    ensures o in s'.lost && o !in s.lost ==>
              step.Die? && o in s.slots[step.i].ops && o in s.hands && s'.lost[o] == s.hands[o]
  {
    HandsApart(s);
  }

  /** A process dies between a worker's pop of `unit` and its free. */
  ghost predicate DiesHolding(s: State, step: Step, unit: nat) {
    step.Die? && step.i < |s.slots| && Holders(s.hands, unit) * s.slots[step.i].ops != {}
  }

  ghost predicate DiedHolding(states: seq<State>, steps: seq<Step>, t: nat, unit: nat)
    requires t <= |steps| < |states|
  {
    exists b :: 0 <= b < t && DiesHolding(states[b], steps[b], unit)
  }

  lemma LossStep(s: State, step: Step, s': State, unit: nat)
    requires WellShaped(s) && HandsOk(s) && Next(s, step, s')
    ensures Held(s'.lost, unit) == 0 <==> Held(s.lost, unit) == 0 && !DiesHolding(s, step, unit)
  {
    if step.Die? { DieAccount(s, step, s', unit); } else { LostUntouched(s, step, s'); }
  }

  lemma LostUntouched(s: State, step: Step, s': State)
    requires WellShaped(s) && Next(s, step, s') && !step.Die?
    ensures s'.lost == s.lost
  {
  }

  lemma DiedBefore(states: seq<State>, steps: seq<Step>, t: nat, unit: nat)
    requires 0 < t <= |steps| < |states|
    ensures DiedHolding(states, steps, t, unit)
            <==> DiedHolding(states, steps, t - 1, unit) || DiesHolding(states[t - 1], steps[t - 1], unit)
  {
    if DiedHolding(states, steps, t, unit) {
      var b :| 0 <= b < t && DiesHolding(states[b], steps[b], unit);
      assert b == t - 1 || DiedHolding(states, steps, t - 1, unit);
    }
    if DiedHolding(states, steps, t - 1, unit) {
      var b :| 0 <= b < t - 1 && DiesHolding(states[b], steps[b], unit);
    }
  }

  lemma {:induction false} LossIff(states: seq<State>, steps: seq<Step>, t: nat, unit: nat)
    requires IsRun(states, steps) && t <= |steps|
    ensures Held(states[t].lost, unit) == 0 <==> !DiedHolding(states, steps, t, unit)
  {
    if t == 0 {
      assert Holders(states[0].lost, unit) == {};
    } else {
      LossIff(states, steps, t - 1, unit);
      assert StepTaken(states, steps, t - 1);
      RunInv(states, steps, t - 1);
      LossStep(states[t - 1], steps[t - 1], states[t], unit);
      DiedBefore(states, steps, t, unit);
    }
  }

  /** The deferrals of a unit are all freed, waiting or in hand exactly when no process has died between a
      worker's pop of it and its free. */
  lemma NothingLostIff(states: seq<State>, steps: seq<Step>, t: nat, unit: nat)
    requires IsRun(states, steps) && t <= |steps|
    ensures Deferrals(steps, t, unit)
            == HandBacks(states, steps, t, unit) + Waiting(states[t].lists, unit) + Held(states[t].hands, unit)
            <==> !DiedHolding(states, steps, t, unit)
  {
    DeferredIsConserved(states, steps, t, unit);
    LossIff(states, steps, t, unit);
  }
}
