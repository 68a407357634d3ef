/** The threads of one participating process: operations that enter and leave, the heartbeat, the
    scanner's brief exclusive section, and the distributed-counter reader/writer lock that keeps them
    apart.  Any number of threads hash onto the lock's counters.

    The point is what the epoch protocol asks of a process: it takes a new epoch only while none of its
    operations is running. */
module EpochProcess {

  type Epoch = nat

  datatype Thread = Thread(id: nat, hash: nat)

  datatype Purpose = Heartbeat | Invalidate

  datatype Pc =
    | Idle
    // enter_critical
    | SharedAdd                    // about to add itself to its counter
    | SharedCheck                  // counted, about to look at the writers' mutex
    | SharedUndo                   // saw a writer, about to take itself off again
    | SharedWait                   // waiting for the writer to leave
    | EnterMutex                   // has the shared lock, about to take the mutex
    | EnterCount                   // has the mutex, about to increment the count
    | EnterRead                    // was first, about to read the frontier
    | EnterReport(seen: Epoch)     // about to publish it
    | EnterDone                    // about to release the mutex
    | InOp(epoch: Epoch)           // running an operation; the epoch reported when it began
    // exit_critical
    | ExitMutex
    | ExitCount
    | ExitDone
    | SharedSub                    // about to take itself off its counter
    // an exclusive section
    | ExclusiveCas(purpose: Purpose)
    | ExclusiveScan(purpose: Purpose, next: nat)   // counters below `next` were seen empty
    | ExclusiveIn(purpose: Purpose)
    | BeatCheck                    // heartbeat, has the mutex, about to assert that the count is zero
    | BeatRead
    | BeatReport(seen: Epoch)
    | BeatDone
    | ExclusiveOut

  datatype Owner = Nobody | By(thread: Thread)

  /** `counters`, `writer`, `mutex`, `count` and `reported` are the shared words of the process; of
      `writer` and `mutex` the code sees only whether they are taken.  `counted` and `active` say who is
      behind the numbers. */
  datatype State = State(
    counters: seq<int>, writer: Owner, mutex: Owner, count: int, reported: Epoch,
    pcs: map<Thread, Pc>,
    counted: seq<set<Thread>>, active: set<Thread>)

  datatype Step =
    | Spawn(t: Thread)
    | BeginOp(t: Thread)
    | EndOp(t: Thread)
    | BeginExclusive(t: Thread, purpose: Purpose)
    | Advance(t: Thread, frontier: Epoch)          // a frontier read returns `frontier`

  function Index(s: State, t: Thread): nat
    requires |s.counters| > 0
  {
    t.hash % |s.counters|
  }

  function At(s: State, t: Thread, pc: Pc): State { s.(pcs := s.pcs[t := pc]) }

  function Add(s: State, t: Thread): State
    requires 0 < |s.counters| == |s.counted|
  {
    var k := Index(s, t);
    s.(counters := s.counters[k := s.counters[k] + 1], counted := s.counted[k := s.counted[k] + {t}])
  }

  function Sub(s: State, t: Thread): State
    requires 0 < |s.counters| == |s.counted|
  {
    var k := Index(s, t);
    s.(counters := s.counters[k := s.counters[k] - 1], counted := s.counted[k := s.counted[k] - {t}])
  }

  ghost predicate Init(s: State) {
    && |s.counters| > 0
    && s.counters == seq(|s.counters|, _ => 0) && s.counted == seq(|s.counters|, _ => {})
    && s.writer == Nobody && s.mutex == Nobody && s.count == 0 && s.pcs == map[] && s.active == {}
  }

  ghost predicate Next(s: State, step: Step, s': State)
    requires 0 < |s.counters| == |s.counted|
  {
    match step
    case Spawn(t) => t !in s.pcs && s' == At(s, t, Idle)
    case BeginOp(t) => t in s.pcs && s.pcs[t] == Idle && s' == At(s, t, SharedAdd)
    case EndOp(t) => t in s.pcs && s.pcs[t].InOp? && s' == At(s, t, ExitMutex)
    case BeginExclusive(t, p) => t in s.pcs && s.pcs[t] == Idle && s' == At(s, t, ExclusiveCas(p))
    case Advance(t, f) => t in s.pcs && (SharedStep(s, t, s') || CountStep(s, t, f, s') || ExclusiveStep(s, t, f, s'))
  }

  /** `sharedLock` and `sharedUnlock` */
  ghost predicate SharedStep(s: State, t: Thread, s': State)
    requires t in s.pcs && 0 < |s.counters| == |s.counted|
  {
    match s.pcs[t]
    case SharedAdd => s' == At(Add(s, t), t, SharedCheck)
    case SharedCheck => s' == At(s, t, if s.writer == Nobody then EnterMutex else SharedUndo)
    case SharedUndo => s' == At(Sub(s, t), t, SharedWait)
    case SharedWait => s.writer == Nobody && s' == At(s, t, SharedAdd)
    case SharedSub => s' == At(Sub(s, t), t, Idle)
    case _ => false
  }

  /** The sections of `enter_critical` and `exit_critical` under the mutex. */
  ghost predicate CountStep(s: State, t: Thread, f: Epoch, s': State)
    requires t in s.pcs
  {
    match s.pcs[t]
    case EnterMutex => s.mutex == Nobody && s' == At(s, t, EnterCount).(mutex := By(t))
    case EnterCount =>
      s' == At(s, t, if s.count == 0 then EnterRead else EnterDone).(count := s.count + 1, active := s.active + {t})
    case EnterRead => s' == At(s, t, EnterReport(f))
    case EnterReport(e) => s' == At(s, t, EnterDone).(reported := e)
    case EnterDone => s' == At(s, t, InOp(s.reported)).(mutex := Nobody)
    case ExitMutex => s.mutex == Nobody && s' == At(s, t, ExitCount).(mutex := By(t))
    case ExitCount => s' == At(s, t, ExitDone).(count := s.count - 1, active := s.active - {t})
    case ExitDone => s' == At(s, t, SharedSub).(mutex := Nobody)
    case _ => false
  }

  /** `exclusiveLock`, the heartbeat's section or the scanner's, `exclusiveUnlock` */
  ghost predicate ExclusiveStep(s: State, t: Thread, f: Epoch, s': State)
    requires t in s.pcs
  {
    match s.pcs[t]
    case ExclusiveCas(p) => s.writer == Nobody && s' == At(s, t, ExclusiveScan(p, 0)).(writer := By(t))
    case ExclusiveScan(p, k) =>
      if k < |s.counters| then s.counters[k] <= 0 && s' == At(s, t, ExclusiveScan(p, k + 1))
      else s' == At(s, t, ExclusiveIn(p))
    case ExclusiveIn(p) =>
      if p == Invalidate then s' == At(s, t, ExclusiveOut)
      else s.mutex == Nobody && s' == At(s, t, BeatCheck).(mutex := By(t))
    case BeatCheck => s' == At(s, t, BeatRead)
    case BeatRead => s' == At(s, t, BeatReport(f))
    case BeatReport(e) => s' == At(s, t, BeatDone).(reported := e)
    case BeatDone => s' == At(s, t, ExclusiveOut).(mutex := Nobody)
    case ExclusiveOut => s' == At(s, t, Idle).(writer := Nobody)
    case _ => false
  }

  // ---------------------------------------------------------------- who is where

  predicate Counted(pc: Pc) { pc.SharedCheck? || pc.SharedUndo? || Inside(pc) }

  /** Holds the shared lock. */
  predicate Inside(pc: Pc) {
    pc.EnterMutex? || pc.EnterCount? || Active(pc) || pc.ExitDone? || pc.SharedSub?
  }

  predicate Active(pc: Pc) {
    pc.EnterRead? || pc.EnterReport? || pc.EnterDone? || pc.InOp? || pc.ExitMutex? || pc.ExitCount?
  }

  predicate HasMutex(pc: Pc) {
    pc.EnterCount? || pc.EnterRead? || pc.EnterReport? || pc.EnterDone? || pc.ExitCount? || pc.ExitDone?
    || Beating(pc)
  }

  predicate Beating(pc: Pc) { pc.BeatCheck? || pc.BeatRead? || pc.BeatReport? || pc.BeatDone? }

  /** Holds the exclusive lock, all counters drained. */
  predicate Alone(pc: Pc) { pc.ExclusiveIn? || Beating(pc) || pc.ExclusiveOut? }

  predicate IsWriter(pc: Pc) { pc.ExclusiveScan? || Alone(pc) }

  /** How many counters the writer has drained. */
  function Drained(pc: Pc, n: nat): nat { if pc.ExclusiveScan? then pc.next else n }

  predicate Reporting(pc: Pc) { pc.EnterReport? || pc.BeatReport? }

  ghost predicate ThreadOk(s: State, t: Thread)
    requires t in s.pcs && |s.counters| > 0
  {
    var pc := s.pcs[t];
    && (IsWriter(pc) <==> s.writer == By(t))
    && (HasMutex(pc) <==> s.mutex == By(t))
    && (Active(pc) <==> t in s.active)
    && (pc.EnterRead? || pc.EnterReport? ==> s.active == {t})
    && (pc.InOp? ==> pc.epoch == s.reported)
    && (pc.ExclusiveScan? ==> pc.next <= |s.counters|)
  }

  ghost predicate CountersOk(s: State) {
    && 0 < |s.counters| == |s.counted|
    && (forall k :: 0 <= k < |s.counters| ==> s.counters[k] == |s.counted[k]|)
    && (forall k, t :: 0 <= k < |s.counters| && t in s.counted[k] ==> t in s.pcs)
    && (forall k, t :: 0 <= k < |s.counters| && t in s.pcs ==>
          (t in s.counted[k] <==> k == Index(s, t) && Counted(s.pcs[t])))
  }

  /** A drained counter belongs to no holder of the shared lock. */
  ghost predicate Excludes(s: State)
    requires |s.counters| > 0
  {
    forall t, u :: t in s.pcs && u in s.pcs && IsWriter(s.pcs[t]) && Inside(s.pcs[u]) ==>
      Drained(s.pcs[t], |s.counters|) <= Index(s, u)
  }

  ghost predicate Inv(s: State) {
    && CountersOk(s) && Excludes(s)
    && s.count == |s.active| && (forall t :: t in s.active ==> t in s.pcs)
    && (forall t :: t in s.pcs ==> ThreadOk(s, t))
    && (s.writer.By? ==> s.writer.thread in s.pcs) && (s.mutex.By? ==> s.mutex.thread in s.pcs)
  }

  // ---------------------------------------------------------------- the invariant is kept

  lemma AddCounters(s: State, t: Thread, pc: Pc)
    requires CountersOk(s) && t in s.pcs && !Counted(s.pcs[t]) && Counted(pc)
    ensures CountersOk(At(Add(s, t), t, pc))
  {
    assert t !in s.counted[Index(s, t)];
  }

  lemma SubCounters(s: State, t: Thread, pc: Pc)
    requires CountersOk(s) && t in s.pcs && Counted(s.pcs[t]) && !Counted(pc)
    ensures CountersOk(At(Sub(s, t), t, pc))
  {
    CountedCounter(s, t);
    assert |s.counted[Index(s, t)] - {t}| == |s.counted[Index(s, t)]| - 1;
  }

  lemma CountedCounter(s: State, t: Thread)
    requires CountersOk(s) && t in s.pcs && Counted(s.pcs[t])
    ensures t in s.counted[Index(s, t)] && s.counters[Index(s, t)] > 0
  {}

  lemma MoveCounters(s: State, t: Thread, pc: Pc, s': State)
    requires CountersOk(s) && t in s.pcs && Counted(pc) == Counted(s.pcs[t])
    requires s'.counters == s.counters && s'.counted == s.counted && s'.pcs == s.pcs[t := pc]
    ensures CountersOk(s')
  {}

  // What the other threads rely on: a step of `t` moves the locks only between `t` and nobody, and
  // touches the count and the active set only under the mutex.

  predicate Passes(o: Owner, o': Owner, t: Thread) {
    o' == o || (o == Nobody && o' == By(t)) || (o == By(t) && o' == Nobody)
  }

  ghost predicate Frame(s: State, t: Thread, s': State) {
    && t in s.pcs && t in s'.pcs && s'.pcs == s.pcs[t := s'.pcs[t]]
    && |s'.counters| == |s.counters| > 0
    && Passes(s.writer, s'.writer, t) && Passes(s.mutex, s'.mutex, t)
    && (s'.active == s.active || s'.active == s.active + {t} || s'.active == s.active - {t})
    && (s'.active != s.active ==> HasMutex(s.pcs[t]))
    && (s'.reported != s.reported ==> Reporting(s.pcs[t]))
  }

  lemma OtherThreadOk(s: State, t: Thread, s': State, u: Thread)
    requires Frame(s, t, s') && u in s.pcs && u != t && ThreadOk(s, t) && ThreadOk(s, u)
    requires Reporting(s.pcs[t]) ==> !s.pcs[u].InOp?
    ensures ThreadOk(s', u)
  {
    if u in s.active {
      assert u in s'.active;
    }
  }

  /** While an epoch is being published no operation is running. */
  lemma ReportingAlone(s: State, t: Thread, u: Thread)
    requires Inv(s) && t in s.pcs && u in s.pcs && (Reporting(s.pcs[t]) || s.pcs[t].EnterRead? || s.pcs[t].BeatRead?)
    ensures !s.pcs[u].InOp?
    ensures Reporting(s.pcs[u]) ==> u == t
  {
    assert ThreadOk(s, t) && ThreadOk(s, u);
    assert Index(s, u) < |s.counters|;
  }

  ghost predicate ThreadsOk(s: State) {
    && |s.counters| > 0
    && (forall t :: t in s.pcs ==> ThreadOk(s, t))
    && s.count == |s.active| && (forall t :: t in s.active ==> t in s.pcs)
    && (s.writer.By? ==> s.writer.thread in s.pcs) && (s.mutex.By? ==> s.mutex.thread in s.pcs)
  }

  lemma ThreadsKept(s: State, t: Thread, s': State)
    requires Inv(s) && Frame(s, t, s') && ThreadOk(s', t) && s'.count == |s'.active|
    ensures ThreadsOk(s')
  {
    forall u | u in s'.pcs ensures ThreadOk(s', u) {
      assert ThreadOk(s, t);
      if u != t {
        if Reporting(s.pcs[t]) { ReportingAlone(s, t, u); }
        OtherThreadOk(s, t, s', u);
      }
    }
  }

  // ---- the thread that moves

  lemma EmptySet(a: set<Thread>)
    requires |a| == 0
    ensures a == {}
  {}

  lemma EnterOwn(s: State, t: Thread, s': State)
    requires t in s.pcs && |s.counters| > 0 && ThreadOk(s, t) && s.pcs[t].EnterCount? && CountStep(s, t, 0, s')
             && s.count == |s.active|
    ensures Frame(s, t, s') && ThreadOk(s', t) && s'.count == |s'.active|
  {
    if s.count == 0 { EmptySet(s.active); }
  }

  lemma CountOwn(s: State, t: Thread, f: Epoch, s': State)
    requires t in s.pcs && |s.counters| > 0 && ThreadOk(s, t) && CountStep(s, t, f, s') && s.count == |s.active|
    requires !s.pcs[t].EnterCount?
    ensures Frame(s, t, s') && ThreadOk(s', t) && s'.count == |s'.active|
  {}

  lemma ExclusiveOwn(s: State, t: Thread, f: Epoch, s': State)
    requires t in s.pcs && |s.counters| > 0 && ThreadOk(s, t) && ExclusiveStep(s, t, f, s') && s.count == |s.active|
    ensures Frame(s, t, s') && ThreadOk(s', t) && s'.count == |s'.active|
  {}

  lemma SharedOwn(s: State, t: Thread, s': State)
    requires t in s.pcs && 0 < |s.counters| == |s.counted| && ThreadOk(s, t) && SharedStep(s, t, s')
             && s.count == |s.active|
    ensures Frame(s, t, s') && ThreadOk(s', t) && s'.count == |s'.active|
  {}

  // ---- the reader/writer lock

  /** A step that neither acquires the shared lock nor gets further with the exclusive one. */
  lemma ExcludesStays(s: State, t: Thread, s': State)
    requires |s'.counters| == |s.counters| > 0 && Excludes(s) && t in s.pcs && t in s'.pcs
             && s'.pcs == s.pcs[t := s'.pcs[t]]
    requires Inside(s'.pcs[t]) ==> Inside(s.pcs[t])
    requires IsWriter(s'.pcs[t]) ==> IsWriter(s.pcs[t]) || Drained(s'.pcs[t], |s.counters|) == 0
    requires IsWriter(s'.pcs[t]) && IsWriter(s.pcs[t]) ==>
               Drained(s'.pcs[t], |s.counters|) == Drained(s.pcs[t], |s.counters|)
    ensures Excludes(s')
  {}

  /** A reader that finds the mutex free comes before any writer that takes it later. */
  lemma SharedAcquired(s: State, t: Thread, s': State)
    requires Inv(s) && t in s.pcs && s.writer == Nobody && s' == At(s, t, EnterMutex)
    ensures Excludes(s')
  {
    forall u | u in s.pcs ensures !IsWriter(s.pcs[u]) { assert ThreadOk(s, u); }
  }

  /** A counter seen empty has no holder, and can get none while the mutex is taken. */
  lemma CounterDrained(s: State, t: Thread, s': State, k: nat, p: Purpose)
    requires Inv(s) && t in s.pcs && s.pcs[t] == ExclusiveScan(p, k) && k < |s.counters| && s.counters[k] <= 0
    requires s' == At(s, t, ExclusiveScan(p, k + 1))
    ensures Excludes(s')
  {
    assert |s.counted[k]| == 0;
    forall u | u in s.pcs && Inside(s.pcs[u]) ensures Index(s, u) != k {
      assert u in s.counted[Index(s, u)];
    }
    forall u | u in s.pcs && IsWriter(s.pcs[u]) ensures u == t { assert ThreadOk(s, u) && ThreadOk(s, t); }
  }

  lemma SharedKept(s: State, t: Thread, s': State)
    requires Inv(s) && t in s.pcs && SharedStep(s, t, s')
    ensures Inv(s')
  {
    assert ThreadOk(s, t);
    SharedOwn(s, t, s');
    ThreadsKept(s, t, s');
    SharedCounters(s, t, s');
    if s.pcs[t].SharedCheck? && s.writer == Nobody { SharedAcquired(s, t, s'); } else { ExcludesStays(s, t, s'); }
  }

  lemma SharedCounters(s: State, t: Thread, s': State)
    requires CountersOk(s) && t in s.pcs && SharedStep(s, t, s')
    ensures CountersOk(s')
  {
    if s.pcs[t].SharedAdd? { AddCounters(s, t, SharedCheck); }
    else if s.pcs[t].SharedUndo? { SubCounters(s, t, SharedWait); }
    else if s.pcs[t].SharedSub? { SubCounters(s, t, Idle); }
    else { MoveCounters(s, t, s'.pcs[t], s'); }
  }

  lemma CountKept(s: State, t: Thread, f: Epoch, s': State)
    requires Inv(s) && t in s.pcs && CountStep(s, t, f, s')
    ensures Inv(s')
  {
    assert ThreadOk(s, t);
    if s.pcs[t].EnterCount? { EnterOwn(s, t, s'); } else { CountOwn(s, t, f, s'); }
    ThreadsKept(s, t, s');
    MoveCounters(s, t, s'.pcs[t], s');
    ExcludesStays(s, t, s');
  }

  lemma ExclusiveKept(s: State, t: Thread, f: Epoch, s': State)
    requires Inv(s) && t in s.pcs && ExclusiveStep(s, t, f, s')
    ensures Inv(s')
  {
    var pc := s.pcs[t];
    assert ThreadOk(s, t);
    ExclusiveOwn(s, t, f, s');
    ThreadsKept(s, t, s');
    MoveCounters(s, t, s'.pcs[t], s');
    if pc.ExclusiveScan? && pc.next < |s.counters| {
      CounterDrained(s, t, s', pc.next, pc.purpose);
    } else {
      ExcludesStays(s, t, s');
    }
  }

  /** A thread that starts, or turns from one business to the next, holding nothing new. */
  lemma TurnKept(s: State, t: Thread, pc: Pc, s': State)
    requires Inv(s) && t in s.pcs && s' == At(s, t, pc)
    requires (s.pcs[t].Idle? && (pc.SharedAdd? || pc.ExclusiveCas?)) || (s.pcs[t].InOp? && pc.ExitMutex?)
    ensures Inv(s')
  {
    assert ThreadOk(s, t);
    ThreadsKept(s, t, s');
    MoveCounters(s, t, pc, s');
    ExcludesStays(s, t, s');
  }

  lemma SpawnThreads(s: State, t: Thread, s': State)
    requires ThreadsOk(s) && t !in s.pcs && s' == At(s, t, Idle)
    ensures ThreadsOk(s')
  {
    forall u | u in s'.pcs ensures ThreadOk(s', u) {
      if u != t { assert ThreadOk(s, u); }
    }
  }

  lemma SpawnCounters(s: State, t: Thread, s': State)
    requires CountersOk(s) && t !in s.pcs && s' == At(s, t, Idle)
    ensures CountersOk(s')
  {
    forall k | 0 <= k < |s.counters| ensures t !in s.counted[k] {}
  }

  lemma SpawnExcludes(s: State, t: Thread, s': State)
    requires |s.counters| > 0 && Excludes(s) && t !in s.pcs && s' == At(s, t, Idle)
    ensures Excludes(s')
  {}

  lemma SpawnKept(s: State, t: Thread, s': State)
    requires Inv(s) && t !in s.pcs && s' == At(s, t, Idle)
    ensures Inv(s')
  {
    SpawnThreads(s, t, s');
    SpawnCounters(s, t, s');
    SpawnExcludes(s, t, s');
  }

  lemma InvKept(s: State, step: Step, s': State)
    requires Inv(s) && Next(s, step, s')
    ensures Inv(s')
  {
    match step
    case Spawn(t) => SpawnKept(s, t, s');
    case BeginOp(t) => TurnKept(s, t, SharedAdd, s');
    case EndOp(t) => TurnKept(s, t, ExitMutex, s');
    case BeginExclusive(t, p) => TurnKept(s, t, ExclusiveCas(p), s');
    case Advance(t, f) =>
      if SharedStep(s, t, s') { SharedKept(s, t, s'); }
      else if CountStep(s, t, f, s') { CountKept(s, t, f, s'); }
      else { ExclusiveKept(s, t, f, s'); }
  }

  // ---------------------------------------------------------------- runs

  ghost predicate IsRun(states: seq<State>, steps: seq<Step>) {
    && |states| == |steps| + 1
    && Init(states[0])
    && forall i :: 0 <= i < |steps| ==> StepTaken(states, steps, i)
  }

  ghost predicate StepTaken(states: seq<State>, steps: seq<Step>, i: nat)
    requires i < |steps| && i + 1 < |states|
  {
    0 < |states[i].counters| == |states[i].counted| && Next(states[i], steps[i], states[i + 1])
  }

  lemma {:induction false} RunInv(states: seq<State>, steps: seq<Step>, i: nat)
    requires IsRun(states, steps) && i < |states|
    ensures Inv(states[i])
  {
    if i > 0 {
      RunInv(states, steps, i - 1);
      assert StepTaken(states, steps, i - 1);
      InvKept(states[i - 1], steps[i - 1], states[i]);
    }
  }

  /** Mutual exclusion, for any number of threads on any number of counters: no holder of the shared lock
      beside a holder of the exclusive one, and at most one of the latter. */
  lemma LockExcludes(states: seq<State>, steps: seq<Step>, i: nat, t: Thread, u: Thread)
    requires IsRun(states, steps) && i < |states| && t in states[i].pcs && u in states[i].pcs && Alone(states[i].pcs[t])
    ensures !Inside(states[i].pcs[u])
    ensures Alone(states[i].pcs[u]) ==> u == t
  {
    RunInv(states, steps, i);
    var s := states[i];
    assert ThreadOk(s, t) && ThreadOk(s, u);
    assert Index(s, u) < |s.counters|;
  }

  /** The heartbeat's assertion holds whenever it is reached, and no unlock reports an error. */
  lemma AssertionsHold(states: seq<State>, steps: seq<Step>, i: nat, t: Thread)
    requires IsRun(states, steps) && i < |states| && t in states[i].pcs
    ensures var s := states[i];
            && (s.pcs[t].BeatCheck? ==> s.count == 0)
            && (s.pcs[t].SharedSub? ==> |s.counters| > 0 && s.counters[Index(s, t)] > 0)
            && (s.pcs[t].ExclusiveOut? ==> s.writer != Nobody)
  {
    RunInv(states, steps, i);
    var s := states[i];
    assert ThreadOk(s, t);
    if s.pcs[t].BeatCheck? {
      forall u | u in s.active ensures false {
        assert ThreadOk(s, u);
        LockExcludes(states, steps, i, t, u);
      }
      assert s.active == {};
    }
    if s.pcs[t].SharedSub? { CountedCounter(s, t); }
  }

  /** A running operation sees one reported epoch from its beginning on. */
  lemma EpochHeldByOps(states: seq<State>, steps: seq<Step>, i: nat, t: Thread)
    requires IsRun(states, steps) && i < |states| && t in states[i].pcs && states[i].pcs[t].InOp?
    ensures states[i].reported == states[i].pcs[t].epoch
  {
    RunInv(states, steps, i);
    assert ThreadOk(states[i], t);
  }

  // ---------------------------------------------------------------- what the epoch protocol relies on

  /** The process as `EpochReclamation` sees it: which frontier value is on its way to being reported,
      what is reported, and which threads run operations. */
  datatype View = View(pending: set<Epoch>, reported: Epoch, ops: set<Thread>)

  function Seen(pc: Pc): Epoch { if pc.EnterReport? then pc.seen else if pc.BeatReport? then pc.seen else 0 }

  ghost function ViewOf(s: State): View {
    View(set t | t in s.pcs && Reporting(s.pcs[t]) :: Seen(s.pcs[t]), s.reported, set t | t in s.pcs && s.pcs[t].InOp?)
  }

  predicate BeginsOp(v: View, w: View, t: Thread) { v.pending == {} && t !in v.ops && w == v.(ops := v.ops + {t}) }
  predicate EndsOp(v: View, w: View, t: Thread) { t in v.ops && w == v.(ops := v.ops - {t}) }
  predicate ReadsFrontier(v: View, w: View, f: Epoch) { v.pending == {} && v.ops == {} && w == v.(pending := {f}) }
  predicate Publishes(v: View, w: View, f: Epoch) { v.pending == {f} && v.ops == {} && w == View({}, f, {}) }

  /** The moves of a participant that has joined, while the frontier is `frontier`: a report is begun and
      made with no operation running, and no operation begins in between. */
  ghost predicate ParticipantStep(v: View, w: View, frontier: Epoch) {
    || w == v
    || (exists t :: BeginsOp(v, w, t)) || (exists t :: EndsOp(v, w, t))
    || ReadsFrontier(v, w, frontier) || (exists f :: Publishes(v, w, f))
  }

  lemma NobodyElseReports(s: State, t: Thread)
    requires Inv(s) && t in s.pcs && HasMutex(s.pcs[t])
    ensures ViewOf(s).pending == if Reporting(s.pcs[t]) then {Seen(s.pcs[t])} else {}
  {
    forall u | u in s.pcs && Reporting(s.pcs[u]) ensures u == t {
      assert ThreadOk(s, t) && ThreadOk(s, u);
    }
  }

  lemma NoOps(s: State, t: Thread)
    requires Inv(s) && t in s.pcs && (Reporting(s.pcs[t]) || s.pcs[t].EnterRead? || s.pcs[t].BeatRead?)
    ensures ViewOf(s).ops == {}
  {
    forall u | u in s.pcs ensures !s.pcs[u].InOp? { ReportingAlone(s, t, u); }
  }

  /** A change of `t`'s program counter, as the view shows it. */
  lemma ViewMoves(s: State, t: Thread, s': State)
    requires t in s.pcs && t in s'.pcs && s'.pcs == s.pcs[t := s'.pcs[t]]
    ensures ViewOf(s').ops == if s'.pcs[t].InOp? then ViewOf(s).ops + {t} else ViewOf(s).ops - {t}
    ensures !Reporting(s.pcs[t]) && !Reporting(s'.pcs[t]) ==> ViewOf(s').pending == ViewOf(s).pending
  {
    var v, w := ViewOf(s), ViewOf(s');
    if !Reporting(s.pcs[t]) && !Reporting(s'.pcs[t]) {
      forall f ensures f in v.pending <==> f in w.pending {
        if f in v.pending {
          var u :| u in s.pcs && Reporting(s.pcs[u]) && Seen(s.pcs[u]) == f;
          assert s'.pcs[u] == s.pcs[u];
        }
        if f in w.pending {
          var u :| u in s'.pcs && Reporting(s'.pcs[u]) && Seen(s'.pcs[u]) == f;
          assert s'.pcs[u] == s.pcs[u];
        }
      }
    }
  }

  lemma ReportStep(s: State, t: Thread, s': State)
    requires Inv(s) && Inv(s') && t in s.pcs && t in s'.pcs && s'.pcs == s.pcs[t := s'.pcs[t]]
    requires Reporting(s.pcs[t]) && !Reporting(s'.pcs[t]) && HasMutex(s'.pcs[t]) && s'.reported == Seen(s.pcs[t])
    requires !s'.pcs[t].InOp?
    ensures Publishes(ViewOf(s), ViewOf(s'), Seen(s.pcs[t]))
  {
    NobodyElseReports(s, t);
    NobodyElseReports(s', t);
    NoOps(s, t);
    ViewMoves(s, t, s');
  }

  lemma ReadStep(s: State, t: Thread, s': State)
    requires Inv(s) && Inv(s') && t in s.pcs && t in s'.pcs && s'.pcs == s.pcs[t := s'.pcs[t]]
    requires (s.pcs[t].EnterRead? || s.pcs[t].BeatRead?) && Reporting(s'.pcs[t]) && s'.reported == s.reported
    ensures ReadsFrontier(ViewOf(s), ViewOf(s'), Seen(s'.pcs[t]))
  {
    NobodyElseReports(s, t);
    NobodyElseReports(s', t);
    NoOps(s, t);
    ViewMoves(s, t, s');
  }

  /** Everything else a thread does leaves the view alone. */
  lemma QuietStep(s: State, t: Thread, s': State)
    requires t in s.pcs && t in s'.pcs && s'.pcs == s.pcs[t := s'.pcs[t]] && s'.reported == s.reported
    requires !Reporting(s.pcs[t]) && !Reporting(s'.pcs[t]) && !s.pcs[t].InOp? && !s'.pcs[t].InOp?
    ensures ViewOf(s') == ViewOf(s)
  {
    ViewMoves(s, t, s');
  }

  lemma SharedMove(s: State, t: Thread, s': State)
    requires t in s.pcs && 0 < |s.counters| == |s.counted| && SharedStep(s, t, s')
    ensures ViewOf(s') == ViewOf(s)
  {
    QuietStep(s, t, s');
  }

  lemma CountMove(s: State, t: Thread, f: Epoch, s': State)
    requires Inv(s) && Inv(s') && t in s.pcs && CountStep(s, t, f, s')
    ensures ParticipantStep(ViewOf(s), ViewOf(s'), f)
  {
    var pc := s.pcs[t];
    if pc.EnterReport? {
      ReportStep(s, t, s');
    } else if pc.EnterRead? {
      ReadStep(s, t, s');
    } else if pc.EnterDone? {
      NobodyElseReports(s, t);
      ViewMoves(s, t, s');
      assert BeginsOp(ViewOf(s), ViewOf(s'), t);
    } else {
      QuietStep(s, t, s');
    }
  }

  lemma ExclusiveMove(s: State, t: Thread, f: Epoch, s': State)
    requires Inv(s) && Inv(s') && t in s.pcs && ExclusiveStep(s, t, f, s')
    ensures ParticipantStep(ViewOf(s), ViewOf(s'), f)
  {
    var pc := s.pcs[t];
    if pc.BeatReport? {
      ReportStep(s, t, s');
    } else if pc.BeatRead? {
      ReadStep(s, t, s');
    } else {
      QuietStep(s, t, s');
    }
  }

  lemma EndOpMove(s: State, t: Thread, s': State)
    requires t in s.pcs && s.pcs[t].InOp? && s' == At(s, t, ExitMutex)
    ensures EndsOp(ViewOf(s), ViewOf(s'), t)
  {
    ViewMoves(s, t, s');
  }

  /** Every step of the process's threads is such a move or shows nothing to the other processes. */
  lemma StepIsParticipantStep(s: State, step: Step, s': State, frontier: Epoch)
    requires Inv(s) && Next(s, step, s') && (step.Advance? ==> step.frontier == frontier)
    ensures ParticipantStep(ViewOf(s), ViewOf(s'), frontier)
  {
    InvKept(s, step, s');
    match step
    case Spawn(t) => SpawnStep(s, t, s');
    case BeginOp(t) => QuietStep(s, t, s');
    case EndOp(t) => EndOpMove(s, t, s');
    case BeginExclusive(t, p) => QuietStep(s, t, s');
    case Advance(t, f) =>
      if SharedStep(s, t, s') { SharedMove(s, t, s'); }
      else if CountStep(s, t, f, s') { CountMove(s, t, f, s'); }
      else { ExclusiveMove(s, t, f, s'); }
  }

  lemma SpawnStep(s: State, t: Thread, s': State)
    requires t !in s.pcs && s' == At(s, t, Idle)
    ensures ViewOf(s') == ViewOf(s)
  {
    var v, w := ViewOf(s), ViewOf(s');
    forall f ensures f in v.pending <==> f in w.pending {
      if f in v.pending {
        var u :| u in s.pcs && Reporting(s.pcs[u]) && Seen(s.pcs[u]) == f;
        assert s'.pcs[u] == s.pcs[u];
      }
      if f in w.pending {
        var u :| u in s'.pcs && Reporting(s'.pcs[u]) && Seen(s'.pcs[u]) == f;
        assert s'.pcs[u] == s.pcs[u];
      }
    }
  }
}
