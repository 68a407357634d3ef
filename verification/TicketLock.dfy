/** The ticket spin lock: one 64-bit word, the ticket being served in its low half and the next ticket to
    hand out in its high half, both wrapping at 2^32.  Any number of threads lock, try-lock and unlock it;
    `OneHolderIff` says how many it can bear.

    `served` and `queue` are history: how many tickets have ever been served, and the threads that hold a
    ticket now, first come first. */
module TicketLock {

  const W: nat := 0x1_0000_0000
  const WORD: nat := 0x1_0000_0000_0000_0000

  type Thread = nat

  datatype Pc =
    | Idle
    | Waiting(ticket: nat)     // spinning until the low half equals the ticket
    | Trying(seen: nat)         // trylock, the word it saw free, about to compare and store
    | Holding

  datatype State = State(word: nat, pcs: map<Thread, Pc>, served: nat, queue: seq<Thread>)

  datatype Step = Lock(t: Thread) | Spin(t: Thread) | TryLoad(t: Thread) | TryCas(t: Thread) | Unlock(t: Thread)

  function Head(word: nat): nat { word % W }
  function Tail(word: nat): nat { word / W }

  ghost predicate Init(s: State) {
    s.word == 0 && s.served == 0 && s.queue == [] && forall t :: t in s.pcs ==> s.pcs[t] == Idle
  }

  function At(s: State, t: Thread, pc: Pc): State { s.(pcs := s.pcs[t := pc]) }

  ghost predicate Next(s: State, step: Step, s': State) {
    && step.t in s.pcs
    && var t := step.t;
    match step
    case Lock(_) =>
      // one 64-bit add bumps the tail and returns the old word
      && s.pcs[t] == Idle
      && s' == At(s, t, if Head(s.word) == Tail(s.word) then Holding else Waiting(Tail(s.word)))
               .(word := (s.word + W) % WORD, queue := s.queue + [t])
    case Spin(_) =>
      s.pcs[t].Waiting? && s' == if Head(s.word) == s.pcs[t].ticket then At(s, t, Holding) else s
    case TryLoad(_) =>
      s.pcs[t] == Idle && s' == if Head(s.word) != Tail(s.word) then s else At(s, t, Trying(s.word))
    case TryCas(_) =>
      && s.pcs[t].Trying?
      && var seen := s.pcs[t].seen;
      s' == if s.word != seen then At(s, t, Idle)
            else At(s, t, Holding).(word := (Tail(seen) + 1) % W * W + Head(seen), queue := s.queue + [t])
    case Unlock(_) =>
      // one 32-bit add on the low half: no carry into the high half
      && s.pcs[t] == Holding
      && s' == At(s, t, Idle).(word := Tail(s.word) * W + (Head(s.word) + 1) % W,
                               served := s.served + 1, queue := if s.queue == [] then [] else s.queue[1..])
  }

  // ---------------------------------------------------------------- the word

  /** The word when `h` tickets have been served and `t` handed out. */
  function Word(h: nat, t: nat): nat { t % W * W + h % W }

  lemma WordParts(h: nat, t: nat)
    ensures Head(Word(h, t)) == h % W && Tail(Word(h, t)) == t % W
    ensures (Word(h, t) + W) % WORD == Word(h, t + 1)
    ensures (t % W + 1) % W == (t + 1) % W && (h % W + 1) % W == (h + 1) % W
  {}

  lemma SameTicket(h: nat, i: nat)
    requires i < W
    ensures (h + i) % W == h % W <==> i == 0
  {}

  // ---------------------------------------------------------------- invariant

  ghost predicate NoDup(queue: seq<Thread>) { forall i, j :: 0 <= i < j < |queue| ==> queue[i] != queue[j] }

  ghost predicate ThreadOk(s: State, t: Thread)
    requires t in s.pcs
  {
    && (t in s.queue <==> s.pcs[t].Waiting? || s.pcs[t].Holding?)
    && (s.pcs[t].Holding? ==> s.queue != [] && s.queue[0] == t)
    && (s.pcs[t].Trying? ==> Head(s.pcs[t].seen) == Tail(s.pcs[t].seen))
  }

  ghost predicate TicketOk(s: State, i: nat)
    requires i < |s.queue|
  {
    var t := s.queue[i];
    t in s.pcs && (s.pcs[t].Waiting? ==> s.pcs[t].ticket == (s.served + i) % W)
  }

  ghost predicate Inv(s: State) {
    && |s.pcs| <= W
    && s.word == Word(s.served, s.served + |s.queue|)
    && NoDup(s.queue)
    && (forall i :: 0 <= i < |s.queue| ==> TicketOk(s, i))
    && (forall t :: t in s.pcs ==> ThreadOk(s, t))
  }

  lemma {:induction false} QueueFits(queue: seq<Thread>, threads: set<Thread>)
    requires NoDup(queue) && forall t :: t in queue ==> t in threads
    ensures |queue| <= |threads|
  {
    if queue != [] {
      var n := |queue| - 1;
      QueueFits(queue[..n], threads - {queue[n]});
    }
  }

  lemma Queued(s: State)
    requires Inv(s)
    ensures |s.queue| <= W && forall t :: t in s.queue ==> t in s.pcs.Keys
  {
    forall t | t in s.queue ensures t in s.pcs.Keys {
      var i :| 0 <= i < |s.queue| && s.queue[i] == t;
      assert TicketOk(s, i);
    }
    QueueFits(s.queue, s.pcs.Keys);
  }

  /** While a thread is left that does not queue, fewer than 2^32 do, so the two halves are equal only when
      nobody does. */
  lemma FreeMeansEmpty(s: State, t: Thread)
    requires Inv(s) && t in s.pcs && (s.pcs[t].Idle? || s.pcs[t].Trying?)
    ensures |s.queue| < W
    ensures Head(s.word) == Tail(s.word) <==> s.queue == []
  {
    assert ThreadOk(s, t);
    Queued(s);
    QueueFits(s.queue, s.pcs.Keys - {t});
    assert |s.pcs.Keys - {t}| == |s.pcs.Keys| - 1;
    assert |s.pcs.Keys| == |s.pcs|;
    WordParts(s.served, s.served + |s.queue|);
    SameTicket(s.served, |s.queue|);
  }

  lemma JoinKept(s: State, t: Thread, pc: Pc, s': State)
    requires Inv(s) && t in s.pcs && (s.pcs[t].Idle? || s.pcs[t].Trying?)
    requires if s.queue == [] then pc == Holding else pc == Waiting((s.served + |s.queue|) % W)
    requires s' == At(s, t, pc).(word := Word(s.served, s.served + |s.queue| + 1), queue := s.queue + [t])
    ensures Inv(s')
  {
    assert ThreadOk(s, t);
    assert s'.pcs.Keys == s.pcs.Keys;
    forall i | 0 <= i < |s'.queue| ensures TicketOk(s', i) {
      if i < |s.queue| { assert TicketOk(s, i); }
    }
    forall u | u in s'.pcs ensures ThreadOk(s', u) { assert ThreadOk(s, u); }
  }

  lemma LockKept(s: State, t: Thread, s': State)
    requires Inv(s) && Next(s, Lock(t), s')
    ensures Inv(s') && s'.queue == s.queue + [t]
  {
    FreeMeansEmpty(s, t);
    WordParts(s.served, s.served + |s.queue|);
    JoinKept(s, t, s'.pcs[t], s');
  }

  /** A compare-and-store that succeeds finds nobody queued. */
  lemma SeenFree(s: State, t: Thread)
    requires Inv(s) && t in s.pcs && s.pcs[t].Trying? && s.word == s.pcs[t].seen
    ensures s.queue == [] && (Tail(s.word) + 1) % W * W + Head(s.word) == Word(s.served, s.served + 1)
  {
    assert ThreadOk(s, t);
    FreeMeansEmpty(s, t);
    WordParts(s.served, s.served);
  }

  lemma TryCasKept(s: State, t: Thread, s': State)
    requires Inv(s) && Next(s, TryCas(t), s')
    ensures Inv(s')
    ensures s'.pcs[t] == Holding ==> s.queue == [] && s'.queue == [t]
  {
    if s.word == s.pcs[t].seen {
      SeenFree(s, t);
      JoinKept(s, t, Holding, s');
    } else {
      StandStillKept(s, t, Idle, s');
    }
  }

  /** Thread `t` changes nothing but its own program counter, outside the queue. */
  lemma StandStillKept(s: State, t: Thread, pc: Pc, s': State)
    requires Inv(s) && t in s.pcs && (s.pcs[t].Idle? || s.pcs[t].Trying?) && s' == At(s, t, pc)
    requires pc == Idle || (pc.Trying? && Head(pc.seen) == Tail(pc.seen))
    ensures Inv(s')
  {
    assert ThreadOk(s, t);
    assert s'.pcs.Keys == s.pcs.Keys;
    forall i | 0 <= i < |s.queue| ensures TicketOk(s', i) { assert TicketOk(s, i); }
    forall u | u in s'.pcs ensures ThreadOk(s', u) { assert ThreadOk(s, u); }
  }

  lemma SpinKept(s: State, t: Thread, s': State)
    requires Inv(s) && Next(s, Spin(t), s')
    ensures Inv(s') && (s'.pcs[t] == Holding <==> s.queue != [] && s.queue[0] == t)
  {
    assert ThreadOk(s, t);
    Queued(s);
    WordParts(s.served, s.served + |s.queue|);
    var i :| 0 <= i < |s.queue| && s.queue[i] == t;
    assert TicketOk(s, i);
    SameTicket(s.served, i);
    assert s'.pcs.Keys == s.pcs.Keys;
    forall j | 0 <= j < |s.queue| ensures TicketOk(s', j) { assert TicketOk(s, j); }
    forall u | u in s'.pcs ensures ThreadOk(s', u) { assert ThreadOk(s, u); }
  }

  lemma UnlockKept(s: State, t: Thread, s': State)
    requires Inv(s) && Next(s, Unlock(t), s')
    ensures Inv(s') && s.queue != [] && s.queue[0] == t && s'.queue == s.queue[1..]
  {
    assert ThreadOk(s, t);
    Queued(s);
    WordParts(s.served, s.served + |s.queue|);
    assert s'.pcs.Keys == s.pcs.Keys;
    forall i | 0 <= i < |s'.queue| ensures TicketOk(s', i) { assert TicketOk(s, i + 1); }
    Served(s.queue);
    forall u | u in s'.pcs ensures ThreadOk(s', u) { assert ThreadOk(s, u); }
  }

  /** The front of the queue has left it, and nobody else. */
  lemma Served(queue: seq<Thread>)
    requires NoDup(queue) && queue != []
    ensures NoDup(queue[1..]) && forall u :: u in queue[1..] <==> u in queue && u != queue[0]
  {
    assert queue == [queue[0]] + queue[1..];
  }

  lemma InvKept(s: State, step: Step, s': State)
    requires Inv(s) && Next(s, step, s')
    ensures Inv(s')
  {
    match step
    case Lock(t) => LockKept(s, t, s');
    case Spin(t) => SpinKept(s, t, s');
    case TryLoad(t) => if s' != s { StandStillKept(s, t, Trying(s.word), s'); }
    case TryCas(t) => TryCasKept(s, t, s');
    case Unlock(t) => UnlockKept(s, t, s');
  }

  // ---------------------------------------------------------------- runs

  ghost predicate IsRun(states: seq<State>, steps: seq<Step>) {
    && |states| == |steps| + 1
    && Init(states[0])
    && forall i :: 0 <= i < |steps| ==> StepTaken(states, steps, i)
  }

  ghost predicate StepTaken(states: seq<State>, steps: seq<Step>, i: nat)
    requires i < |steps| && i + 1 < |states|
  {
    Next(states[i], steps[i], states[i + 1])
  }

  lemma {:induction false} RunInv(states: seq<State>, steps: seq<Step>, i: nat)
    requires IsRun(states, steps) && i < |states| && |states[0].pcs| <= W
    ensures Inv(states[i])
  {
    if i > 0 {
      RunInv(states, steps, i - 1);
      assert StepTaken(states, steps, i - 1);
      InvKept(states[i - 1], steps[i - 1], states[i]);
    }
  }

  /** Mutual exclusion in every run of at most 2^32 threads, across any number of wrap-arounds. */
  lemma OneHolder(states: seq<State>, steps: seq<Step>, i: nat, t: Thread, u: Thread)
    requires IsRun(states, steps) && i < |states| && |states[0].pcs| <= W
    requires t in states[i].pcs && u in states[i].pcs
    requires states[i].pcs[t] == Holding && states[i].pcs[u] == Holding
    ensures t == u
  {
    RunInv(states, steps, i);
    assert ThreadOk(states[i], t) && ThreadOk(states[i], u);
  }

  /** How one step changes the queue. */
  ghost predicate Serves(s: State, step: Step, s': State) {
    var t := step.t;
    && t in s.pcs && t in s'.pcs
    && (s'.queue == s.queue || s'.queue == s.queue + [t]
       || (s.queue != [] && s'.queue == s.queue[1..] && s.queue[0] == t))
    && (s.pcs[t] != Holding && s'.pcs[t] == Holding ==> s'.queue != [] && s'.queue[0] == t)
    && (step.TryCas? && s'.pcs[t] == Holding ==> s.queue == [])
  }

  lemma StepServes(s: State, step: Step, s': State)
    requires Inv(s) && Inv(s') && Next(s, step, s')
    ensures Serves(s, step, s')
  {
    var t := step.t;
    assert t in s'.pcs;
    assert ThreadOk(s', t);
    if step.TryCas? { TryCasKept(s, t, s'); }
    if step.Unlock? { UnlockKept(s, t, s'); }
  }

  /** Tickets are served first come, first served: threads join at the back, the one served is the front,
      and a try-lock gets in only when nobody is queued. */
  lemma FirstComeFirstServed(states: seq<State>, steps: seq<Step>, i: nat)
    requires IsRun(states, steps) && i < |steps| && |states[0].pcs| <= W
    ensures Serves(states[i], steps[i], states[i + 1])
  {
    RunInv(states, steps, i);
    RunInv(states, steps, i + 1);
    assert StepTaken(states, steps, i);
    StepServes(states[i], steps[i], states[i + 1]);
  }

  lemma FrontCanEnter(s: State)
    requires Inv(s) && s.queue != []
    ensures var t := s.queue[0];
            t in s.pcs && (s.pcs[t] == Holding || (s.pcs[t].Waiting? && Head(s.word) == s.pcs[t].ticket))
  {
    var t := s.queue[0];
    assert TicketOk(s, 0);
    assert ThreadOk(s, t);
    WordHead(s.served, s.served + |s.queue|);
  }

  lemma WordHead(h: nat, t: nat)
    ensures Head(Word(h, t)) == h % W
  {
    WordParts(h, t);
  }

  /** No ticket is lost: whoever is at the front holds the lock or gets it on the next look. */
  lemma FrontGetsIn(states: seq<State>, steps: seq<Step>, i: nat)
    requires IsRun(states, steps) && i < |states| && states[i].queue != [] && |states[0].pcs| <= W
    ensures var s := states[i]; var t := s.queue[0];
            && t in s.pcs && (s.pcs[t] == Holding || (s.pcs[t].Waiting? && Head(s.word) == s.pcs[t].ticket))
  {
    RunInv(states, steps, i);
    FrontCanEnter(states[i]);
  }

  /** A try-lock looks further exactly when nobody is queued, and running alone it then has the lock. */
  lemma TryAlone(states: seq<State>, steps: seq<Step>, i: nat, t: Thread) returns (s1: State, s2: State)
    requires IsRun(states, steps) && i < |states| && |states[0].pcs| <= W
    requires t in states[i].pcs && states[i].pcs[t] == Idle
    ensures Next(states[i], TryLoad(t), s1)
    ensures if states[i].queue != [] then s1 == states[i]
            else
              && Next(s1, TryCas(t), s2) && t in s2.pcs && s2.pcs[t] == Holding && s2.queue == [t]
              && s2.word != states[i].word && s2.served == states[i].served
  {
    var s := states[i];
    RunInv(states, steps, i);
    FreeMeansEmpty(s, t);
    s1, s2 := s, s;
    if s.queue == [] {
      s1 := At(s, t, Trying(s.word));
      s2 := At(s1, t, Holding).(word := (Tail(s.word) + 1) % W * W + Head(s.word), queue := [t]);
      TailMoves(s.word);
    }
  }

  lemma TailMoves(word: nat)
    requires word < WORD
    ensures (Tail(word) + 1) % W * W + Head(word) != word
  {
    assert word == Tail(word) * W + Head(word);
  }

  /** Whoever asks for a free lock has it, and gives it back as free as it was. */
  lemma LockAlone(states: seq<State>, steps: seq<Step>, i: nat, t: Thread) returns (s1: State, s2: State)
    requires IsRun(states, steps) && i < |states| && |states[0].pcs| <= W
    requires t in states[i].pcs && states[i].pcs[t] == Idle && states[i].queue == []
    ensures Next(states[i], Lock(t), s1) && t in s1.pcs && s1.pcs[t] == Holding && s1.queue == [t]
    ensures Next(s1, Unlock(t), s2) && s2.pcs == states[i].pcs && s2.queue == []
    ensures Head(s2.word) == Tail(s2.word)
  {
    var s := states[i];
    RunInv(states, steps, i);
    FreeMeansEmpty(s, t);
    s1 := At(s, t, Holding).(word := (s.word + W) % WORD, queue := s.queue + [t]);
    s2 := At(s1, t, Idle).(word := Tail(s1.word) * W + (Head(s1.word) + 1) % W, served := s.served + 1, queue := []);
    TakenAndReturned(s.served);
    assert s2.pcs == s.pcs;
  }

  /** A ticket handed out and served. */
  lemma TakenAndReturned(h: nat)
    ensures var word := (Word(h, h) + W) % WORD; var word' := Tail(word) * W + (Head(word) + 1) % W;
            Head(word') == Tail(word')
  {
    WordParts(h, h);
    WordParts(h, h + 1);
    WordParts(h + 1, h + 1);
  }

  // ---------------------------------------------------------------- how many threads it can bear

  ghost predicate EndsIn(states: seq<State>, steps: seq<Step>, s: State) {
    IsRun(states, steps) && states[|steps|] == s
  }

  ghost predicate Reachable(s: State) { exists states, steps :: EndsIn(states, steps, s) }

  lemma ReachStep(s: State, step: Step, s': State)
    requires Reachable(s) && Next(s, step, s')
    ensures Reachable(s')
  {
    var states, steps :| EndsIn(states, steps, s);
    var states', steps' := states + [s'], steps + [step];
    forall i | 0 <= i < |steps'| ensures StepTaken(states', steps', i) {
      if i < |steps| { assert StepTaken(states, steps, i); }
    }
    assert EndsIn(states', steps', s');
  }

  /** Threads neither come nor go. */
  lemma {:induction false} SameThreads(states: seq<State>, steps: seq<Step>, i: nat)
    requires IsRun(states, steps) && i < |states|
    ensures states[i].pcs.Keys == states[0].pcs.Keys
  {
    if i > 0 {
      SameThreads(states, steps, i - 1);
      assert StepTaken(states, steps, i - 1);
    }
  }

  function Threads(n: nat): (threads: set<Thread>)
    ensures forall t: Thread :: t in threads <==> t < n
  {
    if n == 0 then {} else Threads(n - 1) + {n - 1}
  }

  lemma {:induction false} ThreadCount(n: nat)
    ensures |Threads(n)| == n
  {
    if n > 0 { ThreadCount(n - 1); }
  }

  /** The first `k` of `n` threads have asked for the lock: thread 0 has it. */
  ghost predicate Crowded(s: State, k: nat, n: nat) {
    && Reachable(s) && s.pcs.Keys == Threads(n) && s.word == Word(0, k)
    && (forall t :: k <= t < n ==> s.pcs[t] == Idle)
    && (0 < k <= n ==> s.pcs[0] == Holding)
  }

  lemma CrowdStarts(n: nat) returns (s: State)
    ensures Crowded(s, 0, n)
  {
    s := State(0, map t | t in Threads(n) :: Idle, 0, []);
    assert EndsIn([s], [], s);
  }

  lemma CrowdGrows(s: State, k: nat, n: nat) returns (s': State)
    requires Crowded(s, k, n) && k < n && k < W
    ensures Crowded(s', k + 1, n)
  {
    WordParts(0, k);
    s' := At(s, k, if k == 0 then Holding else Waiting(k)).(word := Word(0, k + 1), queue := s.queue + [k]);
    ReachStep(s, Lock(k), s');
    assert s'.pcs.Keys == s.pcs.Keys;
  }

  lemma {:induction false} Crowd(k: nat, n: nat) returns (s: State)
    requires k <= n && k <= W
    ensures Crowded(s, k, n)
  {
    if k == 0 {
      s := CrowdStarts(n);
    } else {
      s := Crowd(k - 1, n);
      s := CrowdGrows(s, k - 1, n);
    }
  }

  lemma FullWord()
    ensures Head(Word(0, W)) == Tail(Word(0, W))
  {
    WordParts(0, W);
  }

  /** A thread that finds the word looking free walks in, whoever is there. */
  lemma WalkIn(s: State, k: nat) returns (s': State)
    requires Crowded(s, k, k + 1) && k > 0 && Head(s.word) == Tail(s.word)
    ensures Reachable(s') && |s'.pcs| == k + 1
    ensures 0 in s'.pcs && k in s'.pcs && s'.pcs[0] == Holding && s'.pcs[k] == Holding
  {
    s' := At(s, k, Holding).(word := (s.word + W) % WORD, queue := s.queue + [k]);
    ReachStep(s, Lock(k), s');
    ThreadCount(k + 1);
    assert s'.pcs.Keys == Threads(k + 1);
  }

  /** With 2^32 tickets out the word looks free again. */
  lemma TooManyThreads(k: nat) returns (s: State)
    requires k == W
    ensures Reachable(s) && |s.pcs| == k + 1
    ensures 0 in s.pcs && k in s.pcs && s.pcs[0] == Holding && s.pcs[k] == Holding
  {
    var s0 := Crowd(k, k + 1);
    FullWord();
    s := WalkIn(s0, k);
  }

  ghost predicate Exclusive(s: State) {
    forall t, u :: t in s.pcs && u in s.pcs && s.pcs[t] == Holding && s.pcs[u] == Holding ==> t == u
  }

  /** The lock excludes in every run of at most `n` threads exactly when `n` is at most 2^32. */
  lemma OneHolderIff(n: nat)
    ensures n <= W <==> forall s: State :: Reachable(s) && |s.pcs| <= n ==> Exclusive(s)
  {
    if n <= W {
      forall s: State | Reachable(s) && |s.pcs| <= n ensures Exclusive(s) {
        var states: seq<State>, steps: seq<Step> :| EndsIn(states, steps, s);
        SameThreads(states, steps, |steps|);
        assert |s.pcs| == |s.pcs.Keys|;
        var first := states[0];
        assert |first.pcs| == |first.pcs.Keys|;
        RunInv(states, steps, |steps|);
        forall t, u | t in s.pcs && u in s.pcs && s.pcs[t] == Holding && s.pcs[u] == Holding ensures t == u {
          OneHolder(states, steps, |steps|, t, u);
        }
      }
    } else {
      var s := TooManyThreads(W);
      assert !Exclusive(s);
    }
  }
}
