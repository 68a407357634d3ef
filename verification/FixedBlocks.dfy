/** The fixed block allocator and the free lists built on it: blocks come from a free stack or from the
    never-allocated end of the shelf, carry a pointer in their second word, and travel between the
    allocator's stack and the free lists.

    Stacks are atomic here; `LockFreeStack` justifies that.  What the stacks do to memory does appear: a
    push may write the link word of the block in hand any number of times, with any value. */
module FixedBlocks {

  type Thread = nat
  type Pointer = nat

  const CACHE_LINE: nat := 64
  const PAYLOAD_OFFSET: nat := 8

  /** What an allocation is for. */
  datatype Purpose = ForClient | ForPut(list: nat, ptr: Pointer)

  datatype Task =
    | Ready
    // FixedBlockAllocator::alloc
    | Popping(purpose: Purpose)
    | ReadNever(purpose: Purpose)
    | BumpNever(purpose: Purpose, seen: nat)
    // the rest of PutPointer
    | PutPayload(list: nat, ptr: Pointer, block: nat)
    | PutPush(list: nat, ptr: Pointer, block: nat)
    // GetPointer
    | GetPop(list: nat)
    | GetRead(list: nat, block: nat)
    // FixedBlockAllocator::free
    | Freeing(block: nat)

  /** Where a block is.  A client's block stays with it, or with whatever data structure it was put in, when
      the thread dies. */
  datatype Place = Client(t: Thread) | Hand(t: Thread) | FreeStack | OnList(list: nat) | Lost

  datatype Put = Put(list: nat, ptr: Pointer)

  /** `never` .. `lists` and `mem` are the shelf.  The rest is history: where every allocated block is, the
      puts completed so far, the put each live block stands for, and the puts already handed out. */
  datatype State = State(
    blockSize: nat, first: nat, size: nat,
    never: nat, free: seq<nat>, lists: seq<seq<nat>>, mem: map<nat, nat>,
    tasks: map<Thread, Task>,
    places: map<nat, Place>, log: seq<Put>, ticket: map<nat, nat>, returned: set<nat>)

  datatype Step =
    | Spawn(t: Thread)
    | Crash(t: Thread)
    | ClientAlloc(t: Thread)
    | ClientWrite(t: Thread, block: nat, addr: nat, value: nat)
    | ClientFree(t: Thread, block: nat)
    | Pass(t: Thread, block: nat, source: Thread)           // a block changes hands between clients
    | PutPointer(t: Thread, list: nat, ptr: Pointer)
    | GetPointer(t: Thread, list: nat)
    | WriteLink(t: Thread, value: nat)
    | Advance(t: Thread)

  /** The block a thread is carrying between two places. */
  function Carried(task: Task): set<nat> {
    match task
    case PutPayload(_, _, b) => {b}
    case PutPush(_, _, b) => {b}
    case GetRead(_, b) => {b}
    case Freeing(b) => {b}
    case _ => {}
  }

  /** The start of the never-allocated part. */
  function Frontier(s: State): nat { if s.never == 0 then s.first else s.never }

  ghost predicate Init(s: State) {
    && CACHE_LINE <= s.blockSize && s.blockSize % CACHE_LINE == 0
    && 0 < s.first <= s.size && s.first % s.blockSize == 0 && s.first % CACHE_LINE == 0
    && s.never == 0 && s.free == [] && (forall i :: 0 <= i < |s.lists| ==> s.lists[i] == [])
    && s.tasks == map[] && s.places == map[] && s.log == [] && s.ticket == map[] && s.returned == {}
  }

  function At(s: State, t: Thread, task: Task): State { s.(tasks := s.tasks[t := task]) }

  function Move(s: State, b: nat, place: Place): State { s.(places := s.places[b := place]) }

  /** A block has been obtained. */
  function Obtained(s: State, t: Thread, purpose: Purpose, b: nat): State {
    match purpose
    case ForClient => Move(At(s, t, Ready), b, Client(t))
    case ForPut(i, ptr) => Move(At(s, t, PutPayload(i, ptr, b)), b, Hand(t))
  }

  ghost predicate Next(s: State, step: Step, s': State) {
    match step
    case Spawn(t) => t !in s.tasks && s' == At(s, t, Ready)
    case Crash(t) => CrashStep(s, t, s')
    case ClientAlloc(t) => t in s.tasks && s.tasks[t] == Ready && s' == At(s, t, Popping(ForClient))
    case ClientWrite(t, b, a, v) =>
      && t in s.tasks && b in s.places && s.places[b] == Client(t) && b <= a < b + s.blockSize
      && s' == s.(mem := s.mem[a := v])
    case ClientFree(t, b) =>
      && t in s.tasks && s.tasks[t] == Ready && b in s.places && s.places[b] == Client(t)
      && s' == Move(At(s, t, Freeing(b)), b, Hand(t))
    case Pass(t, b, u) => t in s.tasks && b in s.places && s.places[b] == Client(u) && s' == Move(s, b, Client(t))
    case PutPointer(t, i, ptr) =>
      t in s.tasks && s.tasks[t] == Ready && i < |s.lists| && s' == At(s, t, Popping(ForPut(i, ptr)))
    case GetPointer(t, i) => t in s.tasks && s.tasks[t] == Ready && i < |s.lists| && s' == At(s, t, GetPop(i))
    case WriteLink(t, v) =>
      && t in s.tasks && (s.tasks[t].PutPush? || s.tasks[t].Freeing?)
      && s' == s.(mem := s.mem[s.tasks[t].block := v])
    case Advance(t) => t in s.tasks && (Allocates(s, t, s') || Puts(s, t, s') || Gets(s, t, s'))
  }

  /** The block that a dying thread carries is leaked. */
  ghost predicate CrashStep(s: State, t: Thread, s': State) {
    && t in s.tasks
    && s' == s.(tasks := s.tasks - {t},
                places := map b | b in s.places :: if s.places[b] == Hand(t) then Lost else s.places[b])
  }

  /** `alloc`: pop the free stack, else bump `never_allocated`, else give up. */
  ghost predicate Allocates(s: State, t: Thread, s': State)
    requires t in s.tasks
  {
    match s.tasks[t]
    case Popping(p) =>
      s' == if s.free == [] then At(s, t, ReadNever(p)) else Obtained(s, t, p, s.free[0]).(free := s.free[1..])
    case ReadNever(p) => s' == At(s, t, BumpNever(p, s.never))
    case BumpNever(p, seen) =>
      var block := if seen == 0 then s.first else seen;
      // exhausted: a client gets nothing, a put drops its pointer
      s' == if block + s.blockSize > s.size then At(s, t, Ready)
            else if s.never != seen then At(s, t, BumpNever(p, s.never))
            else Obtained(s, t, p, block).(never := block + s.blockSize)
    case _ => false
  }

  ghost predicate Puts(s: State, t: Thread, s': State)
    requires t in s.tasks
  {
    match s.tasks[t]
    case PutPayload(i, ptr, b) => s' == At(s, t, PutPush(i, ptr, b)).(mem := s.mem[b + PAYLOAD_OFFSET := ptr])
    case PutPush(i, ptr, b) =>
      && i < |s.lists|
      && s' == Move(At(s, t, Ready), b, OnList(i))
               .(lists := s.lists[i := [b] + s.lists[i]], log := s.log + [Put(i, ptr)],
                 ticket := s.ticket[b := |s.log|])
    case _ => false
  }

  ghost predicate Gets(s: State, t: Thread, s': State)
    requires t in s.tasks
  {
    match s.tasks[t]
    case GetPop(i) =>
      && i < |s.lists|
      && s' == if s.lists[i] == [] then At(s, t, Ready)
               else Move(At(s, t, GetRead(i, s.lists[i][0])), s.lists[i][0], Hand(t))
                    .(lists := s.lists[i := s.lists[i][1..]])
    case GetRead(_, b) =>
      // the pointer handed to the caller is the payload word read here
      && b in s.ticket && b + PAYLOAD_OFFSET in s.mem
      && s' == At(s, t, Freeing(b)).(returned := s.returned + {s.ticket[b]})
    case Freeing(b) => s' == Move(At(s, t, Ready), b, FreeStack).(free := [b] + s.free)
    case _ => false
  }

  // ---------------------------------------------------------------- invariant

  ghost predicate NoDup(list: seq<nat>) { forall i, j :: 0 <= i < j < |list| ==> list[i] != list[j] }

  /** Allocated blocks tile the shelf from `first` to the frontier, aligned to their size. */
  ghost predicate LayoutOk(s: State) {
    && CACHE_LINE <= s.blockSize && s.blockSize % CACHE_LINE == 0
    && 0 < s.first <= Frontier(s) <= s.size && Frontier(s) % s.blockSize == 0 && Frontier(s) % CACHE_LINE == 0
    && (forall b :: b in s.places ==> s.first <= b && b + s.blockSize <= Frontier(s))
    && (forall b :: b in s.places ==> b % s.blockSize == 0 && b % CACHE_LINE == 0)
    && (forall b, c :: b in s.places && c in s.places && b < c ==> b + s.blockSize <= c)
    && (forall x: nat :: s.first <= x < Frontier(s) ==> BlockAt(s, x))
  }

  ghost predicate BlockAt(s: State, x: nat) { exists b :: b in s.places && b <= x < b + s.blockSize }

  ghost predicate In(s: State, b: nat, place: Place) { b in s.places && s.places[b] == place }

  /** The places say where the blocks really are. */
  ghost predicate PlacesOk(s: State) {
    && NoDup(s.free) && (forall i :: 0 <= i < |s.lists| ==> NoDup(s.lists[i]))
    && (forall b: nat :: In(s, b, FreeStack) <==> b in s.free)
    && (forall i: nat, b: nat :: In(s, b, OnList(i)) <==> i < |s.lists| && b in s.lists[i])
    && (forall t: Thread, b: nat :: In(s, b, Hand(t)) <==> t in s.tasks && b in Carried(s.tasks[t]))
    && (forall t :: t in s.tasks && s.tasks[t].GetRead? ==> s.tasks[t].list < |s.lists|)
  }

  /** A block whose payload is some put's pointer, not yet handed out: on a list, or popped and not read. */
  ghost predicate Live(s: State, i: nat, b: nat) {
    In(s, b, OnList(i)) || exists t :: t in s.tasks && s.tasks[t] == GetRead(i, b)
  }

  ghost predicate LiveOk(s: State, i: nat, b: nat) {
    && b in s.ticket && s.ticket[b] < |s.log| && s.ticket[b] !in s.returned
    && b + PAYLOAD_OFFSET in s.mem && s.log[s.ticket[b]] == Put(i, s.mem[b + PAYLOAD_OFFSET])
  }

  ghost predicate PayloadsOk(s: State) {
    && (forall i, b :: Live(s, i, b) ==> LiveOk(s, i, b))
    && (forall i, b, j, c :: Live(s, i, b) && Live(s, j, c) && b != c ==> s.ticket[b] != s.ticket[c])
    && (forall t :: t in s.tasks && s.tasks[t].PutPush? ==> PutReady(s, s.tasks[t].block, s.tasks[t].ptr))
    && (forall k :: k in s.returned ==> k < |s.log|)
  }

  ghost predicate PutReady(s: State, b: nat, ptr: Pointer) {
    b + PAYLOAD_OFFSET in s.mem && s.mem[b + PAYLOAD_OFFSET] == ptr
  }

  ghost predicate Inv(s: State) { LayoutOk(s) && PlacesOk(s) && PayloadsOk(s) }

  // ---------------------------------------------------------------- layout

  lemma SameLayout(s: State, s': State)
    requires LayoutOk(s)
    requires s'.blockSize == s.blockSize && s'.first == s.first && s'.size == s.size && s'.never == s.never
    requires s'.places.Keys == s.places.Keys
    ensures LayoutOk(s')
  {
    forall x: nat | s.first <= x < Frontier(s) ensures BlockAt(s', x) {
      assert BlockAt(s, x);
      var b :| b in s.places && b <= x < b + s.blockSize;
      assert b in s'.places.Keys;
    }
    forall b | b in s'.places ensures b in s.places { assert b in s'.places.Keys; }
  }

  lemma NextMultiple(b: nat, n: nat)
    requires n > 0 && b % n == 0
    ensures (b + n) % n == 0
  {
    var q := b / n;
    assert b + n == n * (q + 1);
    MultipleMod(n, q + 1);
  }

  lemma MultipleMod(n: nat, q: nat)
    requires n > 0
    ensures (n * q) % n == 0
  {
    var r, k := (n * q) % n, (n * q) / n;
    assert n * q == n * k + r;
    assert n * (q - k) == r;
    AtLeastN(n, q - k);
  }

  lemma AtLeastN(n: nat, d: int)
    requires n > 0
    ensures d >= 1 ==> n * d >= n
    ensures d <= -1 ==> n * d + n <= 0
  {}

  /** The part of the shelf up to the new frontier is covered once the block at the old one is added. */
  lemma BumpCovers(s: State, s': State, b: nat, x: nat)
    requires LayoutOk(s) && b == Frontier(s) && s'.places.Keys == s.places.Keys + {b}
    requires s'.blockSize == s.blockSize && s.first <= x < b + s.blockSize
    ensures BlockAt(s', x)
  {
    assert b in s'.places.Keys;
    if x < b {
      assert BlockAt(s, x);
      var c :| c in s.places && c <= x < c + s.blockSize;
      assert c in s'.places.Keys;
    }
  }

  lemma CacheAligned(b: nat, size: nat)
    requires size % CACHE_LINE == 0 && b % CACHE_LINE == 0
    ensures (b + size) % CACHE_LINE == 0
  {
  }

  /** Bumping `never_allocated` adds the one block at the frontier. */
  lemma BumpLayout(s: State, t: Thread, purpose: Purpose, s': State)
    requires LayoutOk(s) && Frontier(s) + s.blockSize <= s.size
    requires s' == Obtained(s, t, purpose, Frontier(s)).(never := Frontier(s) + s.blockSize)
    ensures LayoutOk(s') && Frontier(s) !in s.places
  {
    var b := Frontier(s);
    NextMultiple(b, s.blockSize);
    CacheAligned(b, s.blockSize);
    assert s'.places.Keys == s.places.Keys + {b};
    forall c | c in s'.places ensures c == b || c in s.places { assert c in s'.places.Keys; }
    forall x: nat | s.first <= x < Frontier(s') ensures BlockAt(s', x) { BumpCovers(s, s', b, x); }
  }

  // ---------------------------------------------------------------- places

  /** Thread `t` moves on, carrying what it carried. */
  lemma TaskPlaces(s: State, t: Thread, task: Task, s': State)
    requires PlacesOk(s) && t in s.tasks && Carried(task) == Carried(s.tasks[t])
    requires s'.tasks == s.tasks[t := task] && s'.places == s.places && s'.free == s.free && s'.lists == s.lists
    requires task.GetRead? ==> task.list < |s.lists|
    ensures PlacesOk(s')
  {
    forall b, place ensures In(s', b, place) == In(s, b, place) {}
  }

  lemma SpawnPlaces(s: State, t: Thread, s': State)
    requires PlacesOk(s) && t !in s.tasks && s' == At(s, t, Ready)
    ensures PlacesOk(s')
  {
    forall b, place ensures In(s', b, place) == In(s, b, place) {}
  }

  lemma CrashPlaces(s: State, t: Thread, s': State)
    requires PlacesOk(s) && CrashStep(s, t, s')
    ensures PlacesOk(s') && s'.places.Keys == s.places.Keys
  {
    forall b, place ensures In(s', b, place) <==>
        (In(s, b, place) && place != Hand(t)) || (place == Lost && In(s, b, Hand(t))) {}
  }

  /** Block `b` is now at `place`, nothing else has moved. */
  ghost predicate Moved(s: State, s': State, b: nat, place: Place) { s'.places == s.places[b := place] }

  lemma MovedIn(s: State, s': State, b: nat, place: Place, c: nat, q: Place)
    requires Moved(s, s', b, place)
    ensures In(s', c, q) <==> if c == b then q == place else In(s, c, q)
  {}

  lemma PopPlaces(s: State, t: Thread, purpose: Purpose, s': State)
    requires PlacesOk(s) && t in s.tasks && s.tasks[t] == Popping(purpose) && s.free != []
    requires s' == Obtained(s, t, purpose, s.free[0]).(free := s.free[1..])
    ensures PlacesOk(s') && s'.places.Keys == s.places.Keys
  {
    var b := s.free[0];
    assert In(s, b, FreeStack);
    assert s.free == [b] + s.free[1..];
    forall c, q {:trigger In(s', c, q)} ensures In(s', c, q) <==> if c == b then q == s'.places[b] else In(s, c, q) {
      MovedIn(s, s', b, s'.places[b], c, q);
    }
  }

  lemma NewPlaces(s: State, t: Thread, purpose: Purpose, b: nat, s': State)
    requires PlacesOk(s) && t in s.tasks && s.tasks[t].BumpNever? && b !in s.places
    requires s'.tasks == Obtained(s, t, purpose, b).tasks && s'.places == Obtained(s, t, purpose, b).places
    requires s'.free == s.free && s'.lists == s.lists
    ensures PlacesOk(s')
  {
    forall c, q {:trigger In(s', c, q)} ensures In(s', c, q) <==> if c == b then q == s'.places[b] else In(s, c, q) {
      MovedIn(s, s', b, s'.places[b], c, q);
    }
    assert forall i: nat :: i < |s.lists| && b in s.lists[i] ==> In(s, b, OnList(i));
    assert b in s.free ==> In(s, b, FreeStack);
  }

  lemma PutPlaces(s: State, t: Thread, s': State)
    requires PlacesOk(s) && t in s.tasks && s.tasks[t].PutPush? && Puts(s, t, s')
    ensures PlacesOk(s') && s'.places.Keys == s.places.Keys
  {
    var i, b := s.tasks[t].list, s.tasks[t].block;
    assert In(s, b, Hand(t));
    forall c, q {:trigger In(s', c, q)} ensures In(s', c, q) <==> if c == b then q == OnList(i) else In(s, c, q) {
      MovedIn(s, s', b, OnList(i), c, q);
    }
    forall j: nat | j < |s.lists| ensures b !in s.lists[j] { assert !In(s, b, OnList(j)); }
  }

  lemma GetPlaces(s: State, t: Thread, s': State)
    requires PlacesOk(s) && t in s.tasks && s.tasks[t].GetPop? && Gets(s, t, s') && s.lists[s.tasks[t].list] != []
    ensures PlacesOk(s') && s'.places.Keys == s.places.Keys
  {
    var i := s.tasks[t].list;
    var b := s.lists[i][0];
    assert In(s, b, OnList(i));
    assert s.lists[i] == [b] + s.lists[i][1..];
    forall c, q {:trigger In(s', c, q)} ensures In(s', c, q) <==> if c == b then q == Hand(t) else In(s, c, q) {
      MovedIn(s, s', b, Hand(t), c, q);
    }
  }

  lemma FreePlaces(s: State, t: Thread, s': State)
    requires PlacesOk(s) && t in s.tasks && s.tasks[t].Freeing? && Gets(s, t, s')
    ensures PlacesOk(s') && s'.places.Keys == s.places.Keys
  {
    var b := s.tasks[t].block;
    assert In(s, b, Hand(t));
    forall c, q {:trigger In(s', c, q)} ensures In(s', c, q) <==> if c == b then q == FreeStack else In(s, c, q) {
      MovedIn(s, s', b, FreeStack, c, q);
    }
    assert !In(s, b, FreeStack);
  }

  lemma ClientFreePlaces(s: State, t: Thread, b: nat, s': State)
    requires PlacesOk(s) && Next(s, ClientFree(t, b), s')
    ensures PlacesOk(s') && s'.places.Keys == s.places.Keys
  {
    forall c, q {:trigger In(s', c, q)} ensures In(s', c, q) <==> if c == b then q == Hand(t) else In(s, c, q) {
      MovedIn(s, s', b, Hand(t), c, q);
    }
  }

  lemma PassPlaces(s: State, t: Thread, b: nat, u: Thread, s': State)
    requires PlacesOk(s) && Next(s, Pass(t, b, u), s')
    ensures PlacesOk(s') && s'.places.Keys == s.places.Keys
  {
    forall c, q {:trigger In(s', c, q)} ensures In(s', c, q) <==> if c == b then q == Client(t) else In(s, c, q) {
      MovedIn(s, s', b, Client(t), c, q);
    }
    forall w ensures !In(s, b, Hand(w)) {}
  }

  // ---------------------------------------------------------------- payloads

  /** Where a live block is. */
  lemma LivePlace(s: State, i: nat, b: nat)
    requires PlacesOk(s) && Live(s, i, b)
    ensures b in s.places
    ensures s.places[b] == OnList(i)
            || (s.places[b].Hand? && s.places[b].t in s.tasks && s.tasks[s.places[b].t] == GetRead(i, b))
  {
    if !In(s, b, OnList(i)) {
      var t :| t in s.tasks && s.tasks[t] == GetRead(i, b);
      assert b in Carried(s.tasks[t]);
      assert In(s, b, Hand(t));
    }
  }

  /** The payload of block `c` is what it was. */
  predicate SamePayload(s: State, s': State, c: nat) {
    var payload := c + PAYLOAD_OFFSET;
    payload in s.mem ==> payload in s'.mem && s'.mem[payload] == s.mem[payload]
  }

  /** A step that makes no block live, and writes no payload that matters. */
  lemma PayloadsKept(s: State, s': State)
    requires PayloadsOk(s)
    requires forall i, b :: Live(s', i, b) ==> Live(s, i, b) && SamePayload(s, s', b)
    requires forall t :: t in s'.tasks && s'.tasks[t].PutPush? ==>
               (t in s.tasks && s.tasks[t] == s'.tasks[t] && SamePayload(s, s', s'.tasks[t].block))
               || PutReady(s', s'.tasks[t].block, s'.tasks[t].ptr)
    requires s'.ticket == s.ticket && s'.log == s.log && s'.returned == s.returned
    ensures PayloadsOk(s')
  {
    forall i, b | Live(s', i, b) ensures LiveOk(s', i, b) { assert LiveOk(s, i, b); }
    forall t | t in s'.tasks && s'.tasks[t].PutPush? ensures PutReady(s', s'.tasks[t].block, s'.tasks[t].ptr) {
      if t in s.tasks && s.tasks[t] == s'.tasks[t] { assert PutReady(s, s.tasks[t].block, s.tasks[t].ptr) ; }
    }
  }

  /** Only `t` moves on, perhaps with a block, and that makes no block live. */
  lemma QuietPayloads(s: State, t: Thread, s': State)
    requires PayloadsOk(s) && s'.mem == s.mem && s'.ticket == s.ticket && s'.log == s.log && s'.returned == s.returned
    requires forall u :: u in s'.tasks && u != t ==> u in s.tasks && s'.tasks[u] == s.tasks[u]
    requires t in s'.tasks ==> !s'.tasks[t].PutPush? && !s'.tasks[t].GetRead?
    requires forall b, i: nat :: In(s', b, OnList(i)) ==> In(s, b, OnList(i))
    ensures PayloadsOk(s')
  {
    PayloadsKept(s, s');
  }

  lemma PassPayloads(s: State, t: Thread, b: nat, u: Thread, s': State)
    requires PayloadsOk(s) && Next(s, Pass(t, b, u), s')
    ensures PayloadsOk(s')
  {
    forall i, c | Live(s', i, c) ensures Live(s, i, c) { MovedIn(s, s', b, Client(t), c, OnList(i)); }
    PayloadsKept(s, s');
  }

  /** A block in the hands of `t`, or owned by it, is not live for anybody else. */
  lemma NotLive(s: State, t: Thread, b: nat, i: nat, c: nat)
    requires LayoutOk(s) && PlacesOk(s) && b in s.places && (s.places[b] == Client(t) || s.places[b] == Hand(t))
    requires t in s.tasks && !s.tasks[t].GetRead? && Live(s, i, c)
    ensures c in s.places && c != b && (c + s.blockSize <= b || b + s.blockSize <= c)
  {
    LivePlace(s, i, c);
  }

  lemma OtherPut(s: State, t: Thread, b: nat, u: Thread)
    requires LayoutOk(s) && PlacesOk(s) && b in s.places && (s.places[b] == Client(t) || s.places[b] == Hand(t))
    requires u in s.tasks && s.tasks[u].PutPush? && (u != t || s.tasks[u].block != b)
    ensures var c := s.tasks[u].block; c in s.places && c != b && (c + s.blockSize <= b || b + s.blockSize <= c)
  {
    var c := s.tasks[u].block;
    assert c in Carried(s.tasks[u]);
    assert In(s, c, Hand(u));
  }

  /** A client writes into its own block. */
  lemma ClientWritePayloads(s: State, t: Thread, b: nat, a: nat, v: nat, s': State)
    requires Inv(s) && Next(s, ClientWrite(t, b, a, v), s')
    ensures PayloadsOk(s')
  {
    forall i, c | Live(s', i, c) ensures Live(s, i, c) && SamePayload(s, s', c) {
      assert Live(s, i, c);
      LivePlace(s, i, c);
      assert c != b;
    }
    forall u | u in s'.tasks && s'.tasks[u].PutPush? ensures SamePayload(s, s', s'.tasks[u].block) {
      var c := s.tasks[u].block;
      assert c in Carried(s.tasks[u]);
      assert In(s, c, Hand(u));
    }
    PayloadsKept(s, s');
  }

  /** A push writes the link word of its own block: not anybody's payload. */
  lemma WriteLinkPayloads(s: State, t: Thread, v: nat, s': State)
    requires Inv(s) && Next(s, WriteLink(t, v), s')
    ensures PayloadsOk(s')
  {
    var b := s.tasks[t].block;
    assert b in Carried(s.tasks[t]);
    assert In(s, b, Hand(t));
    forall i, c | Live(s', i, c) ensures Live(s, i, c) && SamePayload(s, s', c) {
      assert Live(s, i, c);
      NotLive(s, t, b, i, c);
    }
    forall u | u in s'.tasks && s'.tasks[u].PutPush? ensures SamePayload(s, s', s'.tasks[u].block) {
      if s.tasks[u].block != b { OtherPut(s, t, b, u); }
    }
    PayloadsKept(s, s');
  }

  /** `PutPointer` writes the payload word of the block it has just obtained. */
  lemma PutPayloadPayloads(s: State, t: Thread, s': State)
    requires Inv(s) && t in s.tasks && s.tasks[t].PutPayload? && Puts(s, t, s')
    ensures PayloadsOk(s')
  {
    var b := s.tasks[t].block;
    assert b in Carried(s.tasks[t]);
    assert In(s, b, Hand(t));
    forall i, c | Live(s', i, c) ensures Live(s, i, c) && SamePayload(s, s', c) {
      assert In(s', c, OnList(i)) == In(s, c, OnList(i));
      assert Live(s, i, c);
      NotLive(s, t, b, i, c);
    }
    forall u | u in s'.tasks && s'.tasks[u].PutPush?
      ensures (u in s.tasks && s.tasks[u] == s'.tasks[u] && SamePayload(s, s', s'.tasks[u].block))
              || PutReady(s', s'.tasks[u].block, s'.tasks[u].ptr)
    {
      if u != t { OtherPut(s, t, b, u); }
    }
    PayloadsKept(s, s');
  }

  /** `PutPointer` completes: its block becomes live with a ticket of its own. */
  lemma PutPushPayloads(s: State, t: Thread, s': State)
    requires Inv(s) && t in s.tasks && s.tasks[t].PutPush? && Puts(s, t, s')
    ensures PayloadsOk(s')
  {
    var PutPush(i, ptr, b) := s.tasks[t];
    assert PutReady(s, b, ptr);
    assert b in Carried(s.tasks[t]);
    assert In(s, b, Hand(t));
    forall j, c | Live(s', j, c) ensures (c == b && j == i) || (c != b && Live(s, j, c)) {
      PutMakesLive(s, t, s', j, c);
    }
    forall j, c | Live(s', j, c) ensures LiveOk(s', j, c) {
      if c != b { assert LiveOk(s, j, c); }
    }
    forall j, c, k, d | Live(s', j, c) && Live(s', k, d) && c != d ensures s'.ticket[c] != s'.ticket[d] {
      assert c != b ==> LiveOk(s, j, c);
      assert d != b ==> LiveOk(s, k, d);
    }
  }

  lemma PutMakesLive(s: State, t: Thread, s': State, j: nat, c: nat)
    requires Inv(s) && t in s.tasks && s.tasks[t].PutPush? && Puts(s, t, s') && Live(s', j, c)
    ensures var i, b := s.tasks[t].list, s.tasks[t].block; (c == b && j == i) || (c != b && Live(s, j, c))
  {
    var i, b := s.tasks[t].list, s.tasks[t].block;
    MovedIn(s, s', b, OnList(i), c, OnList(j));
    assert b in Carried(s.tasks[t]);
    assert In(s, b, Hand(t));
    if !In(s', c, OnList(j)) {
      var u :| u in s'.tasks && s'.tasks[u] == GetRead(j, c);
      assert s.tasks[u] == GetRead(j, c) && c in Carried(s.tasks[u]);
      assert In(s, c, Hand(u));
    }
  }

  /** `GetPointer` pops a block: it stays live until it is read. */
  lemma GetPopPayloads(s: State, t: Thread, s': State)
    requires Inv(s) && t in s.tasks && s.tasks[t].GetPop? && Gets(s, t, s') && s.lists[s.tasks[t].list] != []
    ensures PayloadsOk(s')
  {
    var i := s.tasks[t].list;
    var b := s.lists[i][0];
    assert In(s, b, OnList(i));
    assert Live(s, i, b);
    forall j, c | Live(s', j, c) ensures Live(s, j, c) {
      MovedIn(s, s', b, Hand(t), c, OnList(j));
      if !In(s', c, OnList(j)) {
        var u :| u in s'.tasks && s'.tasks[u] == GetRead(j, c);
      }
    }
    PayloadsKept(s, s');
  }

  /** `GetPointer` reads the payload: the block is live no more, and its ticket is spent. */
  lemma GetReadPayloads(s: State, t: Thread, s': State)
    requires Inv(s) && t in s.tasks && s.tasks[t].GetRead? && Gets(s, t, s')
    ensures PayloadsOk(s')
  {
    var GetRead(i, b) := s.tasks[t];
    assert Live(s, i, b);
    assert b in Carried(s.tasks[t]);
    assert In(s, b, Hand(t));
    forall j, c | Live(s', j, c) ensures Live(s, j, c) && c != b {
      GetEndsLife(s, t, s', j, c);
    }
    forall j, c | Live(s', j, c) ensures LiveOk(s', j, c) { assert LiveOk(s, j, c) && LiveOk(s, i, b); }
    assert LiveOk(s, i, b);
  }

  lemma GetEndsLife(s: State, t: Thread, s': State, j: nat, c: nat)
    requires Inv(s) && t in s.tasks && s.tasks[t].GetRead? && Gets(s, t, s') && Live(s', j, c)
    ensures Live(s, j, c) && c != s.tasks[t].block
  {
    var b := s.tasks[t].block;
    assert b in Carried(s.tasks[t]);
    assert In(s, b, Hand(t));
    if In(s', c, OnList(j)) {
      assert In(s, c, OnList(j));
    } else {
      var u :| u in s'.tasks && s'.tasks[u] == GetRead(j, c);
      assert s.tasks[u] == GetRead(j, c) && c in Carried(s.tasks[u]);
      assert In(s, c, Hand(u));
    }
  }

  // ---------------------------------------------------------------- every step

  lemma PopKept(s: State, t: Thread, purpose: Purpose, s': State)
    requires Inv(s) && t in s.tasks && s.tasks[t] == Popping(purpose) && s.free != []
    requires s' == Obtained(s, t, purpose, s.free[0]).(free := s.free[1..])
    ensures Inv(s')
  {
    PopPlaces(s, t, purpose, s');
    SameLayout(s, s');
    QuietPayloads(s, t, s');
  }

  lemma BumpKept(s: State, t: Thread, purpose: Purpose, s': State)
    requires Inv(s) && t in s.tasks && s.tasks[t].BumpNever? && Frontier(s) + s.blockSize <= s.size
    requires s' == Obtained(s, t, purpose, Frontier(s)).(never := Frontier(s) + s.blockSize)
    ensures Inv(s')
  {
    BumpLayout(s, t, purpose, s');
    NewPlaces(s, t, purpose, Frontier(s), s');
    QuietPayloads(s, t, s');
  }

  lemma StillKept(s: State, t: Thread, task: Task, s': State)
    requires Inv(s) && t in s.tasks && Carried(s.tasks[t]) == Carried(task) == {} && s' == At(s, t, task)
    ensures Inv(s')
  {
    TaskPlaces(s, t, task, s');
    SameLayout(s, s');
    QuietPayloads(s, t, s');
  }

  lemma AllocatesKept(s: State, t: Thread, s': State)
    requires Inv(s) && t in s.tasks && Allocates(s, t, s')
    ensures Inv(s')
  {
    match s.tasks[t]
    case Popping(p) => if s.free == [] { StillKept(s, t, ReadNever(p), s'); } else { PopKept(s, t, p, s'); }
    case ReadNever(p) => StillKept(s, t, BumpNever(p, s.never), s');
    case BumpNever(p, seen) =>
      var block := if seen == 0 then s.first else seen;
      if block + s.blockSize > s.size { StillKept(s, t, Ready, s'); }
      else if s.never != seen { StillKept(s, t, BumpNever(p, s.never), s'); }
      else { BumpKept(s, t, p, s'); }
  }

  lemma PutsKept(s: State, t: Thread, s': State)
    requires Inv(s) && t in s.tasks && Puts(s, t, s')
    ensures Inv(s')
  {
    if s.tasks[t].PutPush? {
      PutPlaces(s, t, s');
      PutPushPayloads(s, t, s');
    } else {
      TaskPlaces(s, t, s'.tasks[t], s');
      PutPayloadPayloads(s, t, s');
    }
    SameLayout(s, s');
  }

  lemma GetsKept(s: State, t: Thread, s': State)
    requires Inv(s) && t in s.tasks && Gets(s, t, s')
    ensures Inv(s')
  {
    var task := s.tasks[t];
    if task.GetPop? && s.lists[task.list] != [] {
      GetPlaces(s, t, s');
      GetPopPayloads(s, t, s');
    } else if task.GetRead? {
      TaskPlaces(s, t, s'.tasks[t], s');
      GetReadPayloads(s, t, s');
    } else if task.Freeing? {
      FreePlaces(s, t, s');
      FreeingMoves(s, t, s');
      QuietPayloads(s, t, s');
    } else {
      TaskPlaces(s, t, s'.tasks[t], s');
      QuietPayloads(s, t, s');
    }
    SameLayout(s, s');
  }

  lemma FreeingMoves(s: State, t: Thread, s': State)
    requires t in s.tasks && s.tasks[t].Freeing? && Gets(s, t, s')
    ensures forall b, i: nat :: In(s', b, OnList(i)) ==> In(s, b, OnList(i))
  {}

  lemma CrashKept(s: State, t: Thread, s': State)
    requires Inv(s) && CrashStep(s, t, s')
    ensures Inv(s')
  {
    CrashPlaces(s, t, s');
    SameLayout(s, s');
    QuietPayloads(s, t, s');
  }

  lemma ClientKept(s: State, step: Step, s': State)
    requires Inv(s) && Next(s, step, s')
             && (step.ClientAlloc? || step.ClientFree? || step.PutPointer? || step.GetPointer?)
    ensures Inv(s')
  {
    var t := step.t;
    if step.ClientFree? {
      ClientFreePlaces(s, t, step.block, s');
    } else {
      TaskPlaces(s, t, s'.tasks[t], s');
    }
    SameLayout(s, s');
    QuietPayloads(s, t, s');
  }

  lemma PassKept(s: State, t: Thread, b: nat, u: Thread, s': State)
    requires Inv(s) && Next(s, Pass(t, b, u), s')
    ensures Inv(s')
  {
    PassPlaces(s, t, b, u, s');
    SameLayout(s, s');
    PassPayloads(s, t, b, u, s');
  }

  lemma WriteKept(s: State, step: Step, s': State)
    requires Inv(s) && Next(s, step, s') && (step.ClientWrite? || step.WriteLink?)
    ensures Inv(s')
  {
    TaskPlaces(s, step.t, s.tasks[step.t], s');
    SameLayout(s, s');
    if step.ClientWrite? { ClientWritePayloads(s, step.t, step.block, step.addr, step.value, s'); }
    else { WriteLinkPayloads(s, step.t, step.value, s'); }
  }

  lemma SpawnKept(s: State, t: Thread, s': State)
    requires Inv(s) && t !in s.tasks && s' == At(s, t, Ready)
    ensures Inv(s')
  {
    SpawnPlaces(s, t, s');
    SameLayout(s, s');
    QuietPayloads(s, t, s');
  }

  lemma InvKept(s: State, step: Step, s': State)
    requires Inv(s) && Next(s, step, s')
    ensures Inv(s')
  {
    match step
    case Spawn(t) => SpawnKept(s, t, s');
    case Crash(t) => CrashKept(s, t, s');
    case ClientWrite(_, _, _, _) => WriteKept(s, step, s');
    case WriteLink(_, _) => WriteKept(s, step, s');
    case Pass(t, b, u) => PassKept(s, t, b, u, s');
    case Advance(t) =>
      if Allocates(s, t, s') { AllocatesKept(s, t, s'); }
      else if Puts(s, t, s') { PutsKept(s, t, s'); }
      else { GetsKept(s, t, s'); }
    case _ => ClientKept(s, step, s');
  }

  // ---------------------------------------------------------------- runs

  ghost predicate IsRun(states: seq<State>, steps: seq<Step>) {
    && |states| == |steps| + 1
    && Init(states[0])
    && forall t :: 0 <= t < |steps| ==> StepTaken(states, steps, t)
  }

  ghost predicate StepTaken(states: seq<State>, steps: seq<Step>, t: nat)
    requires t < |steps| && t + 1 < |states|
  {
    Next(states[t], steps[t], states[t + 1])
  }

  lemma {:induction false} RunInv(states: seq<State>, steps: seq<Step>, t: nat)
    requires IsRun(states, steps) && t < |states|
    ensures Inv(states[t])
  {
    if t > 0 {
      RunInv(states, steps, t - 1);
      assert StepTaken(states, steps, t - 1);
      InvKept(states[t - 1], steps[t - 1], states[t]);
    }
  }

  /** In every state of every run the blocks handed out so far tile the shelf from its first block to
      `never_allocated`, and each is with one client, in one thread's hands, on the allocator's stack or on
      one free list, once; the others were lost in a crash. */
  lemma EveryBlockInOnePlace(states: seq<State>, steps: seq<Step>, t: nat, b: nat)
    requires IsRun(states, steps) && t < |states| && b in states[t].places
    ensures var s := states[t]; LayoutOk(s) && NoDup(s.free) && (forall i :: 0 <= i < |s.lists| ==> NoDup(s.lists[i]))
    ensures var s := states[t];
            match s.places[b]
            case FreeStack => b in s.free && (forall i :: 0 <= i < |s.lists| ==> b !in s.lists[i]) && NotCarried(s, b)
            case OnList(i) => i < |s.lists| && b in s.lists[i] && b !in s.free && NotCarried(s, b)
                              && (forall j :: 0 <= j < |s.lists| && j != i ==> b !in s.lists[j])
            case Hand(u) => u in s.tasks && b in Carried(s.tasks[u]) && Unlisted(s, b)
                            && (forall w :: w in s.tasks && w != u ==> b !in Carried(s.tasks[w]))
            case _ => Unlisted(s, b) && NotCarried(s, b)
  {
    RunInv(states, steps, t);
    PlaceIsReal(states[t], b);
  }

  predicate NotCarried(s: State, b: nat) { forall u :: u in s.tasks ==> b !in Carried(s.tasks[u]) }

  predicate Unlisted(s: State, b: nat) { b !in s.free && forall i :: 0 <= i < |s.lists| ==> b !in s.lists[i] }

  lemma PlaceIsReal(s: State, b: nat)
    requires PlacesOk(s) && b in s.places
    ensures b in s.free <==> s.places[b] == FreeStack
    ensures forall i: nat :: i < |s.lists| ==> (b in s.lists[i] <==> s.places[b] == OnList(i))
    ensures forall i: nat :: s.places[b] == OnList(i) ==> i < |s.lists| && b in s.lists[i]
    ensures forall u :: u in s.tasks ==> (b in Carried(s.tasks[u]) <==> s.places[b] == Hand(u))
    ensures forall u :: s.places[b] == Hand(u) ==> u in s.tasks && b in Carried(s.tasks[u])
  {
    assert b in s.free <==> In(s, b, FreeStack);
    assert forall i: nat :: In(s, b, OnList(i)) <==> s.places[b] == OnList(i);
    assert forall u :: In(s, b, Hand(u)) <==> s.places[b] == Hand(u);
  }

  ghost predicate Grows(s: State, s': State) { s.never <= s'.never && s.log <= s'.log && s.returned <= s'.returned }

  lemma AllocatesGrows(s: State, t: Thread, s': State)
    requires t in s.tasks && Allocates(s, t, s')
    ensures Grows(s, s')
  {}

  lemma ListsGrow(s: State, t: Thread, s': State)
    requires t in s.tasks && (Puts(s, t, s') || Gets(s, t, s'))
    ensures Grows(s, s')
  {}

  /** `never_allocated` never decreases, and the puts on record never change. */
  lemma OnlyGrows(s: State, step: Step, s': State)
    requires Next(s, step, s')
    ensures Grows(s, s')
  {
    if step.Advance? {
      if Allocates(s, step.t, s') { AllocatesGrows(s, step.t, s'); } else { ListsGrow(s, step.t, s'); }
    }
  }

  /** What `GetPointer(i)` hands out is the pointer of a completed `PutPointer` on list `i` that has not
      been handed out before. */
  lemma GetReturnsAPut(states: seq<State>, steps: seq<Step>, t: nat, u: Thread)
    requires IsRun(states, steps) && t < |steps| && steps[t] == Advance(u)
    requires u in states[t].tasks && states[t].tasks[u].GetRead?
    ensures var s, GetRead(i, b) := states[t], states[t].tasks[u];
            && b in s.ticket && b + PAYLOAD_OFFSET in s.mem && s.ticket[b] < |s.log|
            && s.log[s.ticket[b]] == Put(i, s.mem[b + PAYLOAD_OFFSET])
            && s.ticket[b] !in s.returned && states[t + 1].returned == s.returned + {s.ticket[b]}
  {
    RunInv(states, steps, t);
    assert StepTaken(states, steps, t);
    assert Live(states[t], states[t].tasks[u].list, states[t].tasks[u].block);
  }

  lemma {:induction false} RunGrows(states: seq<State>, steps: seq<Step>, i: nat, j: nat)
    requires IsRun(states, steps) && i <= j < |states|
    ensures Grows(states[i], states[j])
    decreases j
  {
    if i < j {
      RunGrows(states, steps, i, j - 1);
      assert StepTaken(states, steps, j - 1);
      OnlyGrows(states[j - 1], steps[j - 1], states[j]);
    }
  }

  predicate GetsAt(states: seq<State>, steps: seq<Step>, t: nat, u: Thread)
    requires |states| == |steps| + 1
  {
    t < |steps| && steps[t] == Advance(u) && u in states[t].tasks && states[t].tasks[u].GetRead?
  }

  /** No put is handed out twice in a run. */
  lemma EachPutReturnedOnce(states: seq<State>, steps: seq<Step>, t: nat, u: Thread, t': nat, u': Thread)
    requires IsRun(states, steps) && t < t' && GetsAt(states, steps, t, u) && GetsAt(states, steps, t', u')
    ensures var b, b' := states[t].tasks[u].block, states[t'].tasks[u'].block;
            b in states[t].ticket && b' in states[t'].ticket && states[t].ticket[b] != states[t'].ticket[b']
  {
    GetReturnsAPut(states, steps, t, u);
    GetReturnsAPut(states, steps, t', u');
    RunGrows(states, steps, t + 1, t');
  }
}
