/** The calls of `FixedBlocks` from begin to end: what a get returns was passed to an earlier put on the same
    list, every put on record is one call of `PutPointer`, and a call left alone does what it is for. */
module FreeListCalls {
  import opened FixedBlocks

  // ---------------------------------------------------------------- calls begun

  /** The thread is inside `PutPointer` for that list and pointer. */
  predicate InPut(task: Task, put: Put) {
    match task
    case Popping(p) => p == ForPut(put.list, put.ptr)
    case ReadNever(p) => p == ForPut(put.list, put.ptr)
    case BumpNever(p, _) => p == ForPut(put.list, put.ptr)
    case PutPayload(i, ptr, _) => put == Put(i, ptr)
    case PutPush(i, ptr, _) => put == Put(i, ptr)
    case _ => false
  }

  /** It is inside `GetPointer` for that list and has not yet read the pointer. */
  predicate InGet(task: Task, i: nat) {
    match task
    case GetPop(j) => j == i
    case GetRead(j, _) => j == i
    case _ => false
  }

  predicate PutsAt(states: seq<State>, t: Thread, put: Put, u: nat)
    requires u < |states|
  {
    t in states[u].tasks && InPut(states[u].tasks[t], put)
  }

  predicate GetsFrom(states: seq<State>, t: Thread, i: nat, u: nat)
    requires u < |states|
  {
    t in states[u].tasks && InGet(states[u].tasks[t], i)
  }

  /** Step `b` begins the put that the thread is inside of in state `j`. */
  ghost predicate PutBegun(states: seq<State>, steps: seq<Step>, t: Thread, put: Put, b: nat, j: nat) {
    && b < j <= |steps| < |states| && steps[b] == PutPointer(t, put.list, put.ptr)
    && PutsAt(states, t, put, j) && forall u :: b < u < j ==> PutsAt(states, t, put, u)
  }

  ghost predicate GetBegun(states: seq<State>, steps: seq<Step>, t: Thread, i: nat, b: nat, j: nat) {
    && b < j <= |steps| < |states| && steps[b] == GetPointer(t, i)
    && GetsFrom(states, t, i, j) && forall u :: b < u < j ==> GetsFrom(states, t, i, u)
  }

  /** The purpose of the allocation, where the thread is in one or has its block. */
  function For(task: Task): Purpose {
    match task
    case Popping(p) => p
    case ReadNever(p) => p
    case BumpNever(p, _) => p
    case PutPayload(i, ptr, _) => ForPut(i, ptr)
    case PutPush(i, ptr, _) => ForPut(i, ptr)
    case _ => ForClient
  }

  /** An allocation goes on with its purpose, or ends. */
  predicate AllocGoesOn(s: State, t: Thread, s': State)
    requires t in s.tasks
  {
    && t in s'.tasks && s'.tasks == s.tasks[t := s'.tasks[t]] && s'.log == s.log
    && var task := s'.tasks[t];
    && (task != Ready ==> For(task) == For(s.tasks[t]))
    && (task == Ready || task.ReadNever? || task.BumpNever? || task.PutPayload?)
  }

  lemma BumpGoesOn(s: State, t: Thread, s': State)
    requires t in s.tasks && s.tasks[t].BumpNever? && Allocates(s, t, s')
    ensures AllocGoesOn(s, t, s')
  {}

  lemma AllocatesGoesOn(s: State, t: Thread, s': State)
    requires t in s.tasks && Allocates(s, t, s')
    ensures AllocGoesOn(s, t, s')
  {
    if s.tasks[t].BumpNever? { BumpGoesOn(s, t, s'); }
  }

  /** Only thread `t` moves on. */
  ghost predicate OnlyTask(s: State, t: Thread, s': State) {
    && (forall u :: u != t ==> (u in s'.tasks <==> u in s.tasks))
    && (forall u :: u != t && u in s.tasks ==> s'.tasks[u] == s.tasks[u])
  }

  lemma StepIsOwn(s: State, step: Step, s': State)
    requires Next(s, step, s')
    ensures OnlyTask(s, step.t, s')
  {
    if step.Advance? {
      if Allocates(s, step.t, s') { AllocatesGoesOn(s, step.t, s'); } else { ListStepIsOwn(s, step.t, s'); }
    }
  }

  lemma ListStepIsOwn(s: State, t: Thread, s': State)
    requires t in s.tasks && (Puts(s, t, s') || Gets(s, t, s'))
    ensures OnlyTask(s, t, s')
  {
  }

  /** The thread that takes the step. */
  lemma OwnTask(s: State, step: Step, s': State)
    requires Next(s, step, s') && !step.Advance? && step.t in s'.tasks
    ensures match step
            case Spawn(t) => s'.tasks[t] == Ready
            case ClientAlloc(t) => s'.tasks[t] == Popping(ForClient)
            case ClientFree(t, b) => s'.tasks[t] == Freeing(b)
            case PutPointer(t, i, ptr) => s'.tasks[t] == Popping(ForPut(i, ptr))
            case GetPointer(t, i) => s'.tasks[t] == GetPop(i)
            case _ => step.t in s.tasks && s'.tasks[step.t] == s.tasks[step.t]
  {
  }

  lemma OwnAdvances(s: State, t: Thread, s': State, put: Put, i: nat)
    requires Next(s, Advance(t), s') && t in s'.tasks
    ensures InPut(s'.tasks[t], put) ==> InPut(s.tasks[t], put)
    ensures InGet(s'.tasks[t], i) ==> InGet(s.tasks[t], i)
  {
    if Allocates(s, t, s') { AllocatesGoesOn(s, t, s'); } else { ListAdvances(s, t, s', put, i); }
  }

  lemma ListAdvances(s: State, t: Thread, s': State, put: Put, i: nat)
    requires t in s.tasks && (Puts(s, t, s') || Gets(s, t, s')) && t in s'.tasks
    ensures InPut(s'.tasks[t], put) ==> InPut(s.tasks[t], put)
    ensures InGet(s'.tasks[t], i) ==> InGet(s.tasks[t], i)
  {
  }

  lemma TaskBefore(s: State, step: Step, s': State, t: Thread, put: Put)
    requires Next(s, step, s') && t in s'.tasks && InPut(s'.tasks[t], put)
    ensures step == PutPointer(t, put.list, put.ptr) || (t in s.tasks && InPut(s.tasks[t], put))
  {
    if t != step.t { StepIsOwn(s, step, s'); }
    else if step.Advance? { OwnAdvances(s, t, s', put, 0); }
    else { OwnTask(s, step, s'); }
  }

  lemma GetBefore(s: State, step: Step, s': State, t: Thread, i: nat)
    requires Next(s, step, s') && t in s'.tasks && InGet(s'.tasks[t], i)
    ensures step == GetPointer(t, i) || (t in s.tasks && InGet(s.tasks[t], i))
  {
    if t != step.t { StepIsOwn(s, step, s'); }
    else if step.Advance? { OwnAdvances(s, t, s', Put(0, 0), i); }
    else { OwnTask(s, step, s'); }
  }

  lemma {:induction false} PutBegins(states: seq<State>, steps: seq<Step>, t: Thread, put: Put, j: nat) returns (b: nat)
    requires IsRun(states, steps) && j <= |steps| && PutsAt(states, t, put, j)
    ensures PutBegun(states, steps, t, put, b, j)
    decreases j
  {
    assert StepTaken(states, steps, j - 1);
    TaskBefore(states[j - 1], steps[j - 1], states[j], t, put);
    if steps[j - 1] == PutPointer(t, put.list, put.ptr) {
      b := j - 1;
    } else {
      b := PutBegins(states, steps, t, put, j - 1);
    }
  }

  lemma {:induction false} GetBegins(states: seq<State>, steps: seq<Step>, t: Thread, i: nat, j: nat) returns (b: nat)
    requires IsRun(states, steps) && j <= |steps| && GetsFrom(states, t, i, j)
    ensures GetBegun(states, steps, t, i, b, j)
    decreases j
  {
    assert StepTaken(states, steps, j - 1);
    GetBefore(states[j - 1], steps[j - 1], states[j], t, i);
    if steps[j - 1] == GetPointer(t, i) {
      b := j - 1;
    } else {
      b := GetBegins(states, steps, t, i, j - 1);
    }
  }

  // ---------------------------------------------------------------- the log

  /** The call of `PutPointer` that step `b` begins pushes its block at step `c` and is entry `k` on record. */
  ghost predicate PutCall(states: seq<State>, steps: seq<Step>, put: Put, k: nat, b: nat, c: nat) {
    && c < |steps| < |states| && steps[c].Advance?
    && PutBegun(states, steps, steps[c].t, put, b, c) && states[c].tasks[steps[c].t].PutPush?
    && |states[c].log| == k && states[c + 1].log == states[c].log + [put]
  }

  lemma LogStep(s: State, step: Step, s': State)
    requires Next(s, step, s') && s'.log != s.log
    ensures step.Advance? && step.t in s.tasks && s.tasks[step.t].PutPush?
    ensures var PutPush(i, ptr, _) := s.tasks[step.t]; s'.log == s.log + [Put(i, ptr)]
  {
    if step.Advance? && Allocates(s, step.t, s') { AllocatesGoesOn(s, step.t, s'); }
  }

  /** Every put on record is one call of `PutPointer` with that list and that pointer. */
  lemma {:induction false} EntryIsAPut(states: seq<State>, steps: seq<Step>, j: nat, k: nat) returns (b: nat, c: nat)
    requires IsRun(states, steps) && j <= |steps| && k < |states[j].log|
    ensures PutCall(states, steps, states[j].log[k], k, b, c) && c < j
    decreases j
  {
    var s, s' := states[j - 1], states[j];
    assert StepTaken(states, steps, j - 1);
    if k < |s.log| {
      b, c := EntryIsAPut(states, steps, j - 1, k);
      OnlyGrows(s, steps[j - 1], s');
    } else {
      LogStep(s, steps[j - 1], s');
      c := j - 1;
      b := PutBegins(states, steps, steps[c].t, s'.log[k], c);
    }
  }

  /** And different entries are different calls. */
  lemma EntriesApart(
      states: seq<State>, steps: seq<Step>, put: Put, k: nat, b: nat, c: nat, put': Put, k': nat, b': nat, c': nat)
    requires IsRun(states, steps) && k < k'
    requires PutCall(states, steps, put, k, b, c) && PutCall(states, steps, put', k', b', c')
    ensures b != b' && c < c'
  {
    if c' <= c { RunGrows(states, steps, c', c); }
    PushReturns(states, steps, c);
    assert !PutsAt(states, steps[c].t, put', c + 1);
  }

  lemma PushReturns(states: seq<State>, steps: seq<Step>, c: nat)
    requires IsRun(states, steps) && c < |steps| && steps[c].Advance?
    requires steps[c].t in states[c].tasks && states[c].tasks[steps[c].t].PutPush?
    ensures steps[c].t in states[c + 1].tasks && states[c + 1].tasks[steps[c].t] == Ready
  {
    assert StepTaken(states, steps, c);
  }

  /** What a call of `GetPointer` returns is the pointer that an earlier call of `PutPointer` for the same list
      was given. */
  lemma GetReturnsPut(states: seq<State>, steps: seq<Step>, j: nat, u: Thread) returns (a: nat, k: nat, b: nat, c: nat)
    requires IsRun(states, steps) && GetsAt(states, steps, j, u)
    ensures var s, GetRead(i, block) := states[j], states[j].tasks[u];
            && GetBegun(states, steps, u, i, a, j)
            && block + PAYLOAD_OFFSET in s.mem && block in s.ticket && s.ticket[block] == k
            && PutCall(states, steps, Put(i, s.mem[block + PAYLOAD_OFFSET]), k, b, c) && c < j
  {
    var s := states[j];
    var GetRead(i, block) := s.tasks[u];
    GetReturnsAPut(states, steps, j, u);
    a := GetBegins(states, steps, u, i, j);
    k := s.ticket[block];
    b, c := EntryIsAPut(states, steps, j, k);
  }

  // ---------------------------------------------------------------- an allocation that gives up

  predicate Bumping(task: Task, p: Purpose) {
    match task
    case ReadNever(q) => q == p
    case BumpNever(q, _) => q == p
    case _ => false
  }

  predicate BumpsAt(states: seq<State>, t: Thread, p: Purpose, u: nat)
    requires u < |states|
  {
    t in states[u].tasks && Bumping(states[u].tasks[t], p)
  }

  /** The thread found the free stack empty at step `u` and has been after the never-allocated part since. */
  ghost predicate FoundEmpty(states: seq<State>, steps: seq<Step>, t: Thread, p: Purpose, u: nat, j: nat) {
    && u < j <= |steps| < |states| && steps[u] == Advance(t) && states[u].free == []
    && t in states[u].tasks && states[u].tasks[t] == Popping(p)
    && BumpsAt(states, t, p, j) && (forall w :: u < w < j ==> BumpsAt(states, t, p, w))
    && (states[j].tasks[t].BumpNever? ==> states[j].tasks[t].seen <= states[j].never)
  }

  lemma OwnBump(s: State, step: Step, s': State, p: Purpose)
    requires Next(s, step, s') && step.t in s'.tasks && Bumping(s'.tasks[step.t], p)
    ensures step.t in s.tasks && s'.never == s.never
    ensures step.Advance? || s'.tasks[step.t] == s.tasks[step.t]
    ensures step.Advance? && s'.tasks[step.t].ReadNever? ==> s.tasks[step.t] == Popping(p) && s.free == []
    ensures step.Advance? && s'.tasks[step.t].BumpNever? ==>
              Bumping(s.tasks[step.t], p) && s'.tasks[step.t].seen == s.never
  {
    if step.Advance? {
      if Allocates(s, step.t, s') { AllocBump(s, step.t, s', p); } else { ListBump(s, step.t, s', p); }
    } else {
      OwnTask(s, step, s');
    }
  }

  lemma ListBump(s: State, t: Thread, s': State, p: Purpose)
    requires t in s.tasks && (Puts(s, t, s') || Gets(s, t, s')) && t in s'.tasks
    ensures !Bumping(s'.tasks[t], p)
  {
  }

  lemma AllocBump(s: State, t: Thread, s': State, p: Purpose)
    requires t in s.tasks && Allocates(s, t, s') && t in s'.tasks && Bumping(s'.tasks[t], p)
    ensures s'.never == s.never
    ensures s'.tasks[t].ReadNever? ==> s.tasks[t] == Popping(p) && s.free == []
    ensures s'.tasks[t].BumpNever? ==> Bumping(s.tasks[t], p) && s'.tasks[t].seen == s.never
  {
    AllocatesGoesOn(s, t, s');
  }

  lemma {:induction false} BumpHolds(states: seq<State>, steps: seq<Step>, t: Thread, p: Purpose, j: nat)
    returns (u: nat)
    requires IsRun(states, steps) && j <= |steps| && BumpsAt(states, t, p, j)
    ensures FoundEmpty(states, steps, t, p, u, j)
    decreases j
  {
    var s, step, s' := states[j - 1], steps[j - 1], states[j];
    assert StepTaken(states, steps, j - 1);
    if step.t != t {
      StepIsOwn(s, step, s');
      OnlyGrows(s, step, s');
      u := BumpHolds(states, steps, t, p, j - 1);
    } else {
      OwnBump(s, step, s', p);
      if step.Advance? && s'.tasks[t].ReadNever? { u := j - 1; } else { u := BumpHolds(states, steps, t, p, j - 1); }
    }
  }

  /** An allocation, for a client or for a put, that ends without a block has found the free stack empty during
      the call, and the rest of the shelf has no room for a block. */
  lemma GivesUpOnlyWhenFull(states: seq<State>, steps: seq<Step>, t: Thread, p: Purpose, j: nat) returns (u: nat)
    requires IsRun(states, steps) && j < |steps| && steps[j] == Advance(t) && BumpsAt(states, t, p, j)
    requires t in states[j + 1].tasks && states[j + 1].tasks[t] == Ready && states[j + 1].places == states[j].places
    ensures FoundEmpty(states, steps, t, p, u, j)
    ensures Frontier(states[j]) + states[j].blockSize > states[j].size
  {
    u := BumpHolds(states, steps, t, p, j);
    RunInv(states, steps, j);
    assert StepTaken(states, steps, j);
    NoBlock(states[j], t, p, states[j + 1]);
  }

  lemma NoBlock(s: State, t: Thread, p: Purpose, s': State)
    requires LayoutOk(s) && t in s.tasks && Bumping(s.tasks[t], p) && Next(s, Advance(t), s')
    requires s.tasks[t].BumpNever? ==> s.tasks[t].seen <= s.never
    requires t in s'.tasks && s'.tasks[t] == Ready && s'.places == s.places
    ensures Frontier(s) + s.blockSize > s.size
  {
    if s.tasks[t].BumpNever? && s.never == s.tasks[t].seen && Frontier(s) + s.blockSize <= s.size {
      BumpLayout(s, t, p, s');
    }
  }

  // ---------------------------------------------------------------- calls left alone

  ghost predicate IsPath(states: seq<State>, steps: seq<Step>) {
    |states| == |steps| + 1 && forall j :: 0 <= j < |steps| ==> StepTaken(states, steps, j)
  }

  /** Call `first` of thread `t`, left alone, takes the shelf from `s` to `s'`. */
  ghost predicate Alone(s: State, first: Step, s': State) {
    exists states, steps :: AloneBy(states, steps, s, first, s')
  }

  ghost predicate AloneBy(states: seq<State>, steps: seq<Step>, s: State, first: Step, s': State) {
    && IsPath(states, steps) && states[0] == s && states[|steps|] == s' && steps != [] && steps[0] == first
    && forall j :: 0 < j < |steps| ==> steps[j] == Advance(first.t)
  }

  lemma Begin(s: State, first: Step, s': State)
    requires Next(s, first, s')
    ensures Alone(s, first, s')
  {
    assert StepTaken([s, s'], [first], 0);
    assert AloneBy([s, s'], [first], s, first, s');
  }

  lemma Then(s0: State, first: Step, s: State, s': State)
    requires Alone(s0, first, s) && Next(s, Advance(first.t), s')
    ensures Alone(s0, first, s')
  {
    var states, steps :| AloneBy(states, steps, s0, first, s);
    var states', steps' := states + [s'], steps + [Advance(first.t)];
    forall j | 0 <= j < |steps'| ensures StepTaken(states', steps', j) {
      if j < |steps| { assert StepTaken(states, steps, j); }
    }
    assert AloneBy(states', steps', s0, first, s');
  }

  /** There is a block to be had. */
  predicate HasRoom(s: State) { s.free != [] || Frontier(s) + s.blockSize <= s.size }

  /** The block an allocation that nobody disturbs gets. */
  function NextBlock(s: State): nat { if s.free != [] then s.free[0] else Frontier(s) }

  /** What is left of the shelf without that block. */
  function Without(s: State): State {
    if s.free != [] then s.(free := s.free[1..]) else s.(never := Frontier(s) + s.blockSize)
  }

  /** An allocation: the newest block of the free stack, else the next of the never-allocated part, else
      nothing. */
  lemma AllocAlone(s0: State, first: Step, s: State, purpose: Purpose) returns (s': State)
    requires Alone(s0, first, s) && first.t in s.tasks && s.tasks[first.t] == Popping(purpose)
    ensures Alone(s0, first, s')
    ensures s' == if HasRoom(s) then Obtained(Without(s), first.t, purpose, NextBlock(s)) else At(s, first.t, Ready)
  {
    var t := first.t;
    s' := if HasRoom(s) then Obtained(Without(s), t, purpose, NextBlock(s)) else At(s, t, Ready);
    if s.free == [] {
      var s1 := At(s, t, ReadNever(purpose));
      Then(s0, first, s, s1);
      var s2 := At(s1, t, BumpNever(purpose, s.never));
      Then(s0, first, s1, s2);
      assert At(s2, t, Ready) == At(s, t, Ready);
      assert Allocates(s2, t, s');
      Then(s0, first, s2, s');
    } else {
      assert Allocates(s, t, s');
      Then(s0, first, s, s');
    }
  }

  /** A client's allocation that nobody disturbs. */
  lemma ClientAllocAlone(s: State, t: Thread) returns (s': State)
    requires t in s.tasks && s.tasks[t] == Ready
    ensures Alone(s, ClientAlloc(t), s')
    ensures s' == if HasRoom(s) then Move(Without(s), NextBlock(s), Client(t)) else s
  {
    var s1 := At(s, t, Popping(ForClient));
    Begin(s, ClientAlloc(t), s1);
    s' := AllocAlone(s, ClientAlloc(t), s1, ForClient);
    assert s'.tasks == s.tasks;
  }

  /** A client's free that nobody disturbs puts the block on top of the free stack, so that the next allocation
      returns it. */
  lemma ClientFreeAlone(s: State, t: Thread, b: nat) returns (s': State)
    requires t in s.tasks && s.tasks[t] == Ready && b in s.places && s.places[b] == Client(t)
    ensures Alone(s, ClientFree(t, b), s') && HasRoom(s') && NextBlock(s') == b
    ensures s' == Move(s, b, FreeStack).(free := [b] + s.free)
  {
    var s1 := Move(At(s, t, Freeing(b)), b, Hand(t));
    Begin(s, ClientFree(t, b), s1);
    s' := Move(At(s1, t, Ready), b, FreeStack).(free := [b] + s.free);
    assert Gets(s1, t, s');
    Then(s, ClientFree(t, b), s1, s');
    assert s'.tasks == s.tasks && s'.places == s.places[b := FreeStack];
  }

  /** A put that nobody disturbs puts a block with the pointer on top of the list, unless the shelf is full. */
  lemma PutAlone(s: State, t: Thread, i: nat, ptr: Pointer) returns (s': State)
    requires t in s.tasks && s.tasks[t] == Ready && i < |s.lists|
    ensures Alone(s, PutPointer(t, i, ptr), s') && s'.tasks == s.tasks
    ensures if HasRoom(s) then
              && s'.lists == s.lists[i := [NextBlock(s)] + s.lists[i]]
              && s'.mem == s.mem[NextBlock(s) + PAYLOAD_OFFSET := ptr]
              && s'.log == s.log + [Put(i, ptr)] && s'.ticket == s.ticket[NextBlock(s) := |s.log|]
              && s'.free == Without(s).free && s'.never == Without(s).never && s'.returned == s.returned
            else s' == s
  {
    var first := PutPointer(t, i, ptr);
    var s1 := At(s, t, Popping(ForPut(i, ptr)));
    Begin(s, first, s1);
    s' := AllocAlone(s, first, s1, ForPut(i, ptr));
    if HasRoom(s) {
      s' := StoreAlone(s, first, s', NextBlock(s));
    }
    assert s'.tasks == s.tasks;
  }

  lemma StoreAlone(s0: State, first: Step, s: State, b: nat) returns (s': State)
    requires first.PutPointer? && Alone(s0, first, s) && first.t in s.tasks && first.list < |s.lists|
    requires s.tasks[first.t] == PutPayload(first.list, first.ptr, b)
    ensures Alone(s0, first, s') && s'.tasks == s.tasks[first.t := Ready]
    ensures s'.lists == s.lists[first.list := [b] + s.lists[first.list]]
    ensures s'.mem == s.mem[b + PAYLOAD_OFFSET := first.ptr]
    ensures s'.log == s.log + [Put(first.list, first.ptr)] && s'.ticket == s.ticket[b := |s.log|]
    ensures s'.free == s.free && s'.never == s.never && s'.returned == s.returned
  {
    var PutPointer(t, i, ptr) := first;
    var s1 := At(s, t, PutPush(i, ptr, b)).(mem := s.mem[b + PAYLOAD_OFFSET := ptr]);
    assert Puts(s, t, s1);
    Then(s0, first, s, s1);
    s' := Move(At(s1, t, Ready), b, OnList(i)).(
            lists := s.lists[i := [b] + s.lists[i]], log := s.log + [Put(i, ptr)], ticket := s.ticket[b := |s.log|]);
    assert Puts(s1, t, s');
    Then(s0, first, s1, s');
  }

  /** `GetPointer` with its block in hand: it reads the pointer and frees the block. */
  lemma ReadAlone(s0: State, first: Step, s: State, i: nat, b: nat) returns (s': State)
    requires Alone(s0, first, s) && first.t in s.tasks && s.tasks[first.t] == GetRead(i, b)
    requires b in s.ticket && b + PAYLOAD_OFFSET in s.mem
    ensures Alone(s0, first, s') && s'.tasks == s.tasks[first.t := Ready]
    ensures s'.returned == s.returned + {s.ticket[b]} && s'.log == s.log
    ensures s'.lists == s.lists && s'.free == [b] + s.free
  {
    var t := first.t;
    var s1 := At(s, t, Freeing(b)).(returned := s.returned + {s.ticket[b]});
    assert Gets(s, t, s1);
    Then(s0, first, s, s1);
    s' := Move(At(s1, t, Ready), b, FreeStack).(free := [b] + s.free);
    assert Gets(s1, t, s');
    Then(s0, first, s1, s');
  }

  lemma TopIsLive(s: State, i: nat)
    requires Inv(s) && i < |s.lists| && s.lists[i] != []
    ensures LiveOk(s, i, s.lists[i][0])
  {
    assert In(s, s.lists[i][0], OnList(i));
    assert Live(s, i, s.lists[i][0]);
  }

  lemma GetNothingAlone(s: State, t: Thread, i: nat)
    requires t in s.tasks && s.tasks[t] == Ready && i < |s.lists| && s.lists[i] == []
    ensures Alone(s, GetPointer(t, i), s)
  {
    var s1 := At(s, t, GetPop(i));
    Begin(s, GetPointer(t, i), s1);
    assert At(s1, t, Ready).tasks == s.tasks;
    assert Gets(s1, t, s);
    Then(s, GetPointer(t, i), s1, s);
  }

  /** A get that nobody disturbs takes the top block of the list, returns the pointer of its put, and puts the
      block on the allocator's stack; it returns nothing only when the list is empty. */
  lemma GetAlone(s: State, t: Thread, i: nat) returns (s': State)
    requires Inv(s) && t in s.tasks && s.tasks[t] == Ready && i < |s.lists|
    ensures Alone(s, GetPointer(t, i), s') && s'.tasks == s.tasks
    ensures if s.lists[i] == [] then s' == s
            else
              var b := s.lists[i][0];
              && b in s.ticket && s.ticket[b] < |s.log| && b + PAYLOAD_OFFSET in s.mem
              && s.log[s.ticket[b]] == Put(i, s.mem[b + PAYLOAD_OFFSET])
              && s'.returned == s.returned + {s.ticket[b]} && s'.log == s.log
              && s'.lists == s.lists[i := s.lists[i][1..]] && s'.free == [b] + s.free
  {
    if s.lists[i] == [] {
      s' := s;
      GetNothingAlone(s, t, i);
    } else {
      var first, b := GetPointer(t, i), s.lists[i][0];
      TopIsLive(s, i);
      var s1 := At(s, t, GetPop(i));
      Begin(s, first, s1);
      var s2 := Move(At(s1, t, GetRead(i, b)), b, Hand(t)).(lists := s.lists[i := s.lists[i][1..]]);
      assert Gets(s1, t, s2);
      Then(s, first, s1, s2);
      s' := ReadAlone(s, first, s2, i, b);
    }
    assert s'.tasks == s.tasks;
  }

  lemma {:induction false} PathInv(states: seq<State>, steps: seq<Step>, j: nat)
    requires IsPath(states, steps) && j <= |steps| && Inv(states[0])
    ensures Inv(states[j])
  {
    if j > 0 {
      PathInv(states, steps, j - 1);
      assert StepTaken(states, steps, j - 1);
      InvKept(states[j - 1], steps[j - 1], states[j]);
    }
  }

  lemma AloneInv(s: State, first: Step, s': State)
    requires Inv(s) && Alone(s, first, s')
    ensures Inv(s')
  {
    var states, steps :| AloneBy(states, steps, s, first, s');
    PathInv(states, steps, |steps|);
  }

  /** A put and then a get on the same list return the pointer that was put, and leave the list as it was. */
  lemma GetUndoesPut(s: State, t: Thread, u: Thread, i: nat, ptr: Pointer) returns (s1: State, s2: State)
    requires Inv(s) && HasRoom(s) && i < |s.lists|
    requires t in s.tasks && s.tasks[t] == Ready && u in s.tasks && s.tasks[u] == Ready
    ensures Alone(s, PutPointer(t, i, ptr), s1) && Alone(s1, GetPointer(u, i), s2)
    ensures s2.returned == s.returned + {|s.log|} && s2.log == s.log + [Put(i, ptr)] && s2.lists == s.lists
  {
    s1 := PutAlone(s, t, i, ptr);
    AloneInv(s, PutPointer(t, i, ptr), s1);
    s2 := GetAlone(s1, u, i);
    assert s1.lists[i][1..] == s.lists[i];
  }
}
