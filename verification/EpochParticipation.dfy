/** The two halves of the epoch protocol put together: processes with any number of threads each, over one
    shared epoch vector.  Whatever the threads of a process do under its lock, its slot makes the moves of
    `EpochReclamation` and no others, so every run of the whole is a run of that protocol. */
module EpochParticipation {
  import E = EpochReclamation
  import P = EpochProcess

  /** Slot `i` shows what the process's threads are doing; `names` tells which operation each runs. */
  ghost predicate Depicts(e: E.State, i: nat, v: P.View, names: map<P.Thread, E.OpId>) {
    && i < |e.slots|
    && var slot := e.slots[i];
    && slot.reported == v.reported
    && (slot.stage == E.Joined || slot.stage.Reporting?)
    && v.pending == (if slot.stage.Reporting? then {slot.stage.seen} else {})
    && names.Keys == v.ops
    && (forall t, u :: t in names && u in names && names[t] == names[u] ==> t == u)
    && (forall o :: o in slot.ops <==> Names(names, o))
  }

  ghost predicate Names(names: map<P.Thread, E.OpId>, o: E.OpId) { exists t :: t in names && names[t] == o }

  // ---------------------------------------------------------------- what a thread's step does to its slot

  function Renamed(names: map<P.Thread, E.OpId>, ops: set<P.Thread>, next: E.OpId): map<P.Thread, E.OpId> {
    map t | t in ops :: if t in names then names[t] else next
  }

  /** The shared state once slot `i`, which showed `v`, shows `w`.  The shared word is the reported epoch;
      the rest is what the process knows of itself. */
  ghost function Shown(e: E.State, i: nat, v: P.View, w: P.View, names: map<P.Thread, E.OpId>): E.State
    requires i < |e.slots|
  {
    var slot := e.slots[i];
    var stage := if w.pending == {} then E.Joined else if v.pending == {} then E.Reporting(e.frontier) else slot.stage;
    var cache := if v.pending != {} && w.pending == {} then slot.cache[i := w.reported] else slot.cache;
    E.Set(e, i, slot.(stage := stage, reported := w.reported, cache := cache,
                      ops := Renamed(names, w.ops, e.nextOp).Values))
    .(nextOp := if w.ops <= v.ops then e.nextOp else e.nextOp + 1)
  }

  lemma Values(names: map<P.Thread, E.OpId>, o: E.OpId)
    ensures o in names.Values <==> Names(names, o)
  {
  }

  lemma SameShown(e: E.State, i: nat, v: P.View, names: map<P.Thread, E.OpId>)
    requires Depicts(e, i, v, names)
    ensures Renamed(names, v.ops, e.nextOp) == names && Shown(e, i, v, v, names) == e
  {
    var slot := e.slots[i];
    SlotValues(e, i, v, names);
    assert Renamed(names, v.ops, e.nextOp) == names;
    assert slot.stage.Reporting? ==> slot.stage.seen in v.pending;
    assert Shown(e, i, v, v, names).slots[i] == slot;
  }

  lemma BeginNames(names: map<P.Thread, E.OpId>, ops: set<P.Thread>, t: P.Thread, next: E.OpId)
    requires names.Keys == ops && t !in ops
    ensures Renamed(names, ops + {t}, next) == names[t := next]
    ensures Renamed(names, ops + {t}, next).Values == names.Values + {next}
  {
    var names' := Renamed(names, ops + {t}, next);
    assert names' == names[t := next];
    forall o ensures o in names'.Values <==> o in names.Values + {next} {
      if o in names.Values {
        var u :| u in names && names[u] == o;
        assert names'[u] == o;
      }
      assert names'[t] == next;
    }
  }

  lemma BeginMatched(e: E.State, i: nat, v: P.View, w: P.View, t: P.Thread, names: map<P.Thread, E.OpId>)
    requires E.Inv(e) && i < E.PARTICIPANTS && Depicts(e, i, v, names) && P.BeginsOp(v, w, t)
    ensures E.Next(e, E.EnterOp(i), Shown(e, i, v, w, names))
    ensures Depicts(Shown(e, i, v, w, names), i, w, Renamed(names, w.ops, e.nextOp))
  {
    var slot := e.slots[i];
    assert E.SlotOk(e, i);
    SlotValues(e, i, v, names);
    BeginNames(names, v.ops, t, e.nextOp);
    assert !(w.ops <= v.ops) by { assert t in w.ops; }
    assert slot.stage == E.Joined;
    var names' := Renamed(names, w.ops, e.nextOp);
    assert E.Set(e, i, slot.(ops := names'.Values)) == E.Set(e, i, slot.(ops := slot.ops + {e.nextOp}));
    forall u | u in names ensures names[u] != e.nextOp { assert names[u] in names.Values; }
    forall o ensures o in names'.Values <==> Names(names', o) { Values(names', o); }
  }

  lemma SlotValues(e: E.State, i: nat, v: P.View, names: map<P.Thread, E.OpId>)
    requires Depicts(e, i, v, names)
    ensures names.Values == e.slots[i].ops
  {
    forall o ensures o in names.Values <==> o in e.slots[i].ops { Values(names, o); }
  }

  lemma EndNames(names: map<P.Thread, E.OpId>, ops: set<P.Thread>, t: P.Thread, next: E.OpId)
    requires names.Keys == ops && t in ops
    requires forall u, w :: u in names && w in names && names[u] == names[w] ==> u == w
    ensures Renamed(names, ops - {t}, next) == names - {t}
    ensures (names - {t}).Values == names.Values - {names[t]}
  {
    assert Renamed(names, ops - {t}, next) == names - {t};
    var names' := names - {t};
    forall o ensures o in names'.Values <==> o in names.Values - {names[t]} {
      if o in names.Values && o != names[t] {
        var u :| u in names && names[u] == o;
        assert u in names' && names'[u] == o;
      }
    }
  }

  lemma EndMatched(e: E.State, i: nat, v: P.View, w: P.View, t: P.Thread, names: map<P.Thread, E.OpId>)
    requires E.Inv(e) && i < E.PARTICIPANTS && Depicts(e, i, v, names) && P.EndsOp(v, w, t)
    requires names[t] !in e.hands
    ensures E.Next(e, E.ExitOp(i, names[t]), Shown(e, i, v, w, names))
    ensures Depicts(Shown(e, i, v, w, names), i, w, Renamed(names, w.ops, e.nextOp))
  {
    var slot := e.slots[i];
    SlotValues(e, i, v, names);
    EndNames(names, v.ops, t, e.nextOp);
    var names' := Renamed(names, w.ops, e.nextOp);
    assert slot.(stage := if w.pending == {} then E.Joined else slot.stage) == slot;
    assert E.Set(e, i, slot.(ops := names'.Values)) == E.Set(e, i, slot.(ops := slot.ops - {names[t]}));
    forall o ensures o in names'.Values <==> Names(names', o) { Values(names', o); }
  }

  /** With no operation running there is nothing to name. */
  lemma NoneNamed(e: E.State, i: nat, v: P.View, names: map<P.Thread, E.OpId>)
    requires Depicts(e, i, v, names) && v.ops == {}
    ensures names == map[] && e.slots[i].ops == {} && Renamed(names, v.ops, e.nextOp) == map[]
  {
    assert names.Keys == {};
    assert forall o :: !Names(names, o);
  }

  lemma ReadMatched(e: E.State, i: nat, v: P.View, w: P.View, names: map<P.Thread, E.OpId>)
    requires E.Inv(e) && i < E.PARTICIPANTS && Depicts(e, i, v, names) && P.ReadsFrontier(v, w, e.frontier)
    ensures E.Next(e, E.ReadFrontierToReport(i), Shown(e, i, v, w, names))
    ensures Depicts(Shown(e, i, v, w, names), i, w, Renamed(names, w.ops, e.nextOp))
  {
    NoneNamed(e, i, v, names);
    assert e.frontier in w.pending;
    SlotValues(e, i, v, names);
    assert E.Set(e, i, e.slots[i].(stage := E.Reporting(e.frontier))) == Shown(e, i, v, w, names);
  }

  lemma ReportMatched(e: E.State, i: nat, v: P.View, w: P.View, f: E.Epoch, names: map<P.Thread, E.OpId>)
    requires E.Inv(e) && i < E.PARTICIPANTS && Depicts(e, i, v, names) && P.Publishes(v, w, f)
    ensures E.Next(e, E.Report(i), Shown(e, i, v, w, names))
    ensures Depicts(Shown(e, i, v, w, names), i, w, Renamed(names, w.ops, e.nextOp))
  {
    NoneNamed(e, i, v, names);
    assert f in v.pending;
    SlotValues(e, i, v, names);
    assert E.Set(e, i, E.Publish(e.slots[i], i, f, E.Joined)) == Shown(e, i, v, w, names);
  }

  /** The steps of a slot that its threads take; the others are taken on the process's behalf. */
  predicate ByThreads(step: E.Step) {
    step.EnterOp? || step.ExitOp? || step.ReadFrontierToReport? || step.Report?
  }

  /** Slot `i` has made one step of the shared protocol by its threads, or none. */
  ghost predicate SlotSteps(e: E.State, i: nat, e': E.State)
    requires E.WellShaped(e)
  {
    e' == e || exists step: E.Step :: step.i == i && ByThreads(step) && E.Next(e, step, e')
  }

  /** Only `EndOp` ends an operation. */
  lemma EndedByEndOp(s: P.State, step: P.Step, s': P.State, t: P.Thread)
    requires 0 < |s.counters| == |s.counted| && P.Next(s, step, s')
    requires t in P.ViewOf(s).ops && t !in P.ViewOf(s').ops
    ensures step == P.EndOp(t)
  {
    assert t in s.pcs && s.pcs[t].InOp?;
  }

  /** The slot has made a step for its threads, or none, and shows what they do now. */
  ghost predicate Matched(e: E.State, i: nat, v: P.View, w: P.View, names: map<P.Thread, E.OpId>)
    requires E.WellShaped(e) && i < E.PARTICIPANTS
  {
    && SlotSteps(e, i, Shown(e, i, v, w, names))
    && Depicts(Shown(e, i, v, w, names), i, w, Renamed(names, w.ops, e.nextOp))
  }

  lemma MatchedBy(e: E.State, i: nat, v: P.View, w: P.View, names: map<P.Thread, E.OpId>, step: E.Step)
    requires E.WellShaped(e) && i < E.PARTICIPANTS && step.i == i && ByThreads(step)
    requires E.Next(e, step, Shown(e, i, v, w, names))
    requires Depicts(Shown(e, i, v, w, names), i, w, Renamed(names, w.ops, e.nextOp))
    ensures Matched(e, i, v, w, names)
  {
  }

  lemma ViewStepMatched(e: E.State, i: nat, v: P.View, w: P.View, names: map<P.Thread, E.OpId>)
    requires E.Inv(e) && i < E.PARTICIPANTS && Depicts(e, i, v, names) && P.ParticipantStep(v, w, e.frontier)
    requires forall t :: P.EndsOp(v, w, t) ==> t in names && names[t] !in e.hands
    ensures Matched(e, i, v, w, names)
  {
    if w == v {
      SameShown(e, i, v, names);
    } else if t :| P.BeginsOp(v, w, t) {
      BeginMatched(e, i, v, w, t, names);
      MatchedBy(e, i, v, w, names, E.EnterOp(i));
    } else if t :| P.EndsOp(v, w, t) {
      EndMatched(e, i, v, w, t, names);
      MatchedBy(e, i, v, w, names, E.ExitOp(i, names[t]));
    } else if P.ReadsFrontier(v, w, e.frontier) {
      ReadMatched(e, i, v, w, names);
      MatchedBy(e, i, v, w, names, E.ReadFrontierToReport(i));
    } else {
      var f :| P.Publishes(v, w, f);
      ReportMatched(e, i, v, w, f, names);
      MatchedBy(e, i, v, w, names, E.Report(i));
    }
  }

  /** Every step of a thread of the process, a frontier read returning the shared frontier, is a step of
      the process's slot in the shared protocol or leaves the shared state alone.  Workers end their
      operations empty-handed. */
  lemma ThreadStepMatched(s: P.State, step: P.Step, s': P.State, e: E.State, i: nat, names: map<P.Thread, E.OpId>)
    requires P.Inv(s) && P.Next(s, step, s') && (step.Advance? ==> step.frontier == e.frontier)
    requires E.Inv(e) && i < E.PARTICIPANTS && Depicts(e, i, P.ViewOf(s), names)
    requires step.EndOp? && step.t in names ==> names[step.t] !in e.hands
    ensures Matched(e, i, P.ViewOf(s), P.ViewOf(s'), names)
  {
    var v, w := P.ViewOf(s), P.ViewOf(s');
    P.StepIsParticipantStep(s, step, s', e.frontier);
    forall t | P.EndsOp(v, w, t) ensures t in names && names[t] !in e.hands { EndedByEndOp(s, step, s', t); }
    ViewStepMatched(e, i, v, w, names);
  }

  /** When the process has joined and none of its threads has begun anything, its slot shows that. */
  lemma JoinDepicts(e: E.State, i: nat, e': E.State, s: P.State)
    requires E.Inv(e) && E.Next(e, E.Join(i), e') && P.Init(s) && s.reported == e'.slots[i].reported
    ensures Depicts(e', i, P.ViewOf(s), map[])
  {
    assert E.SlotOk(e, i);
    assert forall o :: !Names(map[], o);
  }

  /** What other processes do, and what the process itself does to scan the slots, to defer and to reclaim,
      does not show in the slot. */
  lemma OthersUnseen(e: E.State, step: E.Step, e': E.State, i: nat, v: P.View, names: map<P.Thread, E.OpId>)
    requires E.Inv(e) && E.Next(e, step, e') && i < E.PARTICIPANTS && Depicts(e, i, v, names)
    requires step.i != i || step.Flush? || step.ScanFrontier? || step.ScanSlot? || step.EndScan?
             || step.Defer? || step.Take? || step.HandBack?
    ensures Depicts(e', i, v, names)
  {
    if step.i != i { E.SlotFrame(e, step, e', i); }
  }

  // ---------------------------------------------------------------- the whole

  /** The shared state, the processes that have joined, and the names of the operations their threads run. */
  datatype System = System(shared: E.State, procs: map<nat, P.State>, names: map<nat, map<P.Thread, E.OpId>>)

  /** A thread of process `i` takes a step, or a process acts on the shared state: it registers, joins, scans,
      defers, reclaims, dies or leaves. */
  datatype Move = ByThread(i: nat, threadStep: P.Step) | Shared(step: E.Step)

  ghost predicate Init(y: System) { E.Init(y.shared) && y.procs == map[] && y.names == map[] }

  ghost predicate Next(y: System, move: Move, y': System) {
    && E.WellShaped(y.shared)
    && match move
       case ByThread(i, step) => ThreadMoves(y, i, step, y')
       case Shared(step) => SharedMoves(y, step, y')
  }

  ghost predicate ThreadMoves(y: System, i: nat, step: P.Step, y': System) {
    && i in y.procs && i in y.names && i in y'.procs && i < |y.shared.slots|
    && var s, s' := y.procs[i], y'.procs[i];
    && 0 < |s.counters| == |s.counted| && P.Next(s, step, s')
    && (step.Advance? ==> step.frontier == y.shared.frontier)
    // a worker frees what it has popped before its operation ends
    && (step.EndOp? && step.t in y.names[i] ==> y.names[i][step.t] !in y.shared.hands)
    && y' == System(Shown(y.shared, i, P.ViewOf(s), P.ViewOf(s'), y.names[i]), y.procs[i := s'],
                    y.names[i := Renamed(y.names[i], P.ViewOf(s').ops, y.shared.nextOp)])
  }

  ghost predicate SharedMoves(y: System, step: E.Step, y': System)
    requires E.WellShaped(y.shared)
  {
    && !ByThreads(step) && E.Next(y.shared, step, y'.shared)
    && match step
       case Join(i) =>
         && i in y'.procs && i < |y'.shared.slots|
         && P.Init(y'.procs[i]) && y'.procs[i].reported == y'.shared.slots[i].reported
         && y'.procs == y.procs[i := y'.procs[i]] && y'.names == y.names[i := map[]]
       case Die(i) => y'.procs == y.procs - {i} && y'.names == y.names - {i}
       case Leave(i) => y'.procs == y.procs - {i} && y'.names == y.names - {i}
       case _ => y'.procs == y.procs && y'.names == y.names
  }

  ghost predicate ProcOk(y: System, i: nat)
    requires i in y.procs && i in y.names
  {
    i < E.PARTICIPANTS && P.Inv(y.procs[i]) && Depicts(y.shared, i, P.ViewOf(y.procs[i]), y.names[i])
  }

  ghost predicate ProcsOk(y: System) {
    y.procs.Keys == y.names.Keys && forall i :: i in y.procs ==> ProcOk(y, i)
  }

  /** Every active slot is that of one of the processes. */
  ghost predicate ActiveOk(y: System) {
    && |y.shared.slots| == E.PARTICIPANTS
    && forall i :: 0 <= i < E.PARTICIPANTS && E.Active(y.shared.slots[i]) ==> i in y.procs
  }

  ghost predicate Inv(y: System) { E.Inv(y.shared) && ProcsOk(y) && ActiveOk(y) }

  /** What a move is in the shared protocol, if it is anything there. */
  ghost predicate IsStep(y: System, move: Move, y': System, step: E.Step)
    requires E.WellShaped(y.shared)
  {
    && E.Next(y.shared, step, y'.shared)
    && (if move.Shared? then step == move.step else ByThreads(step) && step.i == move.i)
  }

  lemma MoveIsStep(y: System, move: Move, y': System)
    requires Inv(y) && Next(y, move, y')
    ensures (move.ByThread? && y'.shared == y.shared) || exists step :: IsStep(y, move, y', step)
  {
    match move
    case Shared(step) => assert IsStep(y, move, y', step);
    case ByThread(i, step) =>
      assert ProcOk(y, i);
      ThreadStepMatched(y.procs[i], step, y'.procs[i], y.shared, i, y.names[i]);
      if y'.shared != y.shared {
        var es: E.Step :| es.i == i && ByThreads(es) && E.Next(y.shared, es, y'.shared);
        assert IsStep(y, move, y', es);
      }
  }

  lemma SlotStepsKept(e: E.State, i: nat, e': E.State)
    requires E.Inv(e) && SlotSteps(e, i, e')
    ensures E.Inv(e')
  {
    if e' != e {
      var step: E.Step :| step.i == i && ByThreads(step) && E.Next(e, step, e');
      E.InvKept(e, step, e');
    }
  }

  lemma ProcFrame(y: System, y': System, j: nat)
    requires j in y.procs && j in y.names && ProcOk(y, j)
    requires j in y'.procs && j in y'.names && y'.procs[j] == y.procs[j] && y'.names[j] == y.names[j]
    requires |y'.shared.slots| == |y.shared.slots| && y'.shared.slots[j] == y.shared.slots[j]
    ensures ProcOk(y', j)
  {
    ShowsStill(y.shared, y'.shared, j, P.ViewOf(y.procs[j]), y.names[j]);
  }

  lemma ShowsStill(e: E.State, e': E.State, i: nat, v: P.View, names: map<P.Thread, E.OpId>)
    requires Depicts(e, i, v, names) && |e'.slots| == |e.slots| && e'.slots[i] == e.slots[i]
    ensures Depicts(e', i, v, names)
  {
  }

  /** A move of one process leaves the others and their slots alone. */
  lemma ThreadFrame(y: System, i: nat, step: P.Step, y': System, j: nat)
    requires ThreadMoves(y, i, step, y') && j in y.procs && j in y.names && j != i
    ensures j in y'.procs && j in y'.names && y'.procs[j] == y.procs[j] && y'.names[j] == y.names[j]
    ensures |y'.shared.slots| == |y.shared.slots|
    ensures j < |y.shared.slots| ==> y'.shared.slots[j] == y.shared.slots[j]
  {
  }

  lemma OtherProcsKept(y: System, i: nat, step: P.Step, y': System, j: nat)
    requires ThreadMoves(y, i, step, y') && j in y.procs && j in y.names && j != i && ProcOk(y, j)
    ensures j in y'.procs && j in y'.names && ProcOk(y', j)
  {
    ThreadFrame(y, i, step, y', j);
    ProcFrame(y, y', j);
  }

  lemma OwnProcKept(y: System, i: nat, step: P.Step, y': System)
    requires E.Inv(y.shared) && i in y.procs && i in y.names && ProcOk(y, i) && ThreadMoves(y, i, step, y')
    ensures SlotSteps(y.shared, i, y'.shared) && i in y'.procs && i in y'.names && ProcOk(y', i)
  {
    ThreadStepMatched(y.procs[i], step, y'.procs[i], y.shared, i, y.names[i]);
    P.InvKept(y.procs[i], step, y'.procs[i]);
  }

  lemma ThreadActive(y: System, i: nat, step: P.Step, y': System)
    requires ActiveOk(y) && ThreadMoves(y, i, step, y')
    ensures ActiveOk(y')
  {
    forall j | 0 <= j < E.PARTICIPANTS && E.Active(y'.shared.slots[j]) ensures j in y'.procs {
      if j != i { assert y'.shared.slots[j] == y.shared.slots[j]; }
    }
  }

  lemma SameKeys(y: System, i: nat, step: P.Step, y': System)
    requires ThreadMoves(y, i, step, y')
    ensures y'.procs.Keys == y.procs.Keys && y'.names.Keys == y.names.Keys
  {
  }

  lemma ThreadProcs(y: System, i: nat, step: P.Step, y': System)
    requires ProcsOk(y) && ThreadMoves(y, i, step, y') && i in y'.procs && i in y'.names && ProcOk(y', i)
    ensures ProcsOk(y')
  {
    SameKeys(y, i, step, y');
    forall j | j in y'.procs ensures j in y'.names && ProcOk(y', j) {
      if j != i {
        assert j in y'.procs.Keys && j in y.procs.Keys;
        assert ProcOk(y, j);
        OtherProcsKept(y, i, step, y', j);
      }
    }
  }

  lemma ThreadMoveKept(y: System, i: nat, step: P.Step, y': System)
    requires Inv(y) && Next(y, ByThread(i, step), y')
    ensures Inv(y')
  {
    OwnProcKept(y, i, step, y');
    SlotStepsKept(y.shared, i, y'.shared);
    ThreadProcs(y, i, step, y');
    ThreadActive(y, i, step, y');
  }

  lemma SharedMoveKept(y: System, step: E.Step, y': System)
    requires Inv(y) && Next(y, Shared(step), y')
    ensures Inv(y')
  {
    E.InvKept(y.shared, step, y'.shared);
    SharedKeys(y, step, y');
    forall j | j in y'.procs ensures ProcOk(y', j) { SharedProcOk(y, step, y', j); }
    forall j | 0 <= j < E.PARTICIPANTS && E.Active(y'.shared.slots[j]) ensures j in y'.procs {
      SharedActive(y, step, y', j);
    }
  }

  lemma SharedKeys(y: System, step: E.Step, y': System)
    requires y.procs.Keys == y.names.Keys && E.WellShaped(y.shared) && SharedMoves(y, step, y')
    ensures y'.procs.Keys == y'.names.Keys
  {
  }

  /** What is left to a process that has joined, beside the steps of its threads and its end. */
  lemma OwnKinds(e: E.State, step: E.Step, e': E.State, v: P.View, names: map<P.Thread, E.OpId>)
    requires E.WellShaped(e) && E.Next(e, step, e') && Depicts(e, step.i, v, names)
    requires !ByThreads(step) && !step.Die? && !step.Leave?
    ensures step.Flush? || step.ScanFrontier? || step.ScanSlot? || step.EndScan?
            || step.Defer? || step.Take? || step.HandBack?
  {
  }

  lemma SharedFrame(y: System, step: E.Step, y': System, j: nat)
    requires E.WellShaped(y.shared) && SharedMoves(y, step, y') && y.procs.Keys == y.names.Keys
    requires j in y'.procs && step != E.Join(j)
    ensures j in y.procs && j in y'.names && y'.procs[j] == y.procs[j] && y'.names[j] == y.names[j]
    ensures step.i == j ==> !step.Die? && !step.Leave?
  {
    SharedKeys(y, step, y');
    assert j in y'.procs.Keys;
  }

  lemma JoinedProcOk(y: System, j: nat, y': System)
    requires E.Inv(y.shared) && SharedMoves(y, E.Join(j), y') && j < E.PARTICIPANTS
    ensures j in y'.procs && j in y'.names && ProcOk(y', j)
  {
    JoinDepicts(y.shared, j, y'.shared, y'.procs[j]);
  }

  lemma StayingProcOk(y: System, step: E.Step, y': System, j: nat)
    requires E.Inv(y.shared) && SharedMoves(y, step, y') && y.procs.Keys == y.names.Keys
    requires j in y'.procs && step != E.Join(j) && (j in y.procs ==> ProcOk(y, j))
    ensures j in y'.names && ProcOk(y', j)
  {
    SharedFrame(y, step, y', j);
    var v := P.ViewOf(y.procs[j]);
    if step.i == j { OwnKinds(y.shared, step, y'.shared, v, y.names[j]); }
    OthersUnseen(y.shared, step, y'.shared, j, v, y.names[j]);
  }

  lemma SharedProcOk(y: System, step: E.Step, y': System, j: nat)
    requires E.Inv(y.shared) && ProcsOk(y) && SharedMoves(y, step, y') && j in y'.procs
    ensures j in y'.names && ProcOk(y', j)
  {
    if step == E.Join(j) {
      JoinedProcOk(y, j, y');
    } else {
      assert j in y.procs ==> ProcOk(y, j);
      StayingProcOk(y, step, y', j);
    }
  }

  lemma SharedActive(y: System, step: E.Step, y': System, j: nat)
    requires ActiveOk(y) && E.WellShaped(y.shared) && SharedMoves(y, step, y') && E.WellShaped(y'.shared)
    requires j < E.PARTICIPANTS && E.Active(y'.shared.slots[j])
    ensures j in y'.procs
  {
    if step.i == j { E.OwnActive(y.shared, step, y'.shared); } else { E.SlotFrame(y.shared, step, y'.shared, j); }
    ProcsStay(y, step, y', j);
  }

  lemma ProcsStay(y: System, step: E.Step, y': System, j: nat)
    requires E.WellShaped(y.shared) && SharedMoves(y, step, y')
    ensures j in y'.procs <==> step == E.Join(j) || (j in y.procs && !(step.i == j && (step.Die? || step.Leave?)))
  {
  }

  lemma InvKept(y: System, move: Move, y': System)
    requires Inv(y) && Next(y, move, y')
    ensures Inv(y')
  {
    match move
    case ByThread(i, step) => ThreadMoveKept(y, i, step, y');
    case Shared(step) => SharedMoveKept(y, step, y');
  }

  // ---------------------------------------------------------------- runs

  ghost predicate IsRun(ys: seq<System>, moves: seq<Move>) {
    && |ys| == |moves| + 1
    && Init(ys[0])
    && forall t :: 0 <= t < |moves| ==> MoveTaken(ys, moves, t)
  }

  ghost predicate MoveTaken(ys: seq<System>, moves: seq<Move>, t: nat)
    requires t < |moves| && t + 1 < |ys|
  {
    Next(ys[t], moves[t], ys[t + 1])
  }

  lemma {:induction false} RunInv(ys: seq<System>, moves: seq<Move>, t: nat)
    requires IsRun(ys, moves) && t < |ys|
    ensures Inv(ys[t])
  {
    if t == 0 {
      E.InitInv(ys[0].shared);
    } else {
      RunInv(ys, moves, t - 1);
      assert MoveTaken(ys, moves, t - 1);
      InvKept(ys[t - 1], moves[t - 1], ys[t]);
    }
  }

  /** A run of the shared protocol that ends where the system is after `t` moves; `source` tells which move
      each of its steps is. */
  datatype Projection = Projection(states: seq<E.State>, steps: seq<E.Step>, source: seq<nat>)

  ghost predicate Projects(ys: seq<System>, moves: seq<Move>, t: nat, r: Projection)
    requires t < |ys| && |ys| == |moves| + 1
  {
    && E.IsRun(r.states, r.steps) && r.states[|r.steps|] == ys[t].shared && |r.source| == |r.steps|
    && forall b :: 0 <= b < |r.steps| ==> StepComesFrom(ys, moves, t, r, b)
  }

  ghost predicate StepComesFrom(ys: seq<System>, moves: seq<Move>, t: nat, r: Projection, b: nat)
    requires t < |ys| && |ys| == |moves| + 1
    requires b < |r.steps| == |r.source| && |r.steps| < |r.states|
  {
    && r.source[b] < t && r.states[b] == ys[r.source[b]].shared
    && (if moves[r.source[b]].Shared? then r.steps[b] == moves[r.source[b]].step else ByThreads(r.steps[b]))
  }

  /** Every run of processes with threads is, steps that do not show left out, a run of the shared protocol. */
  lemma {:induction false} RunProjects(ys: seq<System>, moves: seq<Move>, t: nat) returns (r: Projection)
    requires IsRun(ys, moves) && t < |ys|
    ensures Projects(ys, moves, t, r)
  {
    if t == 0 {
      r := Projection([ys[0].shared], [], []);
    } else {
      r := RunProjects(ys, moves, t - 1);
      RunInv(ys, moves, t - 1);
      assert MoveTaken(ys, moves, t - 1);
      r := ProjectMove(ys, moves, t - 1, r);
    }
  }

  lemma ProjectMove(ys: seq<System>, moves: seq<Move>, t: nat, r: Projection) returns (r': Projection)
    requires IsRun(ys, moves) && t < |moves| && Projects(ys, moves, t, r)
    requires Inv(ys[t]) && Next(ys[t], moves[t], ys[t + 1])
    ensures Projects(ys, moves, t + 1, r')
  {
    MoveIsStep(ys[t], moves[t], ys[t + 1]);
    if moves[t].ByThread? && ys[t + 1].shared == ys[t].shared {
      StayProjected(ys, moves, t, t + 1, r);
      r' := r;
    } else {
      var step :| IsStep(ys[t], moves[t], ys[t + 1], step);
      r' := ExtendProjection(ys, moves, t, r, step);
    }
  }

  lemma StayProjected(ys: seq<System>, moves: seq<Move>, t: nat, u: nat, r: Projection)
    requires |ys| == |moves| + 1 && t <= u < |ys| && Projects(ys, moves, t, r) && ys[u].shared == ys[t].shared
    ensures Projects(ys, moves, u, r)
  {
    forall b | 0 <= b < |r.steps| ensures StepComesFrom(ys, moves, u, r, b) {
      assert StepComesFrom(ys, moves, t, r, b);
    }
  }

  lemma ExtendProjection(ys: seq<System>, moves: seq<Move>, t: nat, r: Projection, step: E.Step)
    returns (r': Projection)
    requires |ys| == |moves| + 1 && t < |moves| && Projects(ys, moves, t, r)
    requires E.WellShaped(ys[t].shared) && IsStep(ys[t], moves[t], ys[t + 1], step)
    ensures Projects(ys, moves, t + 1, r')
  {
    r' := Projection(r.states + [ys[t + 1].shared], r.steps + [step], r.source + [t]);
    ExtendRun(r.states, r.steps, step, ys[t + 1].shared);
    var u := t + 1;
    forall b | 0 <= b < |r'.steps| ensures StepComesFrom(ys, moves, u, r', b) {
      if b < |r.steps| { assert StepComesFrom(ys, moves, t, r, b); }
    }
  }

  lemma ExtendRun(states: seq<E.State>, steps: seq<E.Step>, step: E.Step, e: E.State)
    requires E.IsRun(states, steps) && E.WellShaped(states[|steps|]) && E.Next(states[|steps|], step, e)
    ensures E.IsRun(states + [e], steps + [step])
  {
    var states', steps' := states + [e], steps + [step];
    forall b | 0 <= b < |steps'| ensures E.StepTaken(states', steps', b) {
      if b < |steps| { assert E.StepTaken(states, steps, b); }
    }
  }

  /** Thread `u` of process `j` is running operation `o`. */
  ghost predicate Running(y: System, j: nat, u: P.Thread, o: E.OpId) {
    && j in y.procs && u in y.procs[j].pcs && y.procs[j].pcs[u].InOp?
    && j in y.names && u in y.names[j] && y.names[j][u] == o
  }

  /** Every thread inside an operation runs one that has a name, and it is in progress. */
  lemma RunningIsInProgress(y: System, j: nat, u: P.Thread)
    requires Inv(y) && j in y.procs && u in y.procs[j].pcs && y.procs[j].pcs[u].InOp?
    ensures exists o :: Running(y, j, u, o)
    ensures forall o :: Running(y, j, u, o) ==> E.InProgress(y.shared, o)
  {
    assert ProcOk(y, j);
    assert u in P.ViewOf(y.procs[j]).ops;
    var o := y.names[j][u];
    assert Running(y, j, u, o) && Names(y.names[j], o);
    assert o in y.shared.slots[j].ops;
  }

  /** Reclamation safety for processes with threads: a block that a worker hands back to the zone was deferred
      by an earlier move, and no thread of any process is still in the operation it was running then. */
  lemma ThreadsReclaimSafely(ys: seq<System>, moves: seq<Move>, t: nat) returns (b: nat)
    requires IsRun(ys, moves) && t < |moves| && moves[t].Shared? && moves[t].step.HandBack?
    ensures moves[t].step.op in ys[t].shared.hands
    ensures b < t && moves[b].Shared?
    ensures E.DeferredAt(ys[b].shared, moves[b].step, ys[t].shared.hands[moves[t].step.op])
    ensures forall j, u, o, k, w :: Running(ys[b], j, u, o) ==> !Running(ys[t], k, w, o)
  {
    var op := moves[t].step.op;
    assert MoveTaken(ys, moves, t);
    var r := RunProjects(ys, moves, t);
    E.TakenIsSafe(r.states, r.steps, |r.steps|, op);
    var c :| 0 <= c < |r.steps| && E.DeferredAt(r.states[c], r.steps[c], ys[t].shared.hands[op])
      && forall g :: E.InProgress(r.states[c], g) ==> !E.InProgress(ys[t].shared, g);
    assert StepComesFrom(ys, moves, t, r, c);
    b := r.source[c];
    RunInv(ys, moves, b);
    RunInv(ys, moves, t);
    forall j, u, o, k, w | Running(ys[b], j, u, o) ensures !Running(ys[t], k, w, o) {
      NotStill(ys[b], ys[t], j, u, o, k, w);
    }
  }

  lemma NotStill(y: System, y': System, j: nat, u: P.Thread, o: E.OpId, k: nat, w: P.Thread)
    requires Inv(y) && Inv(y') && Running(y, j, u, o)
    requires forall g :: E.InProgress(y.shared, g) ==> !E.InProgress(y'.shared, g)
    ensures !Running(y', k, w, o)
  {
    RunningIsInProgress(y, j, u);
    if Running(y', k, w, o) { RunningIsInProgress(y', k, w); }
  }
}
