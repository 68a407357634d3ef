/** When the frontier of `EpochReclamation` advances, and that waiting blocks can be handed back. */
module EpochProgress {
  import opened EpochReclamation
  import L = EpochLoss

  // ---------------------------------------------------------------- what a scan decides

  /** A reported epoch that does not keep the frontier `f` where it is. */
  predicate Allows(r: Epoch, f: Epoch) { r < MIN_ACTIVE || r == f }

  /** The scan of participant `i` began at step `w` and has looked at slot `k` at step `looks[k]`. */
  ghost predicate ScanHistory(states: seq<State>, steps: seq<Step>, i: nat, w: nat, looks: seq<nat>, t: nat)
    requires t <= |steps| < |states|
  {
    && w < t && steps[w] == ScanFrontier(i)
    && (forall k :: 0 <= k < |looks| ==> w < looks[k] < t && steps[looks[k]] == ScanSlot(i))
    && (forall k, l :: 0 <= k < l < |looks| ==> looks[k] < looks[l])
    // and it took no other step of a scan
    && (forall u :: w < u < t && ScansAt(steps, i, u) ==> u in looks)
  }

  predicate ScansAt(steps: seq<Step>, i: nat, u: nat)
    requires u < |steps|
  {
    steps[u] == Flush(i) || steps[u] == ScanFrontier(i) || steps[u] == ScanSlot(i) || steps[u] == EndScan(i)
  }

  /** At each look at one of the first `n` slots, the slot reported an epoch that allows advancing `f`. */
  ghost predicate AllAllow(states: seq<State>, looks: seq<nat>, n: nat, f: Epoch)
    requires n <= |looks|
  {
    forall k :: 0 <= k < n ==> AllowsAt(states, looks, k, f)
  }

  predicate AllowsAt(states: seq<State>, looks: seq<nat>, k: nat, f: Epoch)
    requires k < |looks|
  {
    looks[k] < |states| && k < |states[looks[k]].slots| && Allows(states[looks[k]].slots[k].reported, f)
  }

  /** What the scan has made of it. */
  ghost predicate ScanSoFar(states: seq<State>, steps: seq<Step>, i: nat, w: nat, looks: seq<nat>, t: nat)
    requires t <= |steps| < |states|
  {
    && ScanHistory(states, steps, i, w, looks, t) && i < |states[t].slots|
    && var c := states[t].slots[i].scan;
    c == Scanning(states[w].frontier, |looks|, AllAllow(states, looks, |looks|, states[w].frontier))
  }

  /** A scanner has nothing cached of the slots it has not looked at, except its own. */
  lemma ReadsReported(s: State, i: nat)
    requires Inv(s) && i < PARTICIPANTS && s.slots[i].scan.Scanning? && s.slots[i].scan.next < PARTICIPANTS
    ensures Reads(s, i, s.slots[i].scan.next) == s.slots[s.slots[i].scan.next].reported
  {
    assert SlotOk(s, i) && ScanOk(s, i);
  }

  /** Where a scan can come from. */
  lemma ScanBefore(s: State, step: Step, s': State, i: nat)
    requires WellShaped(s) && Next(s, step, s') && i < PARTICIPANTS && WellShaped(s')
    requires s'.slots[i].scan.Scanning? && step != ScanFrontier(i) && step != ScanSlot(i)
    ensures s'.slots[i].scan == s.slots[i].scan && step != Flush(i) && step != EndScan(i)
  {
  }

  lemma {:induction false} ScanSoFarHolds(states: seq<State>, steps: seq<Step>, i: nat, t: nat)
    returns (w: nat, looks: seq<nat>)
    requires IsRun(states, steps) && t <= |steps| && i < PARTICIPANTS && i < |states[t].slots|
    requires states[t].slots[i].scan.Scanning?
    ensures ScanSoFar(states, steps, i, w, looks, t)
  {
    assert t > 0;
    Shaped(states, steps, t - 1);
    Shaped(states, steps, t);
    assert StepTaken(states, steps, t - 1);
    var step := steps[t - 1];
    if step == ScanFrontier(i) {
      w, looks := t - 1, [];
      ScanBegins(states, steps, i, w);
    } else if step == ScanSlot(i) {
      w, looks := ScanSoFarHolds(states, steps, i, t - 1);
      ScanSlotSoFar(states, steps, i, w, looks, t - 1);
      looks := looks + [t - 1];
    } else {
      ScanBefore(states[t - 1], step, states[t], i);
      w, looks := ScanSoFarHolds(states, steps, i, t - 1);
      ScanStays(states, steps, i, w, looks, t - 1);
    }
  }

  lemma Shaped(states: seq<State>, steps: seq<Step>, t: nat)
    requires IsRun(states, steps) && t < |states|
    ensures WellShaped(states[t])
  {
    RunInv(states, steps, t);
  }

  lemma ScanBegins(states: seq<State>, steps: seq<Step>, i: nat, t: nat)
    requires t < |steps| < |states| && StepTaken(states, steps, t) && steps[t] == ScanFrontier(i)
    ensures ScanSoFar(states, steps, i, t, [], t + 1)
  {
  }

  lemma ScanStays(states: seq<State>, steps: seq<Step>, i: nat, w: nat, looks: seq<nat>, t: nat)
    requires t < |steps| < |states| && ScanSoFar(states, steps, i, w, looks, t) && !ScansAt(steps, i, t)
    requires i < |states[t + 1].slots| && states[t + 1].slots[i].scan == states[t].slots[i].scan
    ensures ScanSoFar(states, steps, i, w, looks, t + 1)
  {
  }

  lemma ScanSlotSoFar(states: seq<State>, steps: seq<Step>, i: nat, w: nat, looks: seq<nat>, t: nat)
    requires IsRun(states, steps) && t < |steps| && ScanSoFar(states, steps, i, w, looks, t)
    requires steps[t] == ScanSlot(i)
    ensures ScanSoFar(states, steps, i, w, looks + [t], t + 1)
  {
    RunInv(states, steps, t);
    assert StepTaken(states, steps, t);
    ReadsReported(states[t], i);
    var looks', f, n := looks + [t], states[w].frontier, |looks|;
    assert AllowsAt(states, looks', n, f) <==> Allows(states[t].slots[n].reported, f);
    forall k | 0 <= k < n ensures AllowsAt(states, looks', k, f) <==> AllowsAt(states, looks, k, f) {
      assert looks'[k] == looks[k];
    }
    assert AllAllow(states, looks', n + 1, f) <==> AllAllow(states, looks, n, f) && AllowsAt(states, looks', n, f);
  }

  /** A scan advances the frontier exactly when every slot, at the one moment the scan looked at it, was free,
      new or at the frontier the scan had read, and that is still the frontier. */
  lemma ScanVerdict(states: seq<State>, steps: seq<Step>, i: nat, t: nat) returns (w: nat, looks: seq<nat>)
    requires IsRun(states, steps) && t < |steps| && steps[t] == EndScan(i)
    ensures ScanHistory(states, steps, i, w, looks, t) && |looks| == PARTICIPANTS
    ensures states[t + 1].frontier
            == if AllAllow(states, looks, PARTICIPANTS, states[w].frontier) && states[t].frontier == states[w].frontier
               then states[t].frontier + 1 else states[t].frontier
  {
    assert StepTaken(states, steps, t);
    w, looks := ScanSoFarHolds(states, steps, i, t);
  }

  /** Nothing else moves the frontier. */
  lemma OnlyScansAdvance(s: State, step: Step, s': State)
    requires WellShaped(s) && Next(s, step, s') && s'.frontier != s.frontier
    ensures step.EndScan? && s'.frontier == s.frontier + 1
  {
  }

  /** A slot that its process has left, or that was cleared after its death, holds no frontier back and can be
      taken again. */
  lemma VacatedUnblocks(s: State, step: Step, s': State, f: Epoch) returns (s'': State)
    requires WellShaped(s) && Next(s, step, s') && (step.Leave? || step.ClearDead?)
    ensures WellShaped(s') && Allows(s'.slots[step.i].reported, f) && Next(s', Register(step.i), s'')
  {
    s'' := Set(s', step.i, Participant(New, NEW_PARTICIPANT, map[], NoScan, {}));
  }

  // ---------------------------------------------------------------- a scan left alone

  ghost predicate IsPath(states: seq<State>, steps: seq<Step>) {
    |states| == |steps| + 1 && forall t :: 0 <= t < |steps| ==> StepTaken(states, steps, t)
  }

  /** One scan by participant `i`. */
  function ScanSteps(i: nat): (steps: seq<Step>)
    ensures |steps| == PARTICIPANTS + 3
  {
    [Flush(i), ScanFrontier(i)] + seq(PARTICIPANTS, _ => ScanSlot(i)) + [EndScan(i)]
  }

  /** The first `n` slots allow the frontier to advance. */
  predicate AllowAdvance(s: State, n: nat) {
    forall k :: 0 <= k < n && k < |s.slots| ==> Allows(s.slots[k].reported, s.frontier)
  }

  /** The scanner has looked at the first `n` slots. */
  function Looked(s: State, i: nat, n: nat): State
    requires WellShaped(s) && i < PARTICIPANTS && n <= PARTICIPANTS
  {
    Set(s, i, s.slots[i].(
      cache := map k | 0 <= k < n :: s.slots[k].reported, scan := Scanning(s.frontier, n, AllowAdvance(s, n))))
  }

  lemma LookOn(s: State, i: nat, n: nat)
    requires WellShaped(s) && i < PARTICIPANTS && n < PARTICIPANTS
    ensures Next(Looked(s, i, n), ScanSlot(i), Looked(s, i, n + 1))
  {
    var s1, s2 := Looked(s, i, n), Looked(s, i, n + 1);
    assert Reads(s1, i, n) == s.slots[n].reported;
    assert s1.slots[i].cache[n := s.slots[n].reported] == s2.slots[i].cache;
    assert s1.slots[i := s2.slots[i]] == s2.slots;
  }

  /** What a scan that nobody disturbs leaves. */
  function Scanned(s: State, i: nat): State
    requires WellShaped(s) && i < PARTICIPANTS
  {
    Set(s, i, s.slots[i].(cache := map k | 0 <= k < PARTICIPANTS :: s.slots[k].reported))
    .(frontier := if AllowAdvance(s, PARTICIPANTS) then s.frontier + 1 else s.frontier)
  }

  /** Its states. */
  function ScanStates(s: State, i: nat): (states: seq<State>)
    requires WellShaped(s) && i < PARTICIPANTS
    ensures |states| == PARTICIPANTS + 4 && states[0] == s && states[PARTICIPANTS + 3] == Scanned(s, i)
  {
    [s, Set(s, i, s.slots[i].(cache := map[], scan := Flushed))]
    + seq(PARTICIPANTS + 1, n requires 0 <= n <= PARTICIPANTS => Looked(s, i, n)) + [Scanned(s, i)]
  }

  lemma LookedNothing(s: State, i: nat)
    requires WellShaped(s) && i < PARTICIPANTS
    ensures Looked(s, i, 0) == Set(s, i, s.slots[i].(cache := map[], scan := Scanning(s.frontier, 0, true)))
  {}

  /** With any number of participants: a scan that nobody disturbs advances the frontier exactly when every
      participant that is not free or new reports it. */
  lemma ScanAlone(s: State, i: nat)
    requires WellShaped(s) && i < PARTICIPANTS && Active(s.slots[i]) && s.slots[i].scan == NoScan
    ensures IsPath(ScanStates(s, i), ScanSteps(i))
    ensures Scanned(s, i).frontier == s.frontier + 1 <==>
              forall k :: 0 <= k < PARTICIPANTS ==> Allows(s.slots[k].reported, s.frontier)
  {
    var states, steps := ScanStates(s, i), ScanSteps(i);
    LookedNothing(s, i);
    forall t | 0 <= t < |steps| ensures StepTaken(states, steps, t) {
      if 2 <= t < PARTICIPANTS + 2 {
        LookOn(s, i, t - 2);
      } else {
        ScanEdges(s, i, t);
      }
    }
  }

  lemma ScanEdges(s: State, i: nat, t: nat)
    requires WellShaped(s) && i < PARTICIPANTS && Active(s.slots[i]) && s.slots[i].scan == NoScan
    requires t < 2 || t == PARTICIPANTS + 2
    ensures StepTaken(ScanStates(s, i), ScanSteps(i), t)
  {
    LookedNothing(s, i);
    var s1 := Looked(s, i, PARTICIPANTS);
    assert s1.slots[i := s1.slots[i].(scan := NoScan)] == Scanned(s, i).slots;
  }

  // ---------------------------------------------------------------- all blocks come back

  /** A step that neither defers a block nor ends a process. */
  predicate Works(step: Step) { !step.Defer? && !step.Die? && !step.Leave? }

  /** Such steps lead from `s` to `s'`. */
  ghost predicate Leads(s: State, s': State) { exists states, steps :: LeadsBy(states, steps, s, s') }

  ghost predicate LeadsBy(states: seq<State>, steps: seq<Step>, s: State, s': State) {
    && IsPath(states, steps) && states[0] == s && states[|steps|] == s'
    && forall t :: 0 <= t < |steps| ==> Works(steps[t])
  }

  lemma LeadsNowhere(s: State)
    ensures Leads(s, s)
  {
    assert LeadsBy([s], [], s, s);
  }

  lemma Append(one: seq<State>, steps: seq<Step>, two: seq<State>, more: seq<Step>)
    requires IsPath(one, steps) && IsPath(two, more) && one[|steps|] == two[0]
    ensures IsPath(one[..|steps|] + two, steps + more)
  {
    var states', steps' := one[..|steps|] + two, steps + more;
    forall t | 0 <= t < |steps'| ensures StepTaken(states', steps', t) {
      if t < |steps| { assert StepTaken(one, steps, t); } else { assert StepTaken(two, more, t - |steps|); }
    }
  }

  lemma LeadsOn(s: State, s1: State, s2: State)
    requires Leads(s, s1) && Leads(s1, s2)
    ensures Leads(s, s2)
  {
    var one, steps :| LeadsBy(one, steps, s, s1);
    var two, more :| LeadsBy(two, more, s1, s2);
    Append(one, steps, two, more);
    assert LeadsBy(one[..|steps|] + two, steps + more, s, s2);
  }

  lemma LeadsStep(s: State, step: Step, s': State)
    requires Inv(s) && Next(s, step, s') && Works(step)
    ensures Leads(s, s') && Inv(s')
  {
    InvKept(s, step, s');
    assert StepTaken([s, s'], [step], 0);
    assert LeadsBy([s, s'], [step], s, s');
  }

  /** Every slot is free, new, or held by a process that is in the middle of nothing. */
  ghost predicate Resting(s: State) {
    Inv(s) && forall k :: 0 <= k < PARTICIPANTS ==> RestsAt(s, k)
  }

  predicate RestsAt(s: State, k: nat)
    requires k < |s.slots|
  {
    var p := s.slots[k];
    p.scan == NoScan && p.ops == {} && (p.stage == Joined || p.reported < MIN_ACTIVE)
  }

  lemma NobodyRuns(s: State, o: OpId)
    requires Resting(s)
    ensures !InProgress(s, o)
  {
    forall k | 0 <= k < |s.slots| ensures o !in s.slots[k].ops { assert RestsAt(s, k); }
  }

  lemma RestingHands(s: State)
    requires Resting(s)
    ensures s.hands == map[]
  {
    forall o ensures o !in s.hands { NobodyRuns(s, o); }
  }

  /** No list has changed, and nothing is lost that was not. */
  ghost predicate Same(s: State, s': State) { s'.lists == s.lists && s'.lost == s.lost }

  /** A participant reports the frontier. */
  lemma ReportOne(s: State, k: nat) returns (s': State)
    requires Resting(s) && k < PARTICIPANTS
    ensures Leads(s, s') && Resting(s') && Same(s, s') && s'.frontier == s.frontier
    ensures forall j :: 0 <= j < PARTICIPANTS ==> s'.slots[j].stage == s.slots[j].stage
    ensures forall j :: 0 <= j < PARTICIPANTS && j != k ==> s'.slots[j] == s.slots[j]
    ensures Allows(s'.slots[k].reported, s.frontier)
    ensures s.slots[k].stage == Joined ==> s'.slots[k].reported == s.frontier
  {
    var p := s.slots[k];
    assert RestsAt(s, k);
    if p.stage != Joined {
      s' := s;
      LeadsNowhere(s);
    } else {
      var s1 := Set(s, k, p.(stage := Reporting(s.frontier)));
      LeadsStep(s, ReadFrontierToReport(k), s1);
      s' := Set(s1, k, Publish(s1.slots[k], k, s.frontier, Joined));
      LeadsStep(s1, Report(k), s');
      LeadsOn(s, s1, s');
      forall j | 0 <= j < PARTICIPANTS ensures RestsAt(s', j) { assert RestsAt(s, j); }
    }
  }

  /** All of the first `n` slots have reported the frontier. */
  lemma {:induction false} ReportAll(s: State, n: nat) returns (s': State)
    requires Resting(s) && n <= PARTICIPANTS
    ensures Leads(s, s') && Resting(s') && Same(s, s') && s'.frontier == s.frontier
    ensures forall j :: 0 <= j < PARTICIPANTS ==> s'.slots[j].stage == s.slots[j].stage
    ensures AllowAdvance(s', n)
    ensures forall j :: 0 <= j < n && s.slots[j].stage == Joined ==> s'.slots[j].reported == s.frontier
  {
    if n == 0 {
      s' := s;
      LeadsNowhere(s);
    } else {
      var s1 := ReportAll(s, n - 1);
      s' := ReportOne(s1, n - 1);
      LeadsOn(s, s1, s');
    }
  }

  lemma ScanLeads(s: State, i: nat)
    requires Resting(s) && i < PARTICIPANTS && s.slots[i].stage == Joined
    ensures Leads(s, Scanned(s, i)) && Resting(Scanned(s, i))
  {
    assert RestsAt(s, i);
    ScanAlone(s, i);
    assert LeadsBy(ScanStates(s, i), ScanSteps(i), s, Scanned(s, i));
    PathInv(ScanStates(s, i), ScanSteps(i), PARTICIPANTS + 3);
    forall j | 0 <= j < PARTICIPANTS ensures RestsAt(Scanned(s, i), j) { assert RestsAt(s, j); }
  }

  lemma {:induction false} PathInv(states: seq<State>, steps: seq<Step>, t: nat)
    requires IsPath(states, steps) && t <= |steps| && Inv(states[0])
    ensures Inv(states[t])
  {
    if t > 0 {
      PathInv(states, steps, t - 1);
      assert StepTaken(states, steps, t - 1);
      InvKept(states[t - 1], steps[t - 1], states[t]);
    }
  }

  /** Everybody reports, participant `i` scans: the frontier has advanced. */
  lemma Round(s: State, i: nat) returns (s': State)
    requires Resting(s) && i < PARTICIPANTS && s.slots[i].stage == Joined
    ensures Leads(s, s') && Resting(s') && Same(s, s') && s'.frontier == s.frontier + 1
    ensures s'.slots[i].stage == Joined
  {
    var s1 := ReportAll(s, PARTICIPANTS);
    ScanLeads(s1, i);
    s' := Scanned(s1, i);
    LeadsOn(s, s1, s');
  }

  lemma {:induction false} Rounds(s: State, i: nat, n: nat) returns (s': State)
    requires Resting(s) && i < PARTICIPANTS && s.slots[i].stage == Joined
    ensures Leads(s, s') && Resting(s') && Same(s, s') && s'.frontier == s.frontier + n
    ensures s'.slots[i].stage == Joined
  {
    if n == 0 {
      s' := s;
      LeadsNowhere(s);
    } else {
      var s1 := Rounds(s, i, n - 1);
      s' := Round(s1, i);
      LeadsOn(s, s1, s');
    }
  }

  /** Participant `i` is about to pop from list `l`. */
  ghost predicate Turn(s: State, i: nat, l: nat) {
    Resting(s) && i < PARTICIPANTS && s.slots[i].stage == Joined && s.slots[i].reported % LIST_COUNT == l
  }

  lemma TurnComes(s: State, i: nat, l: nat) returns (s': State)
    requires Resting(s) && i < PARTICIPANTS && s.slots[i].stage == Joined && l < LIST_COUNT
    ensures Leads(s, s') && Turn(s', i, l) && Same(s, s')
  {
    var n := (l + LIST_COUNT - s.frontier % LIST_COUNT) % LIST_COUNT;
    var s1 := Rounds(s, i, n);
    s' := ReportAll(s1, PARTICIPANTS);
    LeadsOn(s, s1, s');
    Wraps(s.frontier, l);
  }

  lemma Wraps(f: nat, l: nat)
    requires l < LIST_COUNT
    ensures (f + (l + LIST_COUNT - f % LIST_COUNT) % LIST_COUNT) % LIST_COUNT == l
  {
  }

  /** A worker begins its round and pops the top block. */
  lemma PopOne(s: State, i: nat, l: nat) returns (s': State)
    requires Turn(s, i, l) && s.lists[l] != []
    ensures Leads(s, s') && Inv(s')
    ensures var p, o := s.slots[i], s.nextOp;
            s' == Set(s, i, p.(ops := {o}, cache := p.cache[i := p.reported])).(
                    nextOp := o + 1, lists := s.lists[l := s.lists[l][1..]], hands := map[o := s.lists[l][0]])
  {
    var p, o := s.slots[i], s.nextOp;
    assert RestsAt(s, i) && SlotOk(s, i);
    RestingHands(s);
    var s1 := Set(s, i, p.(ops := {o})).(nextOp := o + 1);
    assert p.ops + {o} == {o};
    LeadsStep(s, EnterOp(i), s1);
    assert Reads(s1, i, i) == p.reported;
    s' := Set(s, i, p.(ops := {o}, cache := p.cache[i := p.reported])).(
            nextOp := o + 1, lists := s.lists[l := s.lists[l][1..]], hands := map[o := s.lists[l][0]]);
    assert s'.slots == s1.slots[i := s'.slots[i]];
    LeadsStep(s1, Take(i, o), s');
    LeadsOn(s, s1, s');
  }

  /** It hands the block back and ends its round. */
  lemma ReturnOne(s: State, i: nat, o: OpId, q: Parked) returns (s': State)
    requires Inv(s) && i < PARTICIPANTS && s.slots[i].ops == {o} && s.hands == map[o := q]
    ensures Leads(s, s') && Inv(s') && s' == Set(s, i, s.slots[i].(ops := {})).(hands := map[])
  {
    var s3 := s.(hands := map[]);
    assert s.hands - {o} == map[];
    LeadsStep(s, HandBack(i, o), s3);
    s' := Set(s3, i, s.slots[i].(ops := {}));
    assert s.slots[i].ops - {o} == {};
    LeadsStep(s3, ExitOp(i, o), s');
    LeadsOn(s, s3, s');
  }

  /** A worker pops the top block and hands it back. */
  lemma HandBackOne(s: State, i: nat, l: nat) returns (s': State)
    requires Turn(s, i, l) && s.lists[l] != []
    ensures Leads(s, s') && Turn(s', i, l) && s'.lists == s.lists[l := s.lists[l][1..]] && s'.lost == s.lost
  {
    var s2 := PopOne(s, i, l);
    s' := ReturnOne(s2, i, s.nextOp, s.lists[l][0]);
    LeadsOn(s, s2, s');
    forall j | 0 <= j < PARTICIPANTS ensures RestsAt(s', j) { assert RestsAt(s, j) && RestsAt(s, i); }
  }

  lemma {:induction false} EmptyList(s: State, i: nat, l: nat) returns (s': State)
    requires Turn(s, i, l)
    ensures Leads(s, s') && Turn(s', i, l) && s'.lists == s.lists[l := []] && s'.lost == s.lost
    decreases |s.lists[l]|
  {
    if s.lists[l] == [] {
      s' := s;
      LeadsNowhere(s);
    } else {
      var s1 := HandBackOne(s, i, l);
      s' := EmptyList(s1, i, l);
      LeadsOn(s, s1, s');
    }
  }

  lemma {:induction false} EmptyLists(s: State, i: nat, n: nat) returns (s': State)
    requires Resting(s) && i < PARTICIPANTS && s.slots[i].stage == Joined && n <= LIST_COUNT
    ensures Leads(s, s') && Resting(s') && s'.slots[i].stage == Joined && s'.lost == s.lost
    ensures forall l :: 0 <= l < n ==> s'.lists[l] == []
  {
    if n == 0 {
      s' := s;
      LeadsNowhere(s);
    } else {
      var s1 := EmptyLists(s, i, n - 1);
      var s2 := TurnComes(s1, i, n - 1);
      s' := EmptyList(s2, i, n - 1);
      LeadsOn(s, s1, s2);
      LeadsOn(s, s2, s');
    }
  }

  lemma {:induction false} NoNewDeferrals(steps: seq<Step>, more: seq<Step>, t: nat, unit: nat)
    requires |steps| <= t <= |steps + more| && forall u :: 0 <= u < |more| ==> Works(more[u])
    ensures Deferrals(steps + more, t, unit) == Deferrals(steps, |steps|, unit)
    decreases t
  {
    if t > |steps| {
      assert (steps + more)[t - 1] == more[t - 1 - |steps|];
      NoNewDeferrals(steps, more, t - 1, unit);
    } else {
      L.DeferralsSoFar(steps, more, t, unit);
    }
  }

  // ---- coming to rest

  /** The slots other than `k` are as they were, no list has changed, and nothing more is lost. */
  ghost predicate Settles(s: State, s': State, k: nat) {
    && Leads(s, s') && Inv(s') && Inv(s) && Same(s, s')
    && forall j :: 0 <= j < PARTICIPANTS && j != k ==> s'.slots[j] == s.slots[j]
  }

  lemma SettlesOn(s: State, s1: State, s2: State, k: nat)
    requires Settles(s, s1, k) && Settles(s1, s2, k)
    ensures Settles(s, s2, k)
  {
    LeadsOn(s, s1, s2);
  }

  lemma SettlesNowhere(s: State, k: nat)
    requires Inv(s)
    ensures Settles(s, s, k)
  {
    LeadsNowhere(s);
  }

  /** A step of participant `k` other than the one that takes a block. */
  lemma SettleStep(s: State, step: Step, s': State)
    requires Inv(s) && Next(s, step, s') && Works(step) && !step.Take?
    ensures Settles(s, s', step.i)
  {
    LeadsStep(s, step, s');
  }

  /** It finishes joining, or its slot is cleared. */
  lemma FinishStage(s: State, k: nat) returns (s': State)
    requires Inv(s) && k < PARTICIPANTS
    ensures Settles(s, s', k) && (s'.slots[k].stage.Vacant? || s'.slots[k].stage.New? || s'.slots[k].stage.Joined?)
    ensures s.slots[k].stage == Frozen ==>
              s'.slots[k].stage == Joined && s'.slots[k].ops == s.slots[k].ops && s'.slots[k].scan == s.slots[k].scan
  {
    var p := s.slots[k];
    match p.stage
    case Frozen =>
      var s1 := Set(s, k, p.(stage := Joining(s.frontier)));
      SettleStep(s, ReadFrontierToJoin(k), s1);
      s' := Set(s1, k, Publish(s1.slots[k], k, s.frontier, Joined));
      SettleStep(s1, EpochReclamation.Join(k), s');
      SettlesOn(s, s1, s', k);
    case Joining(v) =>
      s' := Set(s, k, Publish(p, k, v, Joined));
      SettleStep(s, EpochReclamation.Join(k), s');
    case Reporting(v) =>
      s' := Set(s, k, Publish(p, k, v, Joined));
      SettleStep(s, Report(k), s');
    case Dead =>
      s' := Set(s, k, VacantSlot());
      SettleStep(s, ClearDead(k), s');
    case _ =>
      s' := s;
      SettlesNowhere(s, k);
  }

  /** Its operations hand back what they have in hand, and end. */
  lemma {:induction false} FinishOps(s: State, k: nat) returns (s': State)
    requires Inv(s) && k < PARTICIPANTS && s.slots[k].stage == Joined
    ensures Settles(s, s', k) && s'.slots[k] == s.slots[k].(ops := {})
    decreases |s.slots[k].ops|
  {
    if s.slots[k].ops == {} {
      s' := s;
      SettlesNowhere(s, k);
    } else {
      var op :| op in s.slots[k].ops;
      var s1 := FinishOp(s, k, op);
      s' := FinishOps(s1, k);
      SettlesOn(s, s1, s', k);
    }
  }

  lemma FinishOp(s: State, k: nat, op: OpId) returns (s': State)
    requires Inv(s) && k < PARTICIPANTS && op in s.slots[k].ops
    ensures Settles(s, s', k) && s'.slots[k] == s.slots[k].(ops := s.slots[k].ops - {op})
  {
    var s1 := s;
    if op in s.hands {
      s1 := s.(hands := s.hands - {op});
      SettleStep(s, HandBack(k, op), s1);
    } else {
      SettlesNowhere(s, k);
    }
    s' := Set(s1, k, s.slots[k].(ops := s.slots[k].ops - {op}));
    SettleStep(s1, ExitOp(k, op), s');
    SettlesOn(s, s1, s', k);
  }

  /** Its scan goes on to the end, whatever it decides. */
  lemma {:induction false} FinishScan(s: State, k: nat) returns (s': State)
    requires Inv(s) && k < PARTICIPANTS && s.slots[k].stage == Joined && s.slots[k].ops == {}
    ensures Settles(s, s', k) && s'.slots[k].stage == Joined && RestsAt(s', k)
    decreases match s.slots[k].scan { case NoScan => 0 case Scanning(_, n, _) => PARTICIPANTS + 1 - n
                                      case Flushed => PARTICIPANTS + 2 }
  {
    assert ScanOk(s, k);
    var p := s.slots[k];
    match p.scan
    case NoScan =>
      s' := s;
      SettlesNowhere(s, k);
    case Flushed =>
      var s1 := Set(s, k, p.(scan := Scanning(s.frontier, 0, true)));
      SettleStep(s, ScanFrontier(k), s1);
      s' := FinishScan(s1, k);
      SettlesOn(s, s1, s', k);
    case Scanning(f, n, allIn) =>
      if n < PARTICIPANTS {
        var r := Reads(s, k, n);
        var s1 := Set(s, k, p.(
                    cache := p.cache[n := r], scan := Scanning(f, n + 1, allIn && !(r >= MIN_ACTIVE && r != f))));
        SettleStep(s, ScanSlot(k), s1);
        s' := FinishScan(s1, k);
        SettlesOn(s, s1, s', k);
      } else {
        s' := Set(s, k, p.(scan := NoScan)).(
                frontier := if allIn && s.frontier == f then s.frontier + 1 else s.frontier);
        SettleStep(s, EndScan(k), s');
      }
  }

  /** A slot that is at rest, and not that of a dead process. */
  ghost predicate Settled(s: State, k: nat) {
    k < |s.slots| && RestsAt(s, k)
    && (s.slots[k].stage.Vacant? || s.slots[k].stage.New? || s.slots[k].stage.Joined?)
  }

  lemma SettleOne(s: State, k: nat) returns (s': State)
    requires Inv(s) && k < PARTICIPANTS
    ensures Settles(s, s', k) && Settled(s', k)
  {
    s' := FinishStage(s, k);
    if s'.slots[k].stage.Joined? {
      var s1 := FinishOps(s', k);
      SettlesOn(s, s', s1, k);
      s' := FinishScan(s1, k);
      SettlesOn(s, s1, s', k);
    } else {
      assert SlotOk(s', k);
    }
  }

  lemma {:induction false} SettleAll(s: State, n: nat) returns (s': State)
    requires Inv(s) && n <= PARTICIPANTS
    ensures Leads(s, s') && Inv(s') && Same(s, s') && forall k :: 0 <= k < n ==> Settled(s', k)
  {
    if n == 0 {
      s' := s;
      LeadsNowhere(s);
    } else {
      var s1 := SettleAll(s, n - 1);
      s' := SettleOne(s1, n - 1);
      LeadsOn(s, s1, s');
      forall k | 0 <= k < n ensures Settled(s', k) { if k != n - 1 { assert Settled(s1, k); } }
    }
  }

  /** A process joins through slot `k`. */
  lemma JoinThrough(s: State, k: nat) returns (s': State)
    requires Inv(s) && k < PARTICIPANTS && Settled(s, k)
    ensures Settles(s, s', k) && s'.slots[k].stage == Joined && RestsAt(s', k)
  {
    assert SlotOk(s, k);
    s' := s;
    SettlesNowhere(s, k);
    if s.slots[k].stage.Vacant? {
      s' := Set(s, k, Participant(New, NEW_PARTICIPANT, map[], NoScan, {}));
      SettleStep(s, Register(k), s');
    }
    if s'.slots[k].stage.New? {
      var s1 := s';
      assert SlotOk(s1, k);
      var s2 := Set(s1, k, Publish(s1.slots[k], k, MIN_ACTIVE, Frozen));
      SettleStep(s1, Freeze(k), s2);
      SettlesOn(s, s1, s2, k);
      s' := FinishStage(s2, k);
      SettlesOn(s, s2, s', k);
      assert SlotOk(s', k);
    }
  }

  /** From every reachable state the processes can come to rest, one of them joined. */
  lemma ComeToRest(s: State) returns (s': State)
    requires Inv(s)
    ensures Leads(s, s') && Resting(s') && Same(s, s') && s'.slots[0].stage == Joined
  {
    var s1 := SettleAll(s, PARTICIPANTS);
    assert Settled(s1, 0);
    s' := JoinThrough(s1, 0);
    LeadsOn(s, s1, s');
    forall k | 0 <= k < PARTICIPANTS ensures RestsAt(s', k) { if k != 0 { assert Settled(s1, k); } }
  }

  /** Every run can go on, with no further deferral or death, so that every block ever deferred has been handed
      back, each as often as it was deferred, but for those that died with their worker. */
  lemma EverythingComesBack(states: seq<State>, steps: seq<Step>) returns (states': seq<State>, steps': seq<Step>)
    requires IsRun(states, steps)
    ensures IsRun(states', steps') && states <= states' && steps <= steps'
    ensures states'[|steps'|].lost == states[|steps|].lost
    ensures forall unit :: Deferrals(steps', |steps'|, unit) == Deferrals(steps, |steps|, unit)
                        == HandBacks(states', steps', |steps'|, unit) + Held(states[|steps|].lost, unit)
  {
    var s := states[|steps|];
    RunInv(states, steps, |steps|);
    var s1 := ComeToRest(s);
    var s' := EmptyLists(s1, 0, LIST_COUNT);
    LeadsOn(s, s1, s');
    var two, more :| LeadsBy(two, more, s, s');
    Append(states, steps, two, more);
    states', steps' := states[..|steps|] + two, steps + more;
    forall unit
      ensures Deferrals(steps', |steps'|, unit) == Deferrals(steps, |steps|, unit)
           == HandBacks(states', steps', |steps'|, unit) + Held(s.lost, unit)
    {
      NoNewDeferrals(steps, more, |steps'|, unit);
      DeferredIsConserved(states', steps', |steps'|, unit);
      NothingWaiting(s'.lists, unit);
      RestingHands(s');
      assert Holders(s'.hands, unit) == {};
    }
  }
}
