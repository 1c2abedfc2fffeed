/** How a stop can come to commit over an active run: only after one of three events. */
module RunCauses {
  import opened Types
  import opened Lifecycle
  import Identity
  import OneRun

  /** The commit that marks a run started, or the one that marks it ended in failure, fails
      itself; or a quarantine other than the terminator's kill starts while somebody else holds
      the lifecycle token. */
  predicate Disturbs(s: State, e: Event) {
    match e
    case Reject(op) => op.RunStart? || (op.RunEnd? && !op.outcome.Success?)
    case StopStarts(_, kind) => kind.Quarantine? && s.token
    case _ => false
  }

  predicate AdmitSettled(s: State, run: Id) {
    s.settled == Some(Admit(run, false))
  }

  predicate Admitting(op: Option<Op>) {
    op.Some? && op.value.Admit?
  }

  /** The run has an execution, or is about to be given one. */
  predicate Live(s: State, run: Id) {
    (run in s.frames && !OneRun.Ended(s, run)) || AdmitSettled(s, run)
  }

  predicate NotStarted(s: State, run: Id) {
    AdmitSettled(s, run) || (run in s.frames && s.frames[run].Starting? && s.settled != Some(RunStart(run)))
  }

  predicate Occupied(s: State) {
    || (s.registered.Some? && !OneRun.Ended(s, s.registered.value))
    || (s.settled.Some? && s.settled.value.Admit? && !s.settled.value.violation)
  }

  ghost predicate FramesSound(s: State) {
    && (forall run | run in s.frames :: s.registered == Some(run))
    && (s.registered.Some? ==> s.registered.value in s.frames)
    && (s.settled.Some? && s.settled.value.Admit? && !s.settled.value.violation ==> s.frames == map[])
  }

  ghost predicate RunsSound(s: State) {
    && (forall run :: s.rows.ActiveRun(run) <==> Live(s, run))
    && (forall run | Live(s, run) :: run in s.rows.runs && (s.rows.runs[run].Queued? <==> NotStarted(s, run)))
  }

  ghost predicate AgentSound(s: State) {
    s.rows.ActiveAgent() <==> Occupied(s)
  }

  ghost predicate NobodySound(s: State) {
    s.rows.agent.None? ==> !Occupied(s)
  }

  /** A call that has been made is still the one its caller is waiting for. */
  predicate Pinned(s: State, op: Op) {
    op.Admit? || Wanted(s, op)
  }

  ghost predicate OpsSound(s: State) {
    && (s.flight.Some? ==> Pinned(s, s.flight.value) && OneRun.Found(s.rows, s.flight.value) && !Made(s.settled, s.flight.value))
    && (s.settled.Some? ==> Pinned(s, s.settled.value))
  }

  predicate NoAdmission(s: State) {
    !Admitting(s.flight) && !Admitting(s.settled)
  }

  ghost predicate ThreadSound(s: State, t: Id)
    requires t in s.stops
  {
    var f := s.stops[t];
    && (f.owns ==> s.token)
    && (!f.owns ==> f.kind.Kill?)
    && (f.kind.Kill? ==> s.termination.Some? && s.termination.value.pc == Killing(Some(t)))
    && (!f.pc.Denying? || s.settled == Some(Deny(t)) ==> NoAdmission(s))
    && (f.pc.AwaitingRun? ==> forall run | run in s.frames :: f.pc.run == Some(run))
    && (f.pc.Finalising? ==> s.frames == map[])
  }

  ghost predicate StopsSound(s: State) {
    && (forall t | t in s.stops :: ThreadSound(s, t))
    && (forall t, u | t in s.stops && u in s.stops && s.stops[t].owns && s.stops[u].owns :: t == u)
  }

  ghost predicate BarrierSound(s: State) {
    (s.termination.Some? ==> s.terminating) && (s.terminating ==> s.barrier)
  }

  ghost predicate IdsSound(s: State) {
    forall id | id in s.requested :: id in s.owner
  }

  /** What is said of the rows and of the executions. */
  ghost predicate CoreInv(s: State) {
    FramesSound(s) && RunsSound(s) && AgentSound(s) && NobodySound(s) && OneRun.ApprovalsBegun(s.rows)
  }

  ghost predicate Inv(s: State) {
    CoreInv(s) && OpsSound(s) && StopsSound(s) && BarrierSound(s) && IdsSound(s)
  }

  // --- Restart -----------------------------------------------------------

  /** Whatever rows are stored, the start-up pass establishes the invariant. */
  lemma BootEstablishes(rows: Rows, ledger: Identity.Ledger, receipts: seq<bool>, owner: map<Id, Option<Id>>)
    ensures Inv(Booted(rows, ledger, receipts, owner))
    ensures forall run :: !Recover(rows).ActiveRun(run)
    ensures !Recover(rows).ActiveAgent()
    ensures forall id | id in Recover(rows).approvals :: !Recover(rows).approvals[id].decision.Pending?
  {
  }

  // --- Begin and in-memory events ----------------------------------------

  predicate SameCore(s: State, s': State) {
    && s'.rows == s.rows && s'.settled == s.settled
    && s'.registered == s.registered && s'.frames == s.frames
  }

  lemma CoreKept(s: State, s': State)
    requires CoreInv(s) && SameCore(s, s')
    ensures CoreInv(s')
  {
  }

  /** Threads do not notice what happens to executions that only become fewer, or to calls
      that are only forgotten. */
  ghost predicate SameStops(s: State, s': State) {
    && s'.stops == s.stops && s'.termination == s.termination
    && s'.token == s.token && s'.barrier == s.barrier && s'.terminating == s.terminating
    && (s'.flight == s.flight || s'.flight.None?) && (s'.settled == s.settled || s'.settled.None?)
    && s'.frames.Keys <= s.frames.Keys
  }

  lemma StopsKept(s: State, s': State)
    requires StopsSound(s) && BarrierSound(s) && SameStops(s, s')
    ensures StopsSound(s') && BarrierSound(s')
  {
    forall t | t in s'.stops
      ensures ThreadSound(s', t)
    {
      assert ThreadSound(s, t);
    }
  }

  lemma BeginStops(s: State, op: Op)
    requires StopsSound(s) && BarrierSound(s) && Enabled(s, Begin(op))
    ensures StopsSound(Step(s, Begin(op)))
  {
    var s' := s.(flight := Some(op));
    forall t | t in s'.stops
      ensures ThreadSound(s', t)
    {
      assert ThreadSound(s, t);
    }
  }

  lemma BeginOps(s: State, op: Op)
    requires OpsSound(s) && Enabled(s, Begin(op))
    ensures OpsSound(Step(s, Begin(op)))
  {
  }

  lemma BeginKeeps(s: State, op: Op)
    requires Inv(s) && Enabled(s, Begin(op))
    ensures Inv(Step(s, Begin(op)))
  {
    CoreKept(s, s.(flight := Some(op)));
    BeginStops(s, op);
    BeginOps(s, op);
  }

  ghost predicate CallsPinned(s: State, s': State) {
    && (s.flight.Some? && Pinned(s, s.flight.value) ==> Pinned(s', s.flight.value))
    && (s.settled.Some? && Pinned(s, s.settled.value) ==> Pinned(s', s.settled.value))
  }

  /** Moving one started execution between two awaits. */
  lemma FrameMoves(s: State, s': State, run: Id)
    requires Inv(s) && run in s.frames
    requires !s.frames[run].Starting? && run in s'.frames && !s'.frames[run].Starting?
    requires CallsPinned(s, s') && !OneRun.Ended(s, run)
    requires s'.frames == s.frames[run := s'.frames[run]]
    requires s' == s.(frames := s'.frames, entries := s'.entries, entered := s'.entered, owner := s'.owner, told := s'.told)
    requires s.entered <= s'.entered && s.owner.Keys <= s'.owner.Keys
    requires forall id, r | id in s'.owner && s'.owner[id] == Some(r) && (id !in s.owner || s.owner[id] != Some(r)) :: r == run
    ensures Inv(s')
  {
    assert Live(s, run) && s.rows.ActiveRun(run);
    forall r
      ensures Live(s', r) <==> Live(s, r)
    {
    }
    StopsKept(s, s');
  }

  /** As above, when the execution was waiting for no store call. */
  lemma FreeFrameMoves(s: State, s': State, run: Id)
    requires Inv(s) && run in s.frames
    requires !s.frames[run].Starting? && !s.frames[run].Publishing? && !s.frames[run].Ending?
    requires run in s'.frames && !s'.frames[run].Starting?
    requires s'.frames == s.frames[run := s'.frames[run]]
    requires s' == s.(frames := s'.frames, entries := s'.entries, entered := s'.entered, owner := s'.owner)
    requires s.entered <= s'.entered && s.owner.Keys <= s'.owner.Keys
    requires forall id, r | id in s'.owner && s'.owner[id] == Some(r) && (id !in s.owner || s.owner[id] != Some(r)) :: r == run
    ensures Inv(s')
  {
    assert CallsPinned(s, s');
    FrameMoves(s, s', run);
  }

  lemma FrameEventKeeps(s: State, e: Event)
    requires Inv(s) && Enabled(s, e) && FrameEvent(e)
    ensures Inv(Step(s, e))
  {
    hide Resumed, Rejected, RowsAfter, LedgerAfter, Booted, Passes, Wanted, Made;
    FreeFrameMoves(s, FrameStep(s, e), e.run);
  }

  lemma EgressEventOps(s: State, e: Event)
    requires OpsSound(s) && IdsSound(s) && Enabled(s, e) && (e.EgressAsks? || e.EgressClears?)
    ensures OpsSound(Step(s, e)) && IdsSound(Step(s, e))
  {
  }

  lemma EgressEventShape(s: State, e: Event)
    requires Enabled(s, e) && (e.EgressAsks? || e.EgressClears?)
    ensures SameCore(s, Step(s, e)) && SameStops(s, Step(s, e))
  {
  }

  lemma EgressEventKeeps(s: State, e: Event)
    requires Inv(s) && Enabled(s, e) && (e.EgressAsks? || e.EgressClears?)
    ensures Inv(Step(s, e))
  {
    hide Step;
    EgressEventShape(s, e);
    CoreKept(s, Step(s, e));
    StopsKept(s, Step(s, e));
    EgressEventOps(s, e);
  }

  // --- Stops, quarantines, deletions and kills ---------------------------

  /** Only bookkeeping of threads and of termination changes. */
  ghost predicate OnlyThreads(s: State, s': State) {
    && SameCore(s, s') && s'.flight == s.flight
    && s'.owner == s.owner && s'.requested == s.requested && s'.entered == s.entered
  }

  lemma OnlyThreadsKeeps(s: State, s': State)
    requires Inv(s) && OnlyThreads(s, s') && CallsPinned(s, s')
    ensures CoreInv(s') && OpsSound(s') && IdsSound(s')
  {
    CoreKept(s, s');
  }

  lemma StopStartsThreads(s: State, thread: Id, kind: StopKind)
    requires StopsSound(s) && Enabled(s, StopStarts(thread, kind)) && !Disturbs(s, StopStarts(thread, kind))
    requires s.settled != Some(Deny(thread))
    ensures StopsSound(Step(s, StopStarts(thread, kind)))
  {
    var s' := Step(s, StopStarts(thread, kind));
    forall t | t in s'.stops
      ensures ThreadSound(s', t)
    {
      if t != thread {
        assert ThreadSound(s, t);
      }
    }
    forall t, u | t in s'.stops && u in s'.stops && s'.stops[t].owns && s'.stops[u].owns
      ensures t == u
    {
      assert t != thread ==> ThreadSound(s, t);
      assert u != thread ==> ThreadSound(s, u);
    }
  }

  lemma StopStartsShape(s: State, thread: Id, kind: StopKind)
    requires OpsSound(s) && Enabled(s, StopStarts(thread, kind))
    ensures var s' := Step(s, StopStarts(thread, kind));
            OnlyThreads(s, s') && CallsPinned(s, s') && (BarrierSound(s) ==> BarrierSound(s'))
  {
    hide Resumed, Rejected, RowsAfter, LedgerAfter, Booted, Passes, NextFrame, FrameStep;
  }

  lemma StopStartsKeeps(s: State, thread: Id, kind: StopKind)
    requires Inv(s) && Enabled(s, StopStarts(thread, kind)) && !Disturbs(s, StopStarts(thread, kind))
    ensures Inv(Step(s, StopStarts(thread, kind)))
  {
    hide Step;
    StopStartsThreads(s, thread, kind);
    StopStartsShape(s, thread, kind);
    OnlyThreadsKeeps(s, Step(s, StopStarts(thread, kind)));
  }

  lemma ShutOut(s: State, t: Id, op: Op)
    requires Inv(s) && t in s.stops && op.Admit?
    ensures !Passes(s, op)
  {
    assert ThreadSound(s, t);
  }

  lemma CancelReturnsKeeps(s: State, thread: Id, ok: bool)
    requires Inv(s) && Enabled(s, CancelReturns(thread, ok))
    ensures Inv(Step(s, CancelReturns(thread, ok)))
  {
    hide Resumed, Rejected, RowsAfter, LedgerAfter, Booted, Passes, NextFrame, FrameStep;
    var s' := Step(s, CancelReturns(thread, ok));
    OnlyThreadsKeeps(s, s');
    assert ThreadSound(s, thread);
    forall t | t in s'.stops
      ensures ThreadSound(s', t)
    {
      assert ThreadSound(s, t);
    }
  }

  /** A thread that ends gives back only its own token. */
  lemma ReleaseKeeps(s: State, thread: Id, ok: bool)
    requires Inv(s) && thread in s.stops
    requires s.flight.Some? ==> s.flight.value != Deny(thread) && s.flight.value != Final(thread, s.stops[thread].kind)
    requires s.settled.Some? ==> s.settled.value != Deny(thread) && s.settled.value != Final(thread, s.stops[thread].kind)
    ensures Inv(s.Release(thread, ok))
  {
    var s' := s.Release(thread, ok);
    assert ThreadSound(s, thread);
    OnlyThreadsKeeps(s, s');
    forall t | t in s'.stops
      ensures ThreadSound(s', t)
    {
      assert ThreadSound(s, t);
    }
  }

  lemma CalmKeeps(s: State)
    requires Inv(s)
    ensures Inv(s.(cancels := false))
  {
    var s' := s.(cancels := false);
    OnlyThreadsKeeps(s, s');
    StopsKept(s, s');
  }

  lemma ExecutionSettlesKeeps(s: State, thread: Id)
    requires Inv(s) && Enabled(s, ExecutionSettles(thread))
    ensures Inv(Step(s, ExecutionSettles(thread)))
  {
    hide Resumed, Rejected, RowsAfter, LedgerAfter, Booted, Passes, NextFrame, FrameStep;
    CalmKeeps(s);
    var calm := s.(cancels := false);
    if s.stops[thread].pc.cancelled {
      AdvanceKeeps(calm, thread);
    } else {
      ReleaseKeeps(calm, thread, false);
    }
  }

  lemma AdvanceShape(s: State, thread: Id)
    requires Inv(s) && Enabled(s, ExecutionSettles(thread))
    ensures thread in s.stops && s.frames == map[]
    ensures var s' := s.(stops := s.stops[thread := s.stops[thread].(pc := Finalising)]); OnlyThreads(s, s') && CallsPinned(s, s')
  {
    hide Resumed, Rejected, RowsAfter, LedgerAfter, Booted, Passes, NextFrame, FrameStep;
    assert ThreadSound(s, thread);
  }

  lemma AdvanceKeeps(s: State, thread: Id)
    requires Inv(s) && Enabled(s, ExecutionSettles(thread))
    ensures Inv(s.(stops := s.stops[thread := s.stops[thread].(pc := Finalising)]))
  {
    hide Resumed, Rejected, RowsAfter, LedgerAfter, Booted, Passes, NextFrame, FrameStep;
    var s' := s.(stops := s.stops[thread := s.stops[thread].(pc := Finalising)]);
    AdvanceShape(s, thread);
    OnlyThreadsKeeps(s, s');
    forall t | t in s'.stops
      ensures ThreadSound(s', t)
    {
      assert ThreadSound(s, t);
    }
  }

  lemma TermEventShape(s: State, e: Event)
    requires Inv(s) && Enabled(s, e) && TermEvent(e)
    ensures var s' := Step(s, e); OnlyThreads(s, s') && CallsPinned(s, s') && s'.stops == s.stops
  {
    hide Resumed, Rejected, RowsAfter, LedgerAfter, Booted, Passes, NextFrame, FrameStep;
  }

  lemma TermEventKeeps(s: State, e: Event)
    requires Inv(s) && Enabled(s, e) && TermEvent(e)
    ensures Inv(Step(s, e))
  {
    hide Resumed, Rejected, RowsAfter, LedgerAfter, Booted, Passes, NextFrame, FrameStep;
    var s' := Step(s, e);
    TermEventShape(s, e);
    OnlyThreadsKeeps(s, s');
    forall t | t in s'.stops
      ensures ThreadSound(s', t)
    {
      assert ThreadSound(s, t);
    }
  }

  // --- Rejected calls ----------------------------------------------------

  lemma DropFlightKeeps(s: State)
    requires Inv(s)
    ensures Inv(s.(flight := None))
  {
    var s' := s.(flight := None);
    CoreKept(s, s');
    StopsKept(s, s');
  }

  lemma RejectedEgressKeeps(s: State, op: Op, lost: bool)
    requires Inv(s) && Pinned(s, op) && op.EgressPublish? && !Made(s.flight, op) && !Made(s.settled, op)
    ensures Inv(Rejected(s, op, lost))
  {
    var s' := Rejected(s, op, lost);
    CoreKept(s, s');
    StopsKept(s, s');
  }

  lemma RejectedTermKeeps(s: State, op: Op, lost: bool)
    requires Inv(s) && Pinned(s, op) && (op.RevokeBlock? || op.Persist?) && !Made(s.flight, op) && !Made(s.settled, op)
    ensures Inv(Rejected(s, op, lost))
  {
    var s' := Rejected(s, op, lost);
    OnlyThreadsKeeps(s, s');
    forall t | t in s'.stops
      ensures ThreadSound(s', t)
    {
      assert ThreadSound(s, t);
    }
  }

  lemma RejectedFrameKeeps(s: State, op: Op, lost: bool)
    requires Inv(s) && Pinned(s, op) && !Made(s.flight, op) && !Made(s.settled, op)
    requires op.GatePublish? || (op.RunEnd? && op.outcome.Success?)
    ensures Inv(Rejected(s, op, lost))
  {
    var s' := Rejected(s, op, lost);
    assert CallsPinned(s, s');
    FrameMoves(s, s', op.run);
  }

  lemma RejectedKeeps(s: State, op: Op, lost: bool)
    requires Inv(s) && Pinned(s, op) && !Made(s.flight, op) && !Made(s.settled, op)
    requires !op.RunStart? && !(op.RunEnd? && !op.outcome.Success?)
    ensures Inv(Rejected(s, op, lost))
  {
    match op
    case GatePublish(run, _) => RejectedFrameKeeps(s, op, lost);
    case RunEnd(run, _) => RejectedFrameKeeps(s, op, lost);
    case EgressPublish(_, _) => RejectedEgressKeeps(s, op, lost);
    case Deny(thread) =>
      CalmKeeps(s);
      ReleaseKeeps(s.(cancels := false), thread, false);
    case Final(thread, _) => ReleaseKeeps(s, thread, false);
    case RevokeBlock(_) => RejectedTermKeeps(s, op, lost);
    case Persist(_) => RejectedTermKeeps(s, op, lost);
    case _ =>
  }

  lemma RejectKeeps(s: State, op: Op)
    requires Inv(s) && Enabled(s, Reject(op)) && !Disturbs(s, Reject(op))
    ensures Inv(Step(s, Reject(op)))
  {
    if s.flight == Some(op) {
      DropFlightKeeps(s);
      RejectedKeeps(s.(flight := None), op, true);
    } else {
      RejectedKeeps(s, op, false);
    }
  }

  // --- Continuations -----------------------------------------------------

  lemma AdmittedCore(s: State, run: Id)
    requires Inv(s) && s.settled == Some(Admit(run, false))
    ensures CoreInv(Step(s, Continue))
  {
    var s' := Step(s, Continue);
    forall r
      ensures Live(s', r) <==> Live(s, r)
    {
    }
  }

  lemma AdmittedOps(s: State, run: Id)
    requires FramesSound(s) && AgentSound(s) && OpsSound(s) && s.settled == Some(Admit(run, false))
    ensures OpsSound(Step(s, Continue))
  {
    var s' := s.Frame(run, Starting).(registered := Some(run), settled := None);
    assert Step(s, Continue) == s';
    assert s.rows.ActiveAgent();
    if s.flight.Some? {
      PinnedByOthers(s, s.flight.value, run);
    }
  }

  /** Other calls do not notice that the first execution appears. */
  lemma PinnedByOthers(s: State, op: Op, run: Id)
    requires s.frames == map[] && Pinned(s, op) && OneRun.Found(s.rows, op) && !op.Admit?
    ensures var s' := s.Frame(run, Starting).(registered := Some(run), settled := None);
            Pinned(s', op) && OneRun.Found(s'.rows, op)
  {
  }

  lemma AdmittedStops(s: State, run: Id)
    requires Inv(s) && s.settled == Some(Admit(run, false))
    ensures StopsSound(Step(s, Continue))
  {
    var s' := Step(s, Continue);
    forall t | t in s'.stops
      ensures ThreadSound(s', t)
    {
      assert ThreadSound(s, t);
      assert s.stops[t].pc.Denying?;
    }
  }

  lemma EndedCore(s: State, run: Id, outcome: Outcome)
    requires CoreInv(s) && s.settled == Some(RunEnd(run, outcome)) && Pinned(s, RunEnd(run, outcome))
    ensures CoreInv(Step(s, Continue))
  {
    assert Step(s, Continue).frames == map[];
  }

  lemma EndedOps(s: State, run: Id, outcome: Outcome)
    requires FramesSound(s) && OpsSound(s) && s.settled == Some(RunEnd(run, outcome))
    ensures OpsSound(Step(s, Continue))
  {
    assert Step(s, Continue).frames == map[];
  }

  lemma EndedKeeps(s: State, run: Id, outcome: Outcome)
    requires Inv(s) && s.settled == Some(RunEnd(run, outcome))
    ensures Inv(Step(s, Continue))
  {
    EndedCore(s, run, outcome);
    EndedOps(s, run, outcome);
    StopsKept(s, Step(s, Continue));
  }

  /** A started run, or a published approval: one execution moves on. */
  lemma MovedOnCore(s: State, run: Id)
    requires CoreInv(s) && s.settled.Some? && Pinned(s, s.settled.value)
    requires s.settled.value == RunStart(run) || (s.settled.value.GatePublish? && s.settled.value.run == run)
    ensures CoreInv(Step(s, Continue))
  {
    var s' := Step(s, Continue);
    assert Live(s, run) && s.rows.ActiveRun(run);
    forall r
      ensures Live(s', r) <==> Live(s, r)
    {
    }
  }

  lemma MovedOnOps(s: State, run: Id)
    requires OpsSound(s) && s.settled.Some?
    requires s.settled.value == RunStart(run) || (s.settled.value.GatePublish? && s.settled.value.run == run)
    ensures OpsSound(Step(s, Continue))
  {
  }

  lemma MovedOnKeeps(s: State, run: Id)
    requires Inv(s) && s.settled.Some?
    requires s.settled.value == RunStart(run) || (s.settled.value.GatePublish? && s.settled.value.run == run)
    ensures Inv(Step(s, Continue))
  {
    MovedOnCore(s, run);
    MovedOnOps(s, run);
    StopsKept(s, Step(s, Continue));
  }

  /** Forgetting which call has settled, when no execution was waiting for it. */
  lemma ForgetSettledKeeps(s: State)
    requires Inv(s) && s.settled.Some?
    requires s.settled.value.Admit? ==> s.settled.value.violation
    requires !s.settled.value.RunStart? && !s.settled.value.RunEnd? && !s.settled.value.Deny?
    ensures Inv(s.(settled := None))
  {
    var s' := s.(settled := None);
    forall r
      ensures Live(s', r) <==> Live(s, r)
    {
    }
    StopsKept(s, s');
  }

  lemma DeniedCore(s: State, thread: Id)
    requires CoreInv(s) && s.settled == Some(Deny(thread)) && thread in s.stops
    ensures CoreInv(Step(s, Continue))
  {
    var s' := Step(s, Continue);
    assert s'.rows == s.rows && s'.frames == s.frames && s'.registered == s.registered && s'.settled.None?;
    forall r
      ensures Live(s', r) <==> Live(s, r)
    {
    }
  }

  lemma DeniedOps(s: State, thread: Id)
    requires OpsSound(s) && s.settled == Some(Deny(thread))
    ensures OpsSound(Step(s, Continue))
  {
  }

  lemma DeniedStops(s: State, thread: Id)
    requires StopsSound(s) && s.settled == Some(Deny(thread)) && thread in s.stops
    ensures StopsSound(Step(s, Continue))
  {
    var s' := Step(s, Continue);
    assert ThreadSound(s, thread);
    forall t | t in s'.stops
      ensures ThreadSound(s', t)
    {
      assert ThreadSound(s, t);
    }
  }

  lemma DeniedKeeps(s: State, thread: Id)
    requires Inv(s) && s.settled == Some(Deny(thread))
    ensures Inv(Step(s, Continue))
  {
    DeniedCore(s, thread);
    DeniedOps(s, thread);
    DeniedStops(s, thread);
  }

  lemma ResumedThreadKeeps(s: State, op: Op)
    requires Inv(s) && s.settled == Some(op) && (op.SetReady? || op.RevokeBlock? || op.Persist?)
    ensures Inv(Step(s, Continue))
  {
    hide Rejected, RowsAfter, LedgerAfter, Booted, Passes, NextFrame, FrameStep;
    ForgetSettledKeeps(s);
    var s0 := s.(settled := None);
    var s' := Step(s, Continue);
    OnlyThreadsKeeps(s0, s');
    forall t | t in s'.stops
      ensures ThreadSound(s', t)
    {
      assert ThreadSound(s0, t);
    }
  }

  lemma ResumedEgressKeeps(s: State, op: Op)
    requires Inv(s) && s.settled == Some(op) && (op.EgressPublish? || op.Resolve?)
    ensures Inv(Step(s, Continue))
  {
    ForgetSettledKeeps(s);
    var s0 := s.(settled := None);
    var s' := Step(s, Continue);
    CoreKept(s0, s');
    StopsKept(s0, s');
  }

  lemma StoppedKeeps(s: State, thread: Id, kind: StopKind)
    requires Inv(s) && s.settled == Some(Final(thread, kind))
    ensures Inv(Step(s, Continue))
  {
    ForgetSettledKeeps(s);
    ReleaseKeeps(s.(settled := None), thread, true);
  }

  /** Calls after which the caller has nothing to do. */
  lemma NothingToDoKeeps(s: State, op: Op)
    requires Inv(s) && s.settled == Some(op) && (op.LedgerOp? || (op.Admit? && op.violation))
    ensures Inv(Step(s, Continue))
  {
    ForgetSettledKeeps(s);
  }

  lemma AdmittedKeeps(s: State, run: Id)
    requires Inv(s) && s.settled == Some(Admit(run, false))
    ensures Inv(Step(s, Continue))
  {
    AdmittedCore(s, run);
    AdmittedOps(s, run);
    AdmittedStops(s, run);
  }

  lemma ContinueKeeps(s: State)
    requires Inv(s) && Enabled(s, Continue)
    ensures Inv(Step(s, Continue))
  {
    hide Step, Inv;
    var op := s.settled.value;
    match op
    case Admit(run, violation) =>
      if violation {
        NothingToDoKeeps(s, op);
      } else {
        AdmittedKeeps(s, run);
      }
    case RunStart(run) => MovedOnKeeps(s, run);
    case GatePublish(run, _) => MovedOnKeeps(s, run);
    case EgressPublish(_, _) => ResumedEgressKeeps(s, op);
    case Resolve(_, _) => ResumedEgressKeeps(s, op);
    case Deny(thread) => DeniedKeeps(s, thread);
    case Final(thread, kind) => StoppedKeeps(s, thread, kind);
    case SetReady => ResumedThreadKeeps(s, op);
    case RevokeBlock(_) => ResumedThreadKeeps(s, op);
    case Persist(_) => ResumedThreadKeeps(s, op);
    case RunEnd(run, outcome) => EndedKeeps(s, run, outcome);
    case LedgerOp(_) => NothingToDoKeeps(s, op);
  }

  // --- Commits -----------------------------------------------------------

  /** When no call is settled, an occupied agent is one with an execution. */
  lemma IdleHasNoExecution(s: State)
    requires Inv(s) && s.settled.None? && !s.rows.ActiveAgent()
    ensures s.frames == map[] && s.registered.None? && forall run :: !s.rows.ActiveRun(run)
  {
    forall run
      ensures !s.rows.ActiveRun(run)
    {
      assert s.rows.ActiveRun(run) ==> Live(s, run);
    }
  }

  lemma CommitThreads(s: State)
    requires Inv(s) && Enabled(s, Commit)
    ensures StopsSound(Step(s, Commit)) && BarrierSound(Step(s, Commit)) && IdsSound(Step(s, Commit))
  {
    var s' := Step(s, Commit);
    forall t | t in s'.stops
      ensures ThreadSound(s', t)
    {
      assert ThreadSound(s, t);
    }
  }

  lemma CommitOps(s: State)
    requires Inv(s) && Enabled(s, Commit)
    ensures OpsSound(Step(s, Commit))
  {
  }

  lemma CommitAdmit(s: State, run: Id, violation: bool)
    requires Inv(s) && s.settled.None? && s.flight == Some(Admit(run, violation))
    ensures CoreInv(Step(s, Commit))
  {
    IdleHasNoExecution(s);
    var s' := Step(s, Commit);
    forall r
      ensures s'.rows.ActiveRun(r) <==> Live(s', r)
    {
      assert !s.rows.ActiveRun(r);
    }
  }

  lemma CommitRunStart(s: State, run: Id)
    requires Inv(s) && s.settled.None? && s.flight == Some(RunStart(run))
    ensures CoreInv(Step(s, Commit))
  {
    var s' := Step(s, Commit);
    assert Live(s, run);
    forall r
      ensures s'.rows.ActiveRun(r) <==> Live(s', r)
    {
      assert s.rows.ActiveRun(r) <==> Live(s, r);
    }
  }

  lemma CommitPublish(s: State, run: Id, approval: Id)
    requires Inv(s) && s.settled.None?
    requires s.flight == Some(GatePublish(run, approval)) || s.flight == Some(EgressPublish(run, approval))
    ensures CoreInv(Step(s, Commit))
  {
    var s' := Step(s, Commit);
    assert s.rows.ActiveRun(run) <==> Live(s, run);
    assert s.rows.ActiveAgent();
    forall r
      ensures s'.rows.ActiveRun(r) <==> Live(s', r)
    {
      assert s.rows.ActiveRun(r) <==> Live(s, r);
    }
  }

  lemma ResolvedRunIsRunning(s: State, approval: Id, approve: bool)
    requires Inv(s) && s.flight == Some(Resolve(approval, approve))
    ensures ResolvedStatus(s.rows, approval, s.rows.approvals[approval].run) != Ready
  {
    assert !s.rows.runs[s.rows.approvals[approval].run].Queued?;
  }

  lemma CommitResolve(s: State, approval: Id, approve: bool)
    requires Inv(s) && s.settled.None? && s.flight == Some(Resolve(approval, approve))
    ensures CoreInv(Step(s, Commit))
  {
    ResolvedRunIsRunning(s, approval, approve);
    var s' := Step(s, Commit);
    forall r
      ensures s'.rows.ActiveRun(r) <==> Live(s', r)
    {
      assert s.rows.ActiveRun(r) <==> Live(s, r);
    }
  }

  lemma CommitDeny(s: State, thread: Id)
    requires Inv(s) && s.settled.None? && s.flight == Some(Deny(thread))
    ensures CoreInv(Step(s, Commit))
  {
    var s' := Step(s, Commit);
    forall r
      ensures s'.rows.ActiveRun(r) <==> Live(s', r)
    {
      assert s.rows.ActiveRun(r) <==> Live(s, r);
    }
  }

  lemma CommitFinal(s: State, thread: Id, kind: StopKind)
    requires Inv(s) && s.settled.None? && s.flight == Some(Final(thread, kind))
    ensures CoreInv(Step(s, Commit))
  {
    assert ThreadSound(s, thread);
    var s' := Step(s, Commit);
    forall r
      ensures s'.rows.ActiveRun(r) <==> Live(s', r)
    {
      assert s.rows.ActiveRun(r) <==> Live(s, r);
    }
  }

  lemma CommitRunEnd(s: State, run: Id, outcome: Outcome)
    requires Inv(s) && s.settled.None? && s.flight == Some(RunEnd(run, outcome))
    ensures CoreInv(Step(s, Commit))
  {
    var s' := Step(s, Commit);
    assert Live(s, run) && s.rows.ActiveRun(run);
    assert s.rows.ActiveAgent();
    forall r
      ensures s'.rows.ActiveRun(r) <==> Live(s', r)
    {
      assert s.rows.ActiveRun(r) <==> Live(s, r);
    }
  }

  lemma CommitOther(s: State, op: Op)
    requires Inv(s) && s.settled.None? && s.flight == Some(op)
    requires op.SetReady? || op.RevokeBlock? || op.Persist? || op.LedgerOp?
    ensures CoreInv(Step(s, Commit))
  {
    var s' := Step(s, Commit);
    forall r
      ensures s'.rows.ActiveRun(r) <==> Live(s', r)
    {
      assert s.rows.ActiveRun(r) <==> Live(s, r);
    }
  }

  lemma CommitKeeps(s: State)
    requires Inv(s) && Enabled(s, Commit)
    ensures Inv(Step(s, Commit))
  {
    CommitThreads(s);
    CommitOps(s);
    var op := s.flight.value;
    match op
    case Admit(run, violation) => CommitAdmit(s, run, violation);
    case RunStart(run) => CommitRunStart(s, run);
    case GatePublish(run, approval) => CommitPublish(s, run, approval);
    case EgressPublish(run, approval) => CommitPublish(s, run, approval);
    case Resolve(approval, approve) => CommitResolve(s, approval, approve);
    case Deny(thread) => CommitDeny(s, thread);
    case Final(thread, kind) => CommitFinal(s, thread, kind);
    case RunEnd(run, outcome) => CommitRunEnd(s, run, outcome);
    case _ => CommitOther(s, op);
  }

  // --- Whole runs --------------------------------------------------------

  lemma RestartKeeps(s: State, durable: bool)
    ensures Inv(Step(s, Restart(durable)))
  {
    var s' := Step(s, Restart(durable));
    if durable && s.flight.Some? {
      BootEstablishes(RowsAfter(s.rows, s.flight.value), s'.ledger, s'.receipts, s.owner);
    } else {
      BootEstablishes(s.rows, s.ledger, s.receipts, s.owner);
    }
  }

  lemma ThreadEventKeeps(s: State, e: Event)
    requires Inv(s) && Enabled(s, e) && !Disturbs(s, e) && (e.StopStarts? || e.CancelReturns? || e.ExecutionSettles?)
    ensures Inv(Step(s, e))
  {
    hide Step, Enabled, Inv;
    match e {
      case StopStarts(thread, kind) => StopStartsKeeps(s, thread, kind);
      case CancelReturns(thread, ok) => CancelReturnsKeeps(s, thread, ok);
      case ExecutionSettles(thread) => ExecutionSettlesKeeps(s, thread);
    }
  }

  lemma StoreEventKeeps(s: State, e: Event)
    requires Inv(s) && Enabled(s, e) && !Disturbs(s, e) && (e.Begin? || e.Commit? || e.Continue? || e.Reject? || e.Restart?)
    ensures Inv(Step(s, e))
  {
    hide Step, Enabled, Inv;
    match e {
      case Begin(op) => BeginKeeps(s, op);
      case Commit => CommitKeeps(s);
      case Continue => ContinueKeeps(s);
      case Reject(op) => RejectKeeps(s, op);
      case Restart(durable) => RestartKeeps(s, durable);
    }
  }

  lemma StepKeeps(s: State, e: Event)
    requires Inv(s) && Enabled(s, e) && !Disturbs(s, e)
    ensures Inv(Step(s, e))
  {
    hide Step, Enabled, Inv;
    if e.Begin? || e.Commit? || e.Continue? || e.Reject? || e.Restart? {
      StoreEventKeeps(s, e);
    } else if e.EgressAsks? || e.EgressClears? {
      EgressEventKeeps(s, e);
    } else if e.StopStarts? || e.CancelReturns? || e.ExecutionSettles? {
      ThreadEventKeeps(s, e);
    } else if FrameEvent(e) {
      FrameEventKeeps(s, e);
    } else {
      TermEventKeeps(s, e);
    }
  }

  /** Since the server was last started, either the invariant has held throughout, or one of the
      three has happened. */
  lemma {:induction false} KeptOrDisturbed(trace: seq<State>, events: seq<Event>, i: nat) returns (k: Option<nat>)
    requires IsRun(trace, events) && i < |trace|
    ensures k.None? ==> Inv(trace[i])
    ensures k.Some? ==> k.value < i && Disturbs(trace[k.value], events[k.value])
    ensures k.Some? ==> forall j | k.value < j < i :: !events[j].Restart?
  {
    hide Step, Enabled, Inv, Disturbs;
    if i == 0 {
      var rows, ledger, receipts, owner :| trace[0] == Booted(rows, ledger, receipts, owner);
      BootEstablishes(rows, ledger, receipts, owner);
      k := None;
    } else if events[i - 1].Restart? {
      RestartKeeps(trace[i - 1], events[i - 1].durable);
      k := None;
    } else {
      k := KeptOrDisturbed(trace, events, i - 1);
      if k.None? {
        if Disturbs(trace[i - 1], events[i - 1]) {
          k := Some(i - 1);
        } else {
          StepKeeps(trace[i - 1], events[i - 1]);
        }
      }
    }
  }

  lemma NoStopOverARun(s: State, e: Event)
    requires Inv(s) && Enabled(s, e)
    ensures !OneRun.StopsOverARun(s, e)
  {
    if e.Commit? && s.flight.value.Final? {
      assert ThreadSound(s, s.flight.value.thread);
      forall r
        ensures !s.rows.ActiveRun(r)
      {
        assert s.rows.ActiveRun(r) ==> Live(s, r);
      }
    }
  }

  /** A stop commits over an active run only if, since the server was last started, the commit
      that starts a run was lost, or the one that fails it, or a quarantine started beside
      another holder of the token. */
  lemma OnlyThreeCauses(trace: seq<State>, events: seq<Event>, i: nat) returns (k: nat)
    requires IsRun(trace, events) && i < |events| && OneRun.StopsOverARun(trace[i], events[i])
    ensures k < i && Disturbs(trace[k], events[k]) && forall j | k < j < i :: !events[j].Restart?
  {
    hide Step, Enabled, Inv, Disturbs, OneRun.StopsOverARun;
    var cause := KeptOrDisturbed(trace, events, i);
    if cause.None? {
      NoStopOverARun(trace[i], events[i]);
    } else {
      k := cause.value;
    }
  }

  /** Without any of the three, admission is shut while a stop, deletion, quarantine or kill is
      under way. */
  lemma AdmissionIsShut(trace: seq<State>, events: seq<Event>, i: nat, thread: Id, op: Op)
    requires IsRun(trace, events) && i < |trace| && forall k | 0 <= k < i :: !Disturbs(trace[k], events[k])
    requires thread in trace[i].stops && op.Admit?
    ensures !Passes(trace[i], op)
  {
    hide Step, Enabled, Inv, Disturbs, Passes;
    var cause := KeptOrDisturbed(trace, events, i);
    ShutOut(trace[i], thread, op);
  }

  /** So without any of the three, one run at a time. */
  lemma UndisturbedRunsOne(trace: seq<State>, events: seq<Event>, i: nat)
    requires IsRun(trace, events) && i < |trace| && forall k | 0 <= k < i :: !Disturbs(trace[k], events[k])
    ensures OneRun.OneActive(trace[i].rows)
  {
    hide Step, Enabled, Disturbs, OneRun.StopsOverARun, OneRun.OneActive;
    forall k | 0 <= k < i
      ensures !OneRun.StopsOverARun(trace[k], events[k])
    {
      if OneRun.StopsOverARun(trace[k], events[k]) {
        var cause := OnlyThreeCauses(trace, events, k);
      }
    }
    OneRun.OneActiveUntil(trace, events, i);
  }
}
