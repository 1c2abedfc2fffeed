/** At most one run at a time, and a status that says so: over every run of the service, this
    holds exactly as long as no stop commits over an active run. */
module OneRun {
  import opened Types
  import opened Lifecycle
  import ApprovalRuns
  import ApprovalProofs

  /** At most one queued or running run, and a busy or waiting agent exactly when there is one. */
  ghost predicate OneActive(rows: Rows) {
    && (forall r, q | rows.ActiveRun(r) && rows.ActiveRun(q) :: r == q)
    && (rows.ActiveAgent() <==> exists r :: rows.ActiveRun(r))
  }

  /** A stop, quarantine or kill sets the status although a run is on record as active, which its
      callback does not look for. */
  ghost predicate StopsOverARun(s: State, e: Event) {
    && e.Commit? && s.flight.Some? && s.flight.value.Final? && !s.flight.value.kind.Delete?
    && exists r :: s.rows.ActiveRun(r)
  }

  // --- Executions and their rows, in every run ---------------------------

  /** The run's own end is on the disk, and its execution is about to hear of it. */
  predicate Ended(s: State, run: Id) {
    s.settled.Some? && s.settled.value.RunEnd? && s.settled.value.run == run
  }

  predicate NotBegun(s: State, run: Id)
    requires run in s.frames
  {
    s.frames[run].Starting? && s.settled != Some(RunStart(run))
  }

  /** An execution's run is queued until its start commits and then running; once the agent is
      deleted it has no row. */
  predicate OnRecord(s: State, run: Id)
    requires run in s.frames
  {
    if s.rows.agent.None? then run !in s.rows.runs
    else run in s.rows.runs && s.rows.runs[run] == (if NotBegun(s, run) then Queued else Running)
  }

  ghost predicate FramesOnRecord(s: State) {
    forall run | run in s.frames && !Ended(s, run) :: OnRecord(s, run)
  }

  predicate AdmissionOnRecord(s: State) {
    s.settled.Some? && s.settled.value.Admit? && !s.settled.value.violation ==>
      s.rows.agent.Some? && s.settled.value.run in s.rows.runs && s.rows.runs[s.settled.value.run].Queued?
  }

  /** No approval belongs to a run that has not started. */
  predicate ApprovalsBegun(rows: Rows) {
    forall id | id in rows.approvals && rows.approvals[id].run in rows.runs :: !rows.runs[rows.approvals[id].run].Queued?
  }

  /** What the callback found in the rows is still so when its write completes. */
  predicate Found(rows: Rows, op: Op) {
    match op
    case Admit(run, _) =>
      && rows.agent.Some? && !rows.ActiveAgent() && run !in rows.runs
      && forall id | id in rows.approvals :: rows.approvals[id].run != run
    case EgressPublish(run, _) => rows.agent.Some? && run in rows.runs && rows.runs[run].Running?
    case Resolve(approval, _) =>
      && approval in rows.approvals && rows.approvals[approval].decision.Pending?
      && rows.ActiveRun(rows.approvals[approval].run)
    case SetReady => rows.agent.Some? && !rows.ActiveAgent()
    case _ => true
  }

  ghost predicate Sound(s: State) {
    && FramesOnRecord(s) && AdmissionOnRecord(s) && ApprovalsBegun(s.rows)
    && (s.flight.Some? ==> Found(s.rows, s.flight.value))
  }

  // --- Events that commit nothing ----------------------------------------

  predicate SameStore(s: State, s': State) {
    s'.rows == s.rows && (s'.flight == s.flight || s'.flight.None?)
  }

  /** Executions end, or move on after their start. */
  ghost predicate FramesMoveOn(s: State, s': State) {
    forall run | run in s'.frames ::
      run in s.frames && (s'.frames[run] == s.frames[run] || (!s.frames[run].Starting? && !s'.frames[run].Starting?))
  }

  predicate NoExecutionWaits(op: Op) {
    !op.RunStart? && !op.RunEnd? && (op.Admit? ==> op.violation)
  }

  lemma MovedKeeps(s: State, s': State)
    requires Sound(s) && SameStore(s, s') && FramesMoveOn(s, s')
    requires s'.settled == s.settled || (s'.settled.None? && s.settled.Some? && NoExecutionWaits(s.settled.value))
    ensures Sound(s')
  {
    forall run | run in s'.frames && !Ended(s', run)
      ensures OnRecord(s', run)
    {
      assert OnRecord(s, run);
    }
  }

  lemma BeginKeeps(s: State, op: Op)
    requires Sound(s) && Enabled(s, Begin(op))
    ensures Sound(Step(s, Begin(op)))
  {
    hide Resumed, Rejected, RowsAfter, LedgerAfter, Booted, NextFrame, FrameStep;
    var s' := Step(s, Begin(op));
    forall run | run in s'.frames && !Ended(s', run)
      ensures OnRecord(s', run)
    {
      assert OnRecord(s, run);
    }
  }

  lemma FrameEventKeeps(s: State, e: Event)
    requires Sound(s) && Enabled(s, e) && FrameEvent(e)
    ensures Sound(Step(s, e))
  {
    assert Step(s, e) == FrameStep(s, e);
    MovedKeeps(s, FrameStep(s, e));
  }

  lemma EgressAsksKeeps(s: State, run: Id, approval: Id)
    requires Sound(s) && Enabled(s, EgressAsks(run, approval))
    ensures Sound(Step(s, EgressAsks(run, approval)))
  {
    ApprovalRuns.EgressAsksShape(s, run, approval);
    MovedKeeps(s, Step(s, EgressAsks(run, approval)));
  }

  lemma RestartKeeps(s: State, durable: bool)
    ensures Sound(Step(s, Restart(durable)))
    ensures OneActive(Step(s, Restart(durable)).rows)
  {
    hide RowsAfter, LedgerAfter;
  }

  // --- Rejected calls ----------------------------------------------------

  lemma UnregisteredMoves(s: State, run: Id)
    ensures FramesMoveOn(s, s.Unregister(run))
  {
  }

  lemma FrameMoves(s: State, run: Id, f: Frame)
    requires run in s.frames && !s.frames[run].Starting? && !f.Starting?
    ensures FramesMoveOn(s, s.Frame(run, f))
  {
  }

  lemma RejectedRunMoves(s: State, op: Op, lost: bool)
    requires (op.RunStart? || op.GatePublish? || op.RunEnd?) && Wanted(s, op)
    ensures FramesMoveOn(s, Rejected(s, op, lost))
  {
    hide FramesMoveOn;
    if op.RunStart? || (op.RunEnd? && !op.outcome.Success?) {
      UnregisteredMoves(s, op.run);
      assert Rejected(s, op, lost) == s.Unregister(op.run);
    } else if op.RunEnd? {
      FrameMoves(s, op.run, Ending(Failure));
      assert Rejected(s, op, lost) == s.Frame(op.run, Ending(Failure));
    } else {
      RejectedGateMoves(s, op, lost);
    }
  }

  lemma RejectedGateMoves(s: State, op: Op, lost: bool)
    requires op.GatePublish? && Wanted(s, op)
    ensures FramesMoveOn(s, Rejected(s, op, lost))
  {
  }

  lemma RejectedMoves(s: State, op: Op, lost: bool)
    requires op.RunStart? || op.GatePublish? || op.RunEnd? ==> Wanted(s, op)
    ensures SameStore(s, Rejected(s, op, lost)) && FramesMoveOn(s, Rejected(s, op, lost)) && Rejected(s, op, lost).settled == s.settled
  {
    hide Rejected;
    ApprovalProofs.RejectedKeepsStored(s, op, lost);
    if op.RunStart? || op.GatePublish? || op.RunEnd? {
      RejectedRunMoves(s, op, lost);
    } else if op.EgressPublish? {
      RejectedRequestMoves(s, op, lost);
    } else {
      ApprovalRuns.RejectedElsewhere(s, op, lost);
    }
  }

  lemma RejectedRequestMoves(s: State, op: Op, lost: bool)
    requires op.EgressPublish?
    ensures FramesMoveOn(s, Rejected(s, op, lost))
  {
  }

  lemma RejectKeeps(s: State, op: Op)
    requires ApprovalRuns.Inv(s) && Sound(s) && Enabled(s, Reject(op))
    ensures Sound(Step(s, Reject(op)))
  {
    hide Step, Enabled, Rejected, Sound, Made, Wanted;
    var lost := s.flight == Some(op);
    var s0 := ApprovalRuns.Unmade(s, op);
    MovedKeeps(s, s0);
    RejectedMoves(s0, op, lost);
    MovedKeeps(s0, Rejected(s0, op, lost));
  }

  // --- Continuations -----------------------------------------------------

  lemma AdmittedKeeps(s: State, run: Id)
    requires Sound(s) && s.settled == Some(Admit(run, false))
    ensures Sound(Step(s, Continue))
  {
    hide Rejected, RowsAfter, LedgerAfter, Booted, Passes, NextFrame, FrameStep;
    ApprovalRuns.AdmittedShape(s, run);
    var s' := Step(s, Continue);
    forall r | r in s'.frames && !Ended(s', r)
      ensures OnRecord(s', r)
    {
      if r != run {
        assert OnRecord(s, r);
      }
    }
  }

  lemma StartedKeeps(s: State, run: Id)
    requires ApprovalRuns.Inv(s) && Sound(s) && s.settled == Some(RunStart(run))
    ensures Sound(Step(s, Continue))
  {
    hide Rejected, RowsAfter, LedgerAfter, Booted, Passes, NextFrame, FrameStep;
    var s' := Step(s, Continue);
    assert run in s.frames && s'.frames == s.frames[run := s'.frames[run]] && !s'.frames[run].Starting?;
    forall r | r in s'.frames && !Ended(s', r)
      ensures OnRecord(s', r)
    {
      assert OnRecord(s, r);
    }
  }

  lemma EndedKeeps(s: State, run: Id, outcome: Outcome)
    requires Sound(s) && s.settled == Some(RunEnd(run, outcome))
    ensures Sound(Step(s, Continue))
  {
    hide Rejected, RowsAfter, LedgerAfter, Booted, Passes, NextFrame, FrameStep;
    var s' := Step(s, Continue);
    assert s'.frames == s.frames - {run};
    forall r | r in s'.frames && !Ended(s', r)
      ensures OnRecord(s', r)
    {
      assert OnRecord(s, r);
    }
  }

  lemma PublishedMoves(s: State, run: Id, approval: Id)
    requires ApprovalRuns.Inv(s) && s.settled == Some(GatePublish(run, approval))
    ensures FramesMoveOn(s, Step(s, Continue)) && SameStore(s, Step(s, Continue)) && Step(s, Continue).settled.None?
  {
    hide Rejected, RowsAfter, LedgerAfter, Booted, Passes, NextFrame, FrameStep;
    assert run in s.frames && s.frames[run] == Publishing(approval);
  }

  lemma OtherContinueMoves(s: State, op: Op)
    requires s.settled == Some(op) && NoExecutionWaits(op) && !op.GatePublish?
    ensures FramesMoveOn(s, Step(s, Continue)) && SameStore(s, Step(s, Continue)) && Step(s, Continue).settled.None?
  {
    var s0 := s.(settled := None);
    if !op.EgressPublish? {
      ApprovalRuns.ResumedElsewhere(s0, op);
    }
  }

  lemma ContinueKeeps(s: State)
    requires ApprovalRuns.Inv(s) && Sound(s) && Enabled(s, Continue)
    ensures Sound(Step(s, Continue))
  {
    hide Step, Sound, ApprovalRuns.Inv;
    var op := s.settled.value;
    if op.Admit? && !op.violation {
      AdmittedKeeps(s, op.run);
    } else if op.RunStart? {
      StartedKeeps(s, op.run);
    } else if op.RunEnd? {
      EndedKeeps(s, op.run, op.outcome);
    } else {
      if op.GatePublish? {
        PublishedMoves(s, op.run, op.approval);
      } else {
        OtherContinueMoves(s, op);
      }
      MovedKeeps(s, Step(s, Continue));
    }
  }

  // --- Commits -----------------------------------------------------------

  lemma CommitShape(s: State)
    requires Enabled(s, Commit)
    ensures var s' := Step(s, Commit);
            && s'.frames == s.frames && s'.settled == s.flight && s'.flight.None?
            && s'.rows == RowsAfter(s.rows, s.flight.value)
  {
    hide RowsAfter, LedgerAfter;
  }

  predicate KeepsRuns(op: Op) {
    !op.Admit? && !op.RunStart? && !op.RunEnd? && !(op.Final? && op.kind.Delete?)
  }

  lemma RunsUntouched(rows: Rows, op: Op)
    requires KeepsRuns(op)
    ensures RowsAfter(rows, op).runs == rows.runs && (RowsAfter(rows, op).agent.None? <==> rows.agent.None?)
  {
  }

  /** New approvals belong to running runs; old ones keep their run. */
  lemma ApprovalsAfter(rows: Rows, op: Op)
    requires KeepsRuns(op) && ApprovalsBegun(rows)
    requires op.GatePublish? || op.EgressPublish? ==> op.run in rows.runs ==> !rows.runs[op.run].Queued?
    ensures ApprovalsBegun(RowsAfter(rows, op))
  {
    RunsUntouched(rows, op);
  }

  lemma CommitElsewhere(s: State)
    requires ApprovalRuns.Inv(s) && Sound(s) && Enabled(s, Commit) && KeepsRuns(s.flight.value)
    ensures Sound(Step(s, Commit))
  {
    hide RowsAfter, Step;
    var op, s' := s.flight.value, Step(s, Commit);
    CommitShape(s);
    RunsUntouched(s.rows, op);
    if op.GatePublish? {
      assert OnRecord(s, op.run);
    }
    ApprovalsAfter(s.rows, op);
    forall run | run in s'.frames && !Ended(s', run)
      ensures OnRecord(s', run)
    {
      assert OnRecord(s, run);
    }
  }

  lemma CommitAdmit(s: State, run: Id, violation: bool)
    requires ApprovalRuns.Inv(s) && Sound(s) && Enabled(s, Commit) && s.flight == Some(Admit(run, violation))
    ensures Sound(Step(s, Commit))
  {
    hide Step;
    var s' := Step(s, Commit);
    CommitShape(s);
    assert run !in s.frames;
    forall r | r in s'.frames && !Ended(s', r)
      ensures OnRecord(s', r)
    {
      assert OnRecord(s, r);
    }
  }

  lemma CommitRun(s: State, run: Id)
    requires ApprovalRuns.Inv(s) && Sound(s) && Enabled(s, Commit)
    requires s.flight == Some(RunStart(run)) || (s.flight.value.RunEnd? && s.flight.value.run == run)
    ensures Sound(Step(s, Commit))
  {
    hide Step;
    var s' := Step(s, Commit);
    CommitShape(s);
    assert run in s.frames && OnRecord(s, run);
    forall r | r in s'.frames && !Ended(s', r)
      ensures OnRecord(s', r)
    {
      assert OnRecord(s, r);
    }
  }

  lemma CommitDelete(s: State)
    requires Sound(s) && Enabled(s, Commit) && s.flight.value.Final? && s.flight.value.kind.Delete?
    ensures Sound(Step(s, Commit))
  {
    hide Step;
    CommitShape(s);
  }

  lemma CommitKeeps(s: State)
    requires ApprovalRuns.Inv(s) && Sound(s) && Enabled(s, Commit)
    ensures Sound(Step(s, Commit))
  {
    hide Step, Sound, ApprovalRuns.Inv;
    var op := s.flight.value;
    match op
    case Admit(run, violation) => CommitAdmit(s, run, violation);
    case RunStart(run) => CommitRun(s, run);
    case RunEnd(run, _) => CommitRun(s, run);
    case _ =>
      if KeepsRuns(op) {
        CommitElsewhere(s);
      } else {
        CommitDelete(s);
      }
  }

  // --- Whole runs --------------------------------------------------------

  lemma StepKeeps(s: State, e: Event)
    requires ApprovalRuns.Inv(s) && Sound(s) && Enabled(s, e)
    ensures Sound(Step(s, e))
  {
    hide Step, Enabled, Sound, ApprovalRuns.Inv;
    if e.Begin? {
      BeginKeeps(s, e.op);
    } else if e.Commit? {
      CommitKeeps(s);
    } else if e.Continue? {
      ContinueKeeps(s);
    } else if e.Reject? {
      RejectKeeps(s, e.op);
    } else if e.Restart? {
      RestartKeeps(s, e.durable);
    } else if e.EgressAsks? {
      EgressAsksKeeps(s, e.run, e.approval);
    } else if FrameEvent(e) {
      FrameEventKeeps(s, e);
    } else {
      ApprovalRuns.Elsewhere(s, e);
      MovedKeeps(s, Step(s, e));
    }
  }

  lemma BootSound(trace: seq<State>, events: seq<Event>)
    requires IsRun(trace, events)
    ensures Sound(trace[0]) && OneActive(trace[0].rows)
  {
  }

  /** Nothing is assumed of the events here. */
  lemma {:induction false} RunKeeps(trace: seq<State>, events: seq<Event>, t: nat)
    requires IsRun(trace, events) && t < |trace|
    ensures ApprovalRuns.Inv(trace[t]) && Sound(trace[t])
  {
    hide Step, Enabled, Sound, ApprovalRuns.Inv;
    ApprovalProofs.RunKeeps(trace, events, t);
    if t == 0 {
      BootSound(trace, events);
    } else {
      RunKeeps(trace, events, t - 1);
      StepKeeps(trace[t - 1], events[t - 1]);
    }
  }

  /** While the agent is there, an execution's run is active until its end commits. */
  lemma ExecutionIsActive(s: State, run: Id)
    requires Sound(s) && run in s.frames && !Ended(s, run) && s.rows.agent.Some?
    ensures s.rows.ActiveRun(run)
  {
    assert OnRecord(s, run);
  }

  /** So is the run that a call under way is about. */
  lemma CallOfARun(s: State) returns (run: Id)
    requires ApprovalRuns.Inv(s) && Sound(s) && s.rows.agent.Some? && s.settled.None? && s.flight.Some?
    requires var op := s.flight.value; op.RunStart? || op.GatePublish? || op.EgressPublish? || op.RunEnd? || op.Resolve?
    ensures s.rows.ActiveRun(run)
  {
    var op := s.flight.value;
    if op.Resolve? {
      run := s.rows.approvals[op.approval].run;
    } else {
      run := op.run;
      if !op.EgressPublish? {
        ExecutionIsActive(s, run);
      }
    }
  }

  // --- The branch that would set a resolved agent ready -------------------

  lemma ResolutionMoves(rows: Rows, approval: Id, approve: bool)
    requires ApprovalsBegun(rows) && Found(rows, Resolve(approval, approve))
    ensures ResolvedStatus(rows, approval, rows.approvals[approval].run) != Ready
    ensures var after := RowsAfter(rows, Resolve(approval, approve));
            after.runs == rows.runs && (after.ActiveAgent() <==> rows.ActiveAgent())
  {
    assert !rows.runs[rows.approvals[approval].run].Queued?;
  }

  /** In every run whatsoever, an approval that is resolved belongs to a running run, so the
      branch that would set its agent ready is never taken. */
  lemma ReadyBranchUnreachable(trace: seq<State>, events: seq<Event>, i: nat, approval: Id, approve: bool)
    requires IsRun(trace, events) && i < |trace| && trace[i].flight == Some(Resolve(approval, approve))
    ensures approval in trace[i].rows.approvals && trace[i].rows.approvals[approval].decision.Pending?
    ensures trace[i].rows.approvals[approval].run in trace[i].rows.runs
    ensures trace[i].rows.runs[trace[i].rows.approvals[approval].run].Running?
    ensures ResolvedStatus(trace[i].rows, approval, trace[i].rows.approvals[approval].run) != Ready
  {
    hide Step, Enabled;
    RunKeeps(trace, events, i);
    ResolutionMoves(trace[i].rows, approval, approve);
    assert !trace[i].rows.runs[trace[i].rows.approvals[approval].run].Queued?;
  }

  /** In every run whatsoever, resolving an approval leaves an active agent active, wakes no
      other, and leaves the runs alone. */
  lemma ResolvingKeepsTheRun(trace: seq<State>, events: seq<Event>, i: nat, approval: Id, approve: bool)
    requires IsRun(trace, events) && i < |events| && events[i].Commit? && trace[i].flight == Some(Resolve(approval, approve))
    ensures trace[i + 1].rows.ActiveAgent() <==> trace[i].rows.ActiveAgent()
    ensures trace[i + 1].rows.runs == trace[i].rows.runs
    ensures OneActive(trace[i].rows) ==> trace[i].rows.ActiveAgent() && trace[i + 1].rows.ActiveAgent()
  {
    hide Step, Enabled, RowsAfter;
    RunKeeps(trace, events, i);
    CommitShape(trace[i]);
    ResolutionMoves(trace[i].rows, approval, approve);
    assert trace[i].rows.ActiveRun(trace[i].rows.approvals[approval].run);
  }

  // --- One run at a time, exactly ----------------------------------------

  lemma NobodyRuns(rows: Rows)
    requires OneActive(rows) && !rows.ActiveAgent()
    ensures forall r :: !rows.ActiveRun(r)
  {
  }

  lemma AdmitKeepsOne(rows: Rows, run: Id, violation: bool)
    requires OneActive(rows) && Found(rows, Admit(run, violation))
    ensures OneActive(RowsAfter(rows, Admit(run, violation)))
  {
    NobodyRuns(rows);
    var after := RowsAfter(rows, Admit(run, violation));
    forall r
      ensures after.ActiveRun(r) <==> r == run && !violation
    {
      assert !rows.ActiveRun(r);
    }
    assert after.ActiveRun(run) <==> !violation;
  }

  lemma StartKeepsOne(s: State, run: Id)
    requires OneActive(s.rows) && FramesOnRecord(s) && s.settled.None? && run in s.frames && s.frames[run].Starting?
    ensures OneActive(RowsAfter(s.rows, RunStart(run)))
  {
    assert OnRecord(s, run);
    var after := RowsAfter(s.rows, RunStart(run));
    assert forall r :: after.ActiveRun(r) <==> s.rows.ActiveRun(r);
  }

  lemma EndKeepsOne(s: State, run: Id, outcome: Outcome)
    requires OneActive(s.rows) && FramesOnRecord(s) && s.settled.None? && run in s.frames && !s.frames[run].Starting?
    ensures OneActive(RowsAfter(s.rows, RunEnd(run, outcome)))
  {
    assert OnRecord(s, run);
    var after := RowsAfter(s.rows, RunEnd(run, outcome));
    if s.rows.agent.Some? {
      assert s.rows.ActiveRun(run);
      forall r
        ensures !after.ActiveRun(r)
      {
        assert s.rows.ActiveRun(r) ==> r == run;
      }
    } else {
      assert after == s.rows;
    }
  }

  lemma PublishKeepsOne(rows: Rows, run: Id, approval: Id)
    requires OneActive(rows) && (rows.agent.Some? ==> rows.ActiveRun(run))
    ensures OneActive(Publish(rows, run, approval))
  {
    assert forall r :: Publish(rows, run, approval).ActiveRun(r) <==> rows.ActiveRun(r);
  }

  /** Only the status can be wrong afterwards, and only after a stop. */
  lemma OtherKeepsOne(rows: Rows, op: Op)
    requires OneActive(rows) && ApprovalsBegun(rows) && Found(rows, op)
    requires KeepsRuns(op) && !op.GatePublish? && !op.EgressPublish?
    requires op.Final? ==> forall r :: !rows.ActiveRun(r)
    ensures OneActive(RowsAfter(rows, op))
  {
    RunsUntouched(rows, op);
    if op.Resolve? {
      ResolutionMoves(rows, op.approval, op.approve);
    }
    assert forall r :: RowsAfter(rows, op).ActiveRun(r) <==> rows.ActiveRun(r);
  }

  lemma CommitKeepsOne(s: State)
    requires ApprovalRuns.Inv(s) && Sound(s) && OneActive(s.rows) && Enabled(s, Commit) && !StopsOverARun(s, Commit)
    ensures OneActive(Step(s, Commit).rows)
  {
    hide Step, RowsAfter, OneActive;
    CommitShape(s);
    match s.flight.value
    case Admit(run, violation) => AdmitKeepsOne(s.rows, run, violation);
    case RunStart(run) => StartKeepsOne(s, run);
    case RunEnd(run, outcome) => EndKeepsOne(s, run, outcome);
    case GatePublish(run, approval) =>
      assert OnRecord(s, run);
      PublishKeepsOne(s.rows, run, approval);
      PublicationAfter(s.rows, s.flight.value);
    case EgressPublish(run, approval) =>
      PublishKeepsOne(s.rows, run, approval);
      PublicationAfter(s.rows, s.flight.value);
    case Final(thread, kind) =>
      if kind.Delete? {
        DeletionKeepsOne(s.rows, thread);
      } else {
        OtherKeepsOne(s.rows, s.flight.value);
      }
    case _ => OtherKeepsOne(s.rows, s.flight.value);
  }

  lemma PublicationAfter(rows: Rows, op: Op)
    requires op.GatePublish? || op.EgressPublish?
    ensures RowsAfter(rows, op) == Publish(rows, op.run, op.approval)
  {
  }

  lemma DeletionKeepsOne(rows: Rows, thread: Id)
    ensures OneActive(RowsAfter(rows, Final(thread, Delete)))
  {
  }

  lemma StepKeepsOne(s: State, e: Event)
    requires ApprovalRuns.Inv(s) && Sound(s) && OneActive(s.rows) && Enabled(s, e) && !StopsOverARun(s, e)
    ensures OneActive(Step(s, e).rows)
  {
    hide Step, Enabled, Sound, OneActive, ApprovalRuns.Inv;
    if e.Commit? {
      CommitKeepsOne(s);
    } else if e.Restart? {
      RestartKeeps(s, e.durable);
    } else {
      ApprovalProofs.StoredMovesByCommit(s, e);
    }
  }

  /** No stop has committed over an active run so far. */
  ghost predicate Undisturbed(trace: seq<State>, events: seq<Event>, i: nat)
    requires i <= |events| < |trace|
  {
    forall k | 0 <= k < i :: !StopsOverARun(trace[k], events[k])
  }

  lemma {:induction false} OneActiveUntil(trace: seq<State>, events: seq<Event>, i: nat)
    requires IsRun(trace, events) && i < |trace| && Undisturbed(trace, events, i)
    ensures OneActive(trace[i].rows)
  {
    hide Step, Enabled, Sound, OneActive, ApprovalRuns.Inv, StopsOverARun;
    if i == 0 {
      BootSound(trace, events);
    } else {
      OneActiveUntil(trace, events, i - 1);
      RunKeeps(trace, events, i - 1);
      StepKeepsOne(trace[i - 1], events[i - 1]);
    }
  }

  /** Until a stop commits over an active run, the agent has at most one queued or running run,
      and is busy or waiting for approval exactly when it has one. */
  lemma OneRunAtATime(trace: seq<State>, events: seq<Event>, i: nat, run: Id, other: Id)
    requires IsRun(trace, events) && i < |trace| && Undisturbed(trace, events, i)
    ensures trace[i].rows.ActiveRun(run) && trace[i].rows.ActiveRun(other) ==> run == other
    ensures trace[i].rows.ActiveAgent() <==> exists r :: trace[i].rows.ActiveRun(r)
  {
    hide Step, Enabled, IsRun, Undisturbed;
    OneActiveUntil(trace, events, i);
  }

  lemma StoppingOverBreaks(s: State, e: Event)
    requires Enabled(s, e) && StopsOverARun(s, e)
    ensures !OneActive(s.rows) || !OneActive(Step(s, e).rows)
  {
    hide Step, RowsAfter;
    CommitShape(s);
    var r :| s.rows.ActiveRun(r);
    RunsUntouched(s.rows, s.flight.value);
    StoppedAfter(s.rows, s.flight.value);
    assert Step(s, e).rows.ActiveRun(r);
  }

  lemma StoppedAfter(rows: Rows, op: Op)
    requires op.Final? && !op.kind.Delete?
    ensures !RowsAfter(rows, op).ActiveAgent()
  {
  }

  /** Over every run whatsoever: one run at a time, with a status that says so, in every state,
      exactly when no stop, quarantine or kill commits while a run is on record as active. */
  lemma OneRunExactly(trace: seq<State>, events: seq<Event>)
    requires IsRun(trace, events)
    ensures (forall i | 0 <= i < |trace| :: OneActive(trace[i].rows))
            <==> forall i | 0 <= i < |events| :: !StopsOverARun(trace[i], events[i])
  {
    hide Step, Enabled, OneActive, StopsOverARun;
    if forall i | 0 <= i < |events| :: !StopsOverARun(trace[i], events[i]) {
      forall i | 0 <= i < |trace|
        ensures OneActive(trace[i].rows)
      {
        OneActiveUntil(trace, events, i);
      }
    }
    if forall i | 0 <= i < |trace| :: OneActive(trace[i].rows) {
      forall i | 0 <= i < |events|
        ensures !StopsOverARun(trace[i], events[i])
      {
        assert OneActive(trace[i].rows) && OneActive(trace[i + 1].rows);
        if StopsOverARun(trace[i], events[i]) {
          StoppingOverBreaks(trace[i], events[i]);
        }
      }
    }
  }
}
