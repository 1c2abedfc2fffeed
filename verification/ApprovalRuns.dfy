/** What an approval means, over every run of resolutions, timeouts, disconnections,
    cancellations, failing writes and restarts; nothing is assumed of the events. */
module ApprovalRuns {
  import opened Types
  import opened Lifecycle

  /** The approval an execution is being held for. */
  predicate HeldFor(f: Frame, id: Id) {
    match f
    case Pausing(a) => a == id
    case Publishing(a) => a == id
    case Deciding(a) => a == id
    case Resuming(a) => a == id
    case _ => false
  }

  /** A call under way is still the one its caller made. */
  ghost predicate Pin(s: State, op: Op) {
    match op
    case Admit(run, _) => run !in s.frames && forall id | id in s.owner :: s.owner[id] != Some(run)
    case RunStart(_) => Wanted(s, op)
    case GatePublish(_, _) => Wanted(s, op)
    case EgressPublish(_, _) => Wanted(s, op)
    case RunEnd(_, _) => Wanted(s, op)
    case _ => true
  }

  ghost predicate CallsSound(s: State) {
    && (s.flight.Some? ==> Pin(s, s.flight.value) && !Made(s.settled, s.flight.value))
    && (s.settled.Some? ==> Pin(s, s.settled.value))
    && (s.flight.Some? && s.flight.value.Admit? ==> s.flight.value.run !in s.rows.runs)
    && (s.settled.Some? && s.settled.value.Admit? ==> s.settled.value.run in s.rows.runs)
    && (s.flight.Some? && s.flight.value.Resolve? ==>
          s.flight.value.approval in s.rows.approvals && s.rows.approvals[s.flight.value.approval].decision.Pending?)
  }

  ghost predicate Published(s: State, id: Id, op: Op) {
    id in s.rows.approvals ==> s.settled == Some(op)
  }

  ghost predicate OwnersSound(s: State) {
    && (forall id | id in s.rows.approvals :: id in s.owner)
    && (forall run, id | run in s.frames && HeldFor(s.frames[run], id) :: id in s.owner && s.owner[id] == Some(run))
    && (forall id | id in s.requested :: id in s.owner && s.owner[id] == None)
  }

  /** Nothing is published before its publication commits. */
  ghost predicate UnpublishedSound(s: State) {
    && (forall run, id | run in s.frames && s.frames[run] == Pausing(id) :: id !in s.rows.approvals)
    && (forall run, id | run in s.frames && s.frames[run] == Publishing(id) :: Published(s, id, GatePublish(run, id)))
    && (forall id | id in s.requested :: Published(s, id, EgressPublish(s.requested[id], id)))
  }

  ghost predicate Inv(s: State) {
    CallsSound(s) && OwnersSound(s) && UnpublishedSound(s)
  }

  lemma BeginKeeps(s: State, op: Op)
    requires Inv(s) && Enabled(s, Begin(op))
    ensures Inv(Step(s, Begin(op)))
  {
    hide Resumed, Rejected, RowsAfter, LedgerAfter, Booted, NextFrame, FrameStep;
  }

  function PublishedBy(op: Op): set<Id> {
    match op
    case GatePublish(_, approval) => {approval}
    case EgressPublish(_, approval) => {approval}
    case _ => {}
  }

  lemma CommitKeys(rows: Rows, op: Op)
    ensures forall id | id in RowsAfter(rows, op).approvals :: id in rows.approvals || id in PublishedBy(op)
  {
  }

  lemma CommitCalls(s: State)
    requires CallsSound(s) && Enabled(s, Commit)
    ensures CallsSound(Step(s, Commit))
  {
  }

  lemma CommitOwners(s: State)
    requires Inv(s) && Enabled(s, Commit)
    ensures OwnersSound(Step(s, Commit))
  {
    CommitKeys(s.rows, s.flight.value);
    var s' := Step(s, Commit);
    assert s'.frames == s.frames && s'.owner == s.owner && s'.requested == s.requested;
    forall id | id in s'.rows.approvals
      ensures id in s'.owner
    {
      assert HeldFor(Publishing(id), id);
    }
  }

  lemma GateIsNotEgress(s: State, run: Id, id: Id)
    requires OwnersSound(s) && run in s.frames && HeldFor(s.frames[run], id)
    ensures id !in s.requested
  {
  }

  /** Only its own publication puts an approval on record. */
  lemma OwnPublication(s: State, op: Op, id: Id)
    requires OwnersSound(s) && Pin(s, op) && id in PublishedBy(op)
    ensures forall run | run in s.frames && HeldFor(s.frames[run], id) :: op == GatePublish(run, id)
    ensures id in s.requested ==> op == EgressPublish(s.requested[id], id)
  {
    forall run | run in s.frames && HeldFor(s.frames[run], id)
      ensures op == GatePublish(run, id)
    {
      assert s.owner[id] == Some(run);
      if op.GatePublish? {
        assert HeldFor(s.frames[op.run], id);
      }
    }
    if id in s.requested && op.GatePublish? {
      GateIsNotEgress(s, op.run, id);
    }
  }

  lemma CommitUnpublished(s: State)
    requires Inv(s) && Enabled(s, Commit)
    ensures UnpublishedSound(Step(s, Commit))
  {
    hide RowsAfter;
    var op, s' := s.flight.value, Step(s, Commit);
    CommitKeys(s.rows, op);
    assert s'.rows == RowsAfter(s.rows, op) && s'.frames == s.frames && s'.requested == s.requested && s'.settled == Some(op);
    forall id | id in PublishedBy(op)
      ensures forall run | run in s.frames && HeldFor(s.frames[run], id) :: op == GatePublish(run, id)
      ensures id in s.requested ==> op == EgressPublish(s.requested[id], id)
    {
      OwnPublication(s, op, id);
    }
    forall run, id | run in s.frames && s.frames[run] == Publishing(id)
      ensures Published(s', id, GatePublish(run, id))
    {
      assert HeldFor(s.frames[run], id) && Published(s, id, GatePublish(run, id));
    }
    forall run, id | run in s.frames && s.frames[run] == Pausing(id)
      ensures id !in s'.rows.approvals
    {
      assert HeldFor(s.frames[run], id);
    }
  }

  lemma CommitKeeps(s: State)
    requires Inv(s) && Enabled(s, Commit)
    ensures Inv(Step(s, Commit))
  {
    CommitCalls(s);
    CommitOwners(s);
    CommitUnpublished(s);
  }

  // --- Everything but commits --------------------------------------------

  predicate SameRest(s: State, s': State) {
    && s'.rows == s.rows && s'.ledger == s.ledger && s'.receipts == s.receipts
    && s'.requested == s.requested && s'.flight == s.flight
  }

  predicate SameAll(s: State, s': State) {
    SameRest(s, s') && s'.settled == s.settled && s'.frames == s.frames && s'.owner == s.owner
  }

  ghost predicate PinsKept(s: State, s': State) {
    && (s'.flight.Some? ==> Pin(s', s'.flight.value) && !Made(s'.settled, s'.flight.value))
    && (s'.settled.Some? ==> s'.settled == s.settled && Pin(s', s'.settled.value))
  }

  /** Threads, barriers, waiters and tokens do not matter here. */
  lemma Transport(s: State, s': State)
    requires Inv(s) && SameAll(s, s')
    ensures Inv(s')
  {
    if s.flight.Some? {
      assert Pin(s, s.flight.value) ==> Pin(s', s.flight.value);
    }
    if s.settled.Some? {
      assert Pin(s, s.settled.value) ==> Pin(s', s.settled.value);
    }
  }

  /** One execution moves on; it is held for nothing new. */
  lemma MoveFrame(s: State, s': State, run: Id)
    requires Inv(s) && SameRest(s, s') && s'.settled == s.settled && s'.owner == s.owner
    requires run in s.frames && run in s'.frames && s'.frames == s.frames[run := s'.frames[run]]
    requires forall id | HeldFor(s'.frames[run], id) :: HeldFor(s.frames[run], id)
    requires !s'.frames[run].Pausing? && (s'.frames[run].Publishing? ==> s.frames[run].Pausing?)
    requires PinsKept(s, s')
    ensures Inv(s')
  {
    MoveUnpublished(s, s', run);
  }

  lemma MoveUnpublished(s: State, s': State, run: Id)
    requires Inv(s) && SameRest(s, s') && s'.settled == s.settled && s'.owner == s.owner
    requires run in s.frames && run in s'.frames && s'.frames == s.frames[run := s'.frames[run]]
    requires forall id | HeldFor(s'.frames[run], id) :: HeldFor(s.frames[run], id)
    requires !s'.frames[run].Pausing? && (s'.frames[run].Publishing? ==> s.frames[run].Pausing?)
    ensures UnpublishedSound(s')
  {
    forall id | s'.frames[run] == Publishing(id)
      ensures id !in s.rows.approvals
    {
      assert HeldFor(s'.frames[run], id);
    }
    forall r, id | r in s'.frames && s'.frames[r] == Publishing(id)
      ensures Published(s', id, GatePublish(r, id))
    {
      if r != run {
        assert s.frames[r] == Publishing(id);
      }
    }
  }

  predicate Uncalled(f: Frame) {
    !f.Starting? && !f.Publishing? && !f.Ending?
  }

  lemma FreeMove(s: State, s': State, run: Id)
    requires Inv(s) && SameRest(s, s') && s'.settled == s.settled && s'.owner == s.owner
    requires run in s.frames && run in s'.frames && s'.frames == s.frames[run := s'.frames[run]] && Uncalled(s.frames[run])
    requires forall id | HeldFor(s'.frames[run], id) :: HeldFor(s.frames[run], id)
    requires !s'.frames[run].Pausing? && (s'.frames[run].Publishing? ==> s.frames[run].Pausing?)
    ensures Inv(s')
  {
    assert PinsKept(s, s');
    MoveFrame(s, s', run);
  }

  lemma FrameEventKeeps(s: State, e: Event)
    requires Inv(s) && Enabled(s, e) && FrameEvent(e) && !e.GateOpens?
    ensures Inv(Step(s, e))
  {
    FreeMove(s, FrameStep(s, e), e.run);
  }

  lemma GateOpensKeeps(s: State, run: Id, approval: Id)
    requires Inv(s) && Enabled(s, GateOpens(run, approval))
    ensures Inv(Step(s, GateOpens(run, approval)))
  {
    var s' := Step(s, GateOpens(run, approval));
    assert PinsKept(s, s');
    assert forall id | HeldFor(s'.frames[run], id) :: id == approval;
  }

  lemma EgressAsksShape(s: State, run: Id, approval: Id)
    requires Enabled(s, EgressAsks(run, approval))
    ensures var s' := Step(s, EgressAsks(run, approval));
            && approval !in s.owner && s'.owner == s.owner[approval := None] && s'.requested == s.requested[approval := run]
            && s'.rows == s.rows && s'.frames == s.frames && s'.flight == s.flight && s'.settled == s.settled
  {
    hide Resumed, Rejected, RowsAfter, LedgerAfter, Booted, Passes, NextFrame, FrameStep;
  }

  lemma EgressAsksKeeps(s: State, run: Id, approval: Id)
    requires Inv(s) && Enabled(s, EgressAsks(run, approval))
    ensures Inv(Step(s, EgressAsks(run, approval)))
  {
    hide Step, Enabled;
    EgressAsksShape(s, run, approval);
    assert PinsKept(s, Step(s, EgressAsks(run, approval)));
  }

  /** The execution of a run ends or never started. */
  lemma DropFrame(s: State, s': State, run: Id)
    requires Inv(s) && SameRest(s, s') && s'.owner == s.owner && s'.frames == s.frames - {run}
    requires s'.settled == s.settled || (s'.settled.None? && !s.settled.value.GatePublish? && !s.settled.value.EgressPublish?)
    requires PinsKept(s, s')
    ensures Inv(s')
  {
  }

  /** A publication is forgotten together with its request. */
  lemma DropRequest(s: State, s': State, run: Id, approval: Id)
    requires Inv(s) && s'.rows == s.rows && s'.flight == s.flight && s'.owner == s.owner && s'.frames == s.frames
    requires s'.requested == s.requested - {approval}
    requires s'.settled == s.settled || (s'.settled.None? && s.settled == Some(EgressPublish(run, approval)))
    requires PinsKept(s, s')
    ensures Inv(s')
  {
  }

  // --- Rejections --------------------------------------------------------

  lemma Unmade(s: State, op: Op) returns (s0: State)
    requires Inv(s) && Enabled(s, Reject(op))
    ensures s0 == if s.flight == Some(op) then s.(flight := None) else s
    ensures Inv(s0) && !Made(s0.flight, op) && !Made(s0.settled, op)
    ensures op.RunStart? || op.GatePublish? || op.EgressPublish? || op.RunEnd? ==> Wanted(s0, op)
    ensures Step(s, Reject(op)) == Rejected(s0, op, s.flight == Some(op))
  {
    hide RowsAfter, LedgerAfter, Booted, Passes, NextFrame, FrameStep, Resumed, Rejected;
    s0 := if s.flight == Some(op) then s.(flight := None) else s;
    if s.settled.Some? {
      assert Pin(s, s.settled.value) ==> Pin(s0, s.settled.value);
    }
  }

  lemma RejectKeeps(s: State, op: Op)
    requires Inv(s) && Enabled(s, Reject(op))
    ensures Inv(Step(s, Reject(op)))
  {
    var lost := s.flight == Some(op);
    var s0 := Unmade(s, op);
    RejectedKeeps(s0, op, lost);
  }

  lemma RejectedDrops(s: State, op: Op, lost: bool)
    requires Inv(s) && !Made(s.flight, op) && !Made(s.settled, op) && Wanted(s, op)
    requires op.RunStart? || (op.RunEnd? && !op.outcome.Success?)
    ensures Inv(Rejected(s, op, lost))
  {
    assert PinsKept(s, Rejected(s, op, lost));
    DropFrame(s, Rejected(s, op, lost), op.run);
  }

  lemma RejectedMoves(s: State, op: Op, lost: bool)
    requires Inv(s) && !Made(s.flight, op) && !Made(s.settled, op) && Wanted(s, op)
    requires op.GatePublish? || (op.RunEnd? && op.outcome.Success?)
    ensures Inv(Rejected(s, op, lost))
  {
    assert PinsKept(s, Rejected(s, op, lost));
    MoveFrame(s, Rejected(s, op, lost), op.run);
  }

  lemma RejectedRequest(s: State, op: Op, lost: bool)
    requires Inv(s) && !Made(s.flight, op) && !Made(s.settled, op) && Wanted(s, op) && op.EgressPublish?
    ensures Inv(Rejected(s, op, lost))
  {
    assert PinsKept(s, Rejected(s, op, lost));
    DropRequest(s, Rejected(s, op, lost), op.run, op.approval);
  }

  lemma RejectedKeeps(s: State, op: Op, lost: bool)
    requires Inv(s) && !Made(s.flight, op) && !Made(s.settled, op)
    requires op.RunStart? || op.GatePublish? || op.EgressPublish? || op.RunEnd? ==> Wanted(s, op)
    ensures Inv(Rejected(s, op, lost))
  {
    if op.RunStart? || (op.RunEnd? && !op.outcome.Success?) {
      RejectedDrops(s, op, lost);
    } else if op.GatePublish? || op.RunEnd? {
      RejectedMoves(s, op, lost);
    } else if op.EgressPublish? {
      RejectedRequest(s, op, lost);
    } else {
      RejectedElsewhere(s, op, lost);
      Transport(s, Rejected(s, op, lost));
    }
  }

  lemma RejectedElsewhere(s: State, op: Op, lost: bool)
    requires !op.RunStart? && !op.RunEnd? && !op.GatePublish? && !op.EgressPublish?
    ensures SameAll(s, Rejected(s, op, lost))
  {
    if op.Deny? || op.Final? {
      RejectedStop(s, op, lost);
    } else if op.RevokeBlock? || op.Persist? {
      RejectedTermination(s, op, lost);
    } else {
      assert Rejected(s, op, lost) == s;
    }
  }

  lemma RejectedTermination(s: State, op: Op, lost: bool)
    requires op.RevokeBlock? || op.Persist?
    ensures SameAll(s, Rejected(s, op, lost))
  {
    if op.RevokeBlock? && s.termination.None? {
      assert Rejected(s, op, lost) == s;
    }
  }

  lemma RejectedStop(s: State, op: Op, lost: bool)
    requires op.Deny? || op.Final?
    ensures SameAll(s, Rejected(s, op, lost))
  {
    if op.thread in s.stops {
      ReleaseElsewhere(s, op.thread, false);
      ReleaseElsewhere(s.(cancels := false), op.thread, false);
    }
  }

  lemma ReleaseElsewhere(s: State, thread: Id, ok: bool)
    requires thread in s.stops
    ensures SameAll(s, s.Release(thread, ok))
  {
  }

  // --- Continuations -----------------------------------------------------

  lemma ForgetSettled(s: State)
    requires Inv(s) && s.settled.Some? && !s.settled.value.GatePublish? && !s.settled.value.EgressPublish?
    ensures Inv(s.(settled := None))
  {
    var s' := s.(settled := None);
    if s.flight.Some? {
      assert Pin(s, s.flight.value) ==> Pin(s', s.flight.value);
    }
  }

  lemma AdmittedShape(s: State, run: Id)
    requires s.settled == Some(Admit(run, false))
    ensures var s' := Step(s, Continue);
            && s'.frames == s.frames[run := Starting] && s'.settled == None && s'.flight == s.flight
            && s'.rows == s.rows && s'.owner == s.owner && s'.requested == s.requested
  {
    hide Rejected, RowsAfter, LedgerAfter, Booted, Passes, NextFrame, FrameStep;
  }

  lemma AdmittedKeeps(s: State, run: Id)
    requires Inv(s) && s.settled == Some(Admit(run, false))
    ensures Inv(Step(s, Continue))
  {
    hide Step;
    AdmittedShape(s, run);
    assert s.flight.Some? && s.flight.value.Admit? ==> s.flight.value.run != run;
    assert forall id :: !HeldFor(Starting, id);
  }

  lemma StartedKeeps(s: State, run: Id)
    requires Inv(s) && s.settled == Some(RunStart(run))
    ensures Inv(Step(s, Continue))
  {
    hide Rejected, RowsAfter, LedgerAfter, Booted, Passes, NextFrame, FrameStep;
    ForgetSettled(s);
    var s0, s' := s.(settled := None), Step(s, Continue);
    assert PinsKept(s0, s');
    MoveFrame(s0, s', run);
  }

  lemma PublishedKeeps(s: State, run: Id, approval: Id)
    requires Inv(s) && s.settled == Some(GatePublish(run, approval))
    ensures Inv(Step(s, Continue))
  {
    hide Rejected, RowsAfter, LedgerAfter, Booted, Passes, NextFrame, FrameStep;
    var s' := Step(s, Continue);
    assert PinsKept(s, s');
    assert forall id | HeldFor(s'.frames[run], id) :: HeldFor(s.frames[run], id);
    forall r, id | r in s'.frames && s'.frames[r] == Publishing(id)
      ensures Published(s', id, GatePublish(r, id))
    {
      assert s.frames[r] == Publishing(id);
    }
    forall id | id in s'.requested
      ensures Published(s', id, EgressPublish(s'.requested[id], id))
    {
      assert Published(s, id, EgressPublish(s.requested[id], id));
    }
  }

  lemma RequestedKeeps(s: State, run: Id, approval: Id)
    requires Inv(s) && s.settled == Some(EgressPublish(run, approval))
    ensures Inv(Step(s, Continue))
  {
    assert PinsKept(s, Step(s, Continue));
    DropRequest(s, Step(s, Continue), run, approval);
  }

  lemma EndedKeeps(s: State, run: Id, outcome: Outcome)
    requires Inv(s) && s.settled == Some(RunEnd(run, outcome))
    ensures Inv(Step(s, Continue))
  {
    assert PinsKept(s, Step(s, Continue));
    DropFrame(s, Step(s, Continue), run);
  }

  lemma ResumedStop(s: State, op: Op)
    requires op.Deny? || op.Final?
    ensures SameAll(s, Resumed(s, op))
  {
    if op.Final? && op.thread in s.stops {
      ReleaseElsewhere(s, op.thread, true);
    }
  }

  lemma ResumedTermination(s: State, op: Op)
    requires op.SetReady? || op.RevokeBlock? || op.Persist?
    ensures SameAll(s, Resumed(s, op))
  {
    if op.SetReady? {
      assert Resumed(s, op) == if s.terminating then s else s.(barrier := false);
    } else if op.RevokeBlock? && s.termination.Some? {
      assert Resumed(s, op) == s.(termination := Some(s.termination.value.(pc := Draining)));
    } else if op.RevokeBlock? {
      assert Resumed(s, op) == s;
    }
  }

  lemma ResumedElsewhere(s: State, op: Op)
    requires !op.RunStart? && !op.RunEnd? && !op.GatePublish? && !op.EgressPublish? && (op.Admit? ==> op.violation)
    ensures SameAll(s, Resumed(s, op))
  {
    if op.Deny? || op.Final? {
      ResumedStop(s, op);
    } else if op.SetReady? || op.RevokeBlock? || op.Persist? {
      ResumedTermination(s, op);
    } else if op.Resolve? {
      assert Resumed(s, op) == s.Tell(op.approval, op.approve);
    } else {
      assert Resumed(s, op) == s;
    }
  }

  lemma ContinueKeeps(s: State)
    requires Inv(s) && Enabled(s, Continue)
    ensures Inv(Step(s, Continue))
  {
    var op := s.settled.value;
    if op.GatePublish? {
      PublishedKeeps(s, op.run, op.approval);
    } else if op.EgressPublish? {
      RequestedKeeps(s, op.run, op.approval);
    } else if op.RunEnd? {
      EndedKeeps(s, op.run, op.outcome);
    } else if op.RunStart? {
      StartedKeeps(s, op.run);
    } else if op.Admit? && !op.violation {
      AdmittedKeeps(s, op.run);
    } else {
      ForgetSettled(s);
      ResumedElsewhere(s.(settled := None), op);
      Transport(s.(settled := None), Step(s, Continue));
    }
  }

  // --- Every step --------------------------------------------------------

  lemma RestartKeeps(s: State, durable: bool)
    requires Inv(s)
    ensures Inv(Step(s, Restart(durable)))
  {
    if durable && s.flight.Some? {
      CommitKeys(s.rows, s.flight.value);
      forall id | id in PublishedBy(s.flight.value)
        ensures id in s.owner
      {
        assert HeldFor(Publishing(id), id);
      }
    }
  }

  predicate StoreEvent(e: Event) {
    e.Begin? || e.Commit? || e.Continue? || e.Reject? || e.Restart?
  }

  lemma StoreEventKeeps(s: State, e: Event)
    requires Inv(s) && Enabled(s, e) && StoreEvent(e)
    ensures Inv(Step(s, e))
  {
    hide Step, Enabled, Inv;
    match e {
      case Begin(op) => BeginKeeps(s, op);
      case Commit => CommitKeeps(s);
      case Continue => ContinueKeeps(s);
      case Reject(op) => RejectKeeps(s, op);
      case Restart(durable) => RestartKeeps(s, durable);
    }
  }

  lemma StepKeeps(s: State, e: Event)
    requires Inv(s) && Enabled(s, e)
    ensures Inv(Step(s, e))
  {
    hide Step, Enabled, Inv;
    if StoreEvent(e) {
      StoreEventKeeps(s, e);
    } else if e.GateOpens? {
      GateOpensKeeps(s, e.run, e.approval);
    } else if e.EgressAsks? {
      EgressAsksKeeps(s, e.run, e.approval);
    } else if FrameEvent(e) {
      FrameEventKeeps(s, e);
    } else {
      Elsewhere(s, e);
      Transport(s, Step(s, e));
    }
  }

  lemma StopStartsElsewhere(s: State, thread: Id, kind: StopKind)
    requires Enabled(s, StopStarts(thread, kind))
    ensures SameAll(s, Step(s, StopStarts(thread, kind)))
  {
    hide Resumed, Rejected, RowsAfter, LedgerAfter, Booted, Passes, NextFrame, FrameStep;
  }

  lemma StopElsewhere(s: State, e: Event)
    requires Enabled(s, e) && (e.CancelReturns? || e.ExecutionSettles?)
    ensures SameAll(s, Step(s, e))
  {
    hide Resumed, Rejected, RowsAfter, LedgerAfter, Booted, Passes, NextFrame, FrameStep;
    if e.ExecutionSettles? {
      ReleaseElsewhere(s.(cancels := false), e.thread, false);
    }
  }

  lemma TermElsewhere(s: State, e: Event)
    requires Enabled(s, e) && TermEvent(e)
    ensures SameAll(s, Step(s, e))
  {
    hide Resumed, Rejected, RowsAfter, LedgerAfter, Booted, Passes, NextFrame, FrameStep;
  }

  lemma Elsewhere(s: State, e: Event)
    requires Enabled(s, e)
    requires e.EgressClears? || e.StopStarts? || e.CancelReturns? || e.ExecutionSettles?
             || TermEvent(e)
    ensures SameAll(s, Step(s, e))
  {
    if e.StopStarts? {
      StopStartsElsewhere(s, e.thread, e.kind);
    } else if e.CancelReturns? || e.ExecutionSettles? {
      StopElsewhere(s, e);
    } else if !e.EgressClears? {
      TermElsewhere(s, e);
    }
  }
}
