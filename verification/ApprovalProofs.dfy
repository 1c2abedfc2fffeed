/** Whole runs of approvals: each leaves pending at most once, a waiter hears "approved" only
    after the commit that says so, and a held step passes only the long way round. */
module ApprovalProofs {
  import opened Types
  import opened Lifecycle
  import opened ApprovalRuns

  lemma {:induction false} RunKeeps(trace: seq<State>, events: seq<Event>, t: nat)
    requires IsRun(trace, events) && t < |trace|
    ensures Inv(trace[t])
  {
    hide Step, Enabled;
    if t > 0 {
      RunKeeps(trace, events, t - 1);
      StepKeeps(trace[t - 1], events[t - 1]);
    }
  }

  // --- Leaving pending ---------------------------------------------------

  predicate PendingIn(s: State, id: Id) {
    id in s.rows.approvals && s.rows.approvals[id].decision.Pending?
  }

  /** The approval has been decided or deleted, and nobody can publish it again. */
  ghost predicate Spent(s: State, id: Id) {
    && id in s.owner && !PendingIn(s, id)
    && (forall run | run in s.frames :: s.frames[run] != Pausing(id))
    && (forall run | run in s.frames && s.frames[run] == Publishing(id) :: s.settled == Some(GatePublish(run, id)))
    && (id in s.requested ==> s.settled == Some(EgressPublish(s.requested[id], id)))
  }

  /** A pending approval has no publisher left. */
  lemma PendingIsPublished(s: State, id: Id)
    requires Inv(s) && PendingIn(s, id)
    ensures id in s.owner
    ensures forall run | run in s.frames :: s.frames[run] != Pausing(id)
    ensures forall run | run in s.frames && s.frames[run] == Publishing(id) :: s.settled == Some(GatePublish(run, id))
    ensures id in s.requested ==> s.settled == Some(EgressPublish(s.requested[id], id))
  {
    forall run | run in s.frames && s.frames[run] == Publishing(id)
      ensures s.settled == Some(GatePublish(run, id))
    {
      assert Published(s, id, GatePublish(run, id));
    }
    if id in s.requested {
      assert Published(s, id, EgressPublish(s.requested[id], id));
    }
  }

  /** Only a publication makes an approval pending. */
  lemma PendingComesFromPublishing(rows: Rows, op: Op, id: Id)
    requires var after := RowsAfter(rows, op); id in after.approvals && after.approvals[id].decision.Pending?
    ensures (id in rows.approvals && rows.approvals[id].decision.Pending?) || id in PublishedBy(op)
  {
  }

  lemma CommitKeepsSpent(s: State, id: Id)
    requires Inv(s) && Enabled(s, Commit) && Spent(s, id)
    ensures Spent(Step(s, Commit), id)
  {
    var op, s' := s.flight.value, Step(s, Commit);
    assert id !in PublishedBy(op);
    if PendingIn(s', id) {
      PendingComesFromPublishing(s.rows, op, id);
    }
  }

  lemma RestartKeepsSpent(s: State, durable: bool, id: Id)
    requires Spent(s, id)
    ensures Spent(Step(s, Restart(durable)), id)
  {
  }

  /** One execution moves, and not to where it could publish the approval. */
  lemma MoveKeepsSpent(s: State, s': State, run: Id, id: Id)
    requires Spent(s, id) && SameRest(s, s') && s'.settled == s.settled && id in s'.owner
    requires run in s'.frames && s'.frames == s.frames[run := s'.frames[run]]
    requires s'.frames[run] != Pausing(id) && (s'.frames[run] == Publishing(id) ==> run in s.frames && s.frames[run] == Pausing(id))
    ensures Spent(s', id)
  {
    forall r | r in s'.frames && r != run
      ensures s'.frames[r] == s.frames[r]
    {
    }
  }

  lemma SameKeepsSpent(s: State, s': State, id: Id)
    requires Spent(s, id) && SameAll(s, s')
    ensures Spent(s', id)
  {
  }

  /** The settled call is not the approval's publication, so it can be forgotten. */
  lemma ForgetKeepsSpent(s: State, id: Id)
    requires Spent(s, id) && s.settled.Some? && id !in PublishedBy(s.settled.value)
    ensures Spent(s.(settled := None), id)
  {
  }

  lemma DropKeepsSpent(s: State, s': State, id: Id)
    requires Spent(s, id) && s'.rows == s.rows && s'.owner == s.owner && s'.settled == s.settled
    requires s'.frames.Keys <= s.frames.Keys && forall r | r in s'.frames :: s'.frames[r] == s.frames[r]
    requires s'.requested.Keys <= s.requested.Keys && forall r | r in s'.requested :: s'.requested[r] == s.requested[r]
    ensures Spent(s', id)
  {
  }

  lemma PublishedKeepsSpent(s: State, run: Id, approval: Id, id: Id)
    requires Inv(s) && s.settled == Some(GatePublish(run, approval)) && Spent(s, id)
    ensures Spent(Step(s, Continue), id)
  {
    var s' := Step(s, Continue);
    assert forall r | r in s'.frames :: s'.frames[r] != Pausing(id) && s'.frames[r] != Publishing(id);
  }

  lemma RequestedKeepsSpent(s: State, run: Id, approval: Id, id: Id)
    requires Inv(s) && s.settled == Some(EgressPublish(run, approval)) && Spent(s, id)
    ensures Spent(Step(s, Continue), id)
  {
  }

  lemma EndedKeepsSpent(s: State, run: Id, outcome: Outcome, id: Id)
    requires s.settled == Some(RunEnd(run, outcome)) && Spent(s, id)
    ensures Spent(Step(s, Continue), id)
  {
    ForgetKeepsSpent(s, id);
    DropKeepsSpent(s.(settled := None), Step(s, Continue), id);
  }

  lemma BegunKeepsSpent(s: State, run: Id, id: Id)
    requires (s.settled == Some(RunStart(run)) || s.settled == Some(Admit(run, false))) && Spent(s, id)
    ensures Spent(Step(s, Continue), id)
  {
    ForgetKeepsSpent(s, id);
    MoveKeepsSpent(s.(settled := None), Step(s, Continue), run, id);
  }

  lemma ContinueKeepsSpent(s: State, id: Id)
    requires Inv(s) && Enabled(s, Continue) && Spent(s, id)
    ensures Spent(Step(s, Continue), id)
  {
    var op := s.settled.value;
    if op.GatePublish? {
      PublishedKeepsSpent(s, op.run, op.approval, id);
    } else if op.EgressPublish? {
      RequestedKeepsSpent(s, op.run, op.approval, id);
    } else if op.RunEnd? {
      EndedKeepsSpent(s, op.run, op.outcome, id);
    } else if op.RunStart? || (op.Admit? && !op.violation) {
      BegunKeepsSpent(s, op.run, id);
    } else {
      ForgetKeepsSpent(s, id);
      ResumedElsewhere(s.(settled := None), op);
      SameKeepsSpent(s.(settled := None), Step(s, Continue), id);
    }
  }

  lemma RejectedDropsKeepSpent(s: State, op: Op, id: Id, lost: bool)
    requires Spent(s, id) && (op.RunStart? || op.EgressPublish? || (op.RunEnd? && !op.outcome.Success?))
    ensures Spent(Rejected(s, op, lost), id)
  {
    DropKeepsSpent(s, Rejected(s, op, lost), id);
  }

  lemma RejectedMovesKeepSpent(s: State, op: Op, id: Id, lost: bool)
    requires Spent(s, id) && (op.GatePublish? || (op.RunEnd? && op.outcome.Success?))
    ensures Spent(Rejected(s, op, lost), id)
  {
    MoveKeepsSpent(s, Rejected(s, op, lost), op.run, id);
  }

  lemma RejectedKeepsSpent(s: State, op: Op, id: Id, lost: bool)
    requires Spent(s, id)
    ensures Spent(Rejected(s, op, lost), id)
  {
    if op.RunStart? || op.EgressPublish? || (op.RunEnd? && !op.outcome.Success?) {
      RejectedDropsKeepSpent(s, op, id, lost);
    } else if op.GatePublish? || op.RunEnd? {
      RejectedMovesKeepSpent(s, op, id, lost);
    } else {
      RejectedElsewhere(s, op, lost);
      SameKeepsSpent(s, Rejected(s, op, lost), id);
    }
  }

  lemma FrameEventKeepsSpent(s: State, e: Event, id: Id)
    requires Enabled(s, e) && FrameEvent(e) && Spent(s, id)
    ensures Spent(Step(s, e), id)
  {
    MoveKeepsSpent(s, FrameStep(s, e), e.run, id);
  }

  lemma StepKeepsSpent(s: State, e: Event, id: Id)
    requires Inv(s) && Enabled(s, e) && Spent(s, id)
    ensures Spent(Step(s, e), id)
  {
    if FrameEvent(e) {
      FrameEventKeepsSpent(s, e, id);
    } else if e.Commit? {
      CommitKeepsSpent(s, id);
    } else if e.Continue? {
      ContinueKeepsSpent(s, id);
    } else if e.Reject? {
      RejectedKeepsSpent(if s.flight == Some(e.op) then s.(flight := None) else s, e.op, id, s.flight == Some(e.op));
    } else if e.Restart? {
      RestartKeepsSpent(s, e.durable, id);
    } else if e.Begin? || e.EgressAsks? {
      CallsKeepSpent(s, e, id);
    } else {
      Elsewhere(s, e);
      SameKeepsSpent(s, Step(s, e), id);
    }
  }

  lemma CallsKeepSpent(s: State, e: Event, id: Id)
    requires Enabled(s, e) && (e.Begin? || e.EgressAsks?) && Spent(s, id)
    ensures Spent(Step(s, e), id)
  {
  }

  lemma {:induction false} StaysSpent(trace: seq<State>, events: seq<Event>, i: nat, j: nat, id: Id)
    requires IsRun(trace, events) && i <= j < |trace| && Spent(trace[i], id)
    ensures Spent(trace[j], id)
    decreases j
  {
    hide Step, Enabled, Inv, Spent;
    if i < j {
      StaysSpent(trace, events, i, j - 1, id);
      RunKeeps(trace, events, j - 1);
      StepKeepsSpent(trace[j - 1], events[j - 1], id);
    }
  }

  /** An approval leaves pending at most once: when it has been decided, or deleted with its
      agent, it is never pending again, whatever happens. */
  lemma LeavesPendingOnce(trace: seq<State>, events: seq<Event>, i: nat, j: nat, id: Id)
    requires IsRun(trace, events) && i < j < |trace|
    requires PendingIn(trace[i], id) && !PendingIn(trace[i + 1], id)
    ensures !PendingIn(trace[j], id)
  {
    hide Step, Enabled;
    RunKeeps(trace, events, i);
    var s, e, s' := trace[i], events[i], trace[i + 1];
    PendingIsPublished(s, id);
    LeavingSpends(s, e, id);
    StaysSpent(trace, events, i + 1, j, id);
  }

  /** What happens to the publishers of an approval in the very step that decides it. */
  lemma LeavingSpends(s: State, e: Event, id: Id)
    requires Inv(s) && Enabled(s, e) && PendingIn(s, id) && !PendingIn(Step(s, e), id)
    ensures Spent(Step(s, e), id)
  {
    PendingIsPublished(s, id);
    if e.Commit? {
      CommitLeaves(s, id);
    } else if e.Restart? {
      assert Step(s, e).owner == s.owner;
    } else {
      StoredMovesByCommit(s, e);
    }
  }

  lemma CommitLeaves(s: State, id: Id)
    requires Inv(s) && Enabled(s, Commit) && PendingIn(s, id) && !PendingIn(Step(s, Commit), id)
    ensures Spent(Step(s, Commit), id)
  {
    PendingIsPublished(s, id);
    var s' := Step(s, Commit);
    assert s'.frames == s.frames && s'.requested == s.requested && s'.owner == s.owner;
  }

  /** Same database, same call under way. */
  predicate SameStored(s: State, s': State) {
    s'.rows == s.rows && s'.ledger == s.ledger && s'.receipts == s.receipts && s'.flight == s.flight
  }

  lemma MovedFrameKeepsStored(s: State, run: Id, f: Frame)
    ensures SameStored(s, s.Frame(run, f)) && s.Frame(run, f).told == s.told
    ensures s.Frame(run, f).settled == s.settled && s.Frame(run, f).owner == s.owner
  {
  }

  lemma UnregisterKeepsStored(s: State, run: Id)
    ensures SameStored(s, s.Unregister(run))
    ensures s.Unregister(run).settled == s.settled && s.Unregister(run).owner == s.owner
  {
  }

  lemma TellKeepsStored(s: State, approval: Id)
    ensures SameStored(s, s.Tell(approval, false))
    ensures s.Tell(approval, false).settled == s.settled && s.Tell(approval, false).owner == s.owner
  {
  }

  lemma ResumedKeepsStored(s: State, op: Op)
    ensures SameStored(s, Resumed(s, op))
  {
    if op.RunEnd? {
      UnregisterKeepsStored(s, op.run);
    } else if op.RunStart? || op.GatePublish? || op.Admit? {
      ResumedFrameKeepsStored(s, op);
    } else if op.EgressPublish? {
    } else {
      ResumedElsewhere(s, op);
    }
  }

  lemma ResumedFrameKeepsStored(s: State, op: Op)
    requires op.RunStart? || op.GatePublish? || op.Admit?
    ensures SameStored(s, Resumed(s, op))
  {
    match op {
      case Admit(run, _) => MovedFrameKeepsStored(s, run, Starting);
      case RunStart(run) => MovedFrameKeepsStored(s, run, if s.cancels then Ending(CancelledRun) else Preparing);
      case GatePublish(run, approval) => MovedFrameKeepsStored(s, run, Deciding(approval));
    }
  }

  lemma RejectedCallKeepsStored(s: State, op: Op, lost: bool)
    requires op.GatePublish? || op.EgressPublish?
    ensures SameStored(s, Rejected(s, op, lost)) && Rejected(s, op, lost).settled == s.settled && Rejected(s, op, lost).owner == s.owner
  {
    TellKeepsStored(s, op.approval);
    if op.GatePublish? {
      MovedFrameKeepsStored(s.Tell(op.approval, false), op.run, Ending(if s.cancels && !lost then CancelledRun else Violation));
    }
  }

  lemma RejectedRunKeepsStored(s: State, op: Op, lost: bool)
    requires op.RunStart? || op.RunEnd?
    ensures SameStored(s, Rejected(s, op, lost)) && Rejected(s, op, lost).settled == s.settled && Rejected(s, op, lost).owner == s.owner
  {
    UnregisterKeepsStored(s, op.run);
    MovedFrameKeepsStored(s, op.run, Ending(Failure));
  }

  lemma RejectedKeepsStored(s: State, op: Op, lost: bool)
    ensures SameStored(s, Rejected(s, op, lost)) && Rejected(s, op, lost).settled == s.settled && Rejected(s, op, lost).owner == s.owner
  {
    if op.RunStart? || op.RunEnd? {
      RejectedRunKeepsStored(s, op, lost);
    } else if op.GatePublish? || op.EgressPublish? {
      RejectedCallKeepsStored(s, op, lost);
    } else {
      RejectedElsewhere(s, op, lost);
    }
  }

  lemma FrameEventKeepsStored(s: State, e: Event)
    requires Enabled(s, e) && FrameEvent(e)
    ensures SameStored(s, Step(s, e))
  {
    assert Step(s, e) == FrameStep(s, e);
  }

  /** The database changes only by a commit or a restart, and a call gets under way only by
      its callback. */
  lemma StoredMovesByCommit(s: State, e: Event)
    requires Enabled(s, e) && !e.Commit? && !e.Restart?
    ensures Step(s, e).rows == s.rows && Step(s, e).ledger == s.ledger && Step(s, e).receipts == s.receipts
    ensures Step(s, e).flight == (if e.Begin? then Some(e.op) else s.flight) || (e.Reject? && Step(s, e).flight.None?)
  {
    if FrameEvent(e) {
      FrameEventKeepsStored(s, e);
    } else if e.Continue? {
      ResumedKeepsStored(s.(settled := None), s.settled.value);
    } else if e.Reject? {
      RejectedKeepsStored(if s.flight == Some(e.op) then s.(flight := None) else s, e.op, s.flight == Some(e.op));
    } else if !e.Begin? && !e.EgressAsks? {
      Elsewhere(s, e);
    }
  }
}
