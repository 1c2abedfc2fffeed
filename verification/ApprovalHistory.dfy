/** Where an approved answer and a passed gate come from: backwards through whole runs. */
module ApprovalHistory {
  import opened Types
  import opened Lifecycle
  import opened ApprovalRuns
  import opened ApprovalProofs

  // --- What single steps can do to executions ----------------------------

  predicate SameFrameAt(s: State, s': State, run: Id) {
    run in s'.frames ==> run in s.frames && s'.frames[run] == s.frames[run]
  }

  /** A store event holds nobody back and lets nobody pass. */
  predicate Unheld(s: State, s': State, run: Id) {
    run in s'.frames ==>
      || s'.frames[run].Starting? || s'.frames[run].Preparing? || s'.frames[run].Ending?
      || (s'.frames[run].Deciding? && run in s.frames && s.frames[run] == Publishing(s'.frames[run].approval))
  }

  lemma BegunFrames(s: State, at: Id, run: Id)
    requires s.settled == Some(RunStart(at)) || s.settled == Some(Admit(at, false))
    ensures SameFrameAt(s, Step(s, Continue), run) || Unheld(s, Step(s, Continue), run)
  {
  }

  lemma PublishedFrames(s: State, at: Id, approval: Id, run: Id)
    requires Inv(s) && s.settled == Some(GatePublish(at, approval))
    ensures SameFrameAt(s, Step(s, Continue), run) || Unheld(s, Step(s, Continue), run)
  {
    assert Pin(s, s.settled.value);
  }

  lemma DroppedFrames(s: State, op: Op, run: Id)
    requires s.settled == Some(op) && (op.EgressPublish? || op.RunEnd?)
    ensures SameFrameAt(s, Step(s, Continue), run)
  {
  }

  lemma ContinueFrames(s: State, run: Id)
    requires Inv(s) && Enabled(s, Continue)
    ensures SameFrameAt(s, Step(s, Continue), run) || Unheld(s, Step(s, Continue), run)
  {
    var op := s.settled.value;
    if op.RunStart? || (op.Admit? && !op.violation) {
      BegunFrames(s, op.run, run);
    } else if op.GatePublish? {
      PublishedFrames(s, op.run, op.approval, run);
    } else if op.EgressPublish? || op.RunEnd? {
      DroppedFrames(s, op, run);
    } else {
      ResumedElsewhere(s.(settled := None), op);
    }
  }

  lemma RejectedDropFrames(s: State, op: Op, run: Id, lost: bool)
    requires op.RunStart? || op.EgressPublish? || (op.RunEnd? && !op.outcome.Success?)
    ensures SameFrameAt(s, Rejected(s, op, lost), run)
  {
  }

  lemma RejectedMoveFrames(s: State, op: Op, run: Id, lost: bool)
    requires op.GatePublish? || (op.RunEnd? && op.outcome.Success?)
    ensures SameFrameAt(s, Rejected(s, op, lost), run) || Unheld(s, Rejected(s, op, lost), run)
  {
  }

  lemma RejectFrames(s: State, op: Op, run: Id)
    requires Enabled(s, Reject(op))
    ensures SameFrameAt(s, Step(s, Reject(op)), run) || Unheld(s, Step(s, Reject(op)), run)
  {
    var lost := s.flight == Some(op);
    var s0 := if lost then s.(flight := None) else s;
    if op.RunStart? || op.EgressPublish? || (op.RunEnd? && !op.outcome.Success?) {
      RejectedDropFrames(s0, op, run, lost);
    } else if op.GatePublish? || op.RunEnd? {
      RejectedMoveFrames(s0, op, run, lost);
    } else {
      RejectedElsewhere(s0, op, lost);
    }
  }

  lemma OtherRunsFrames(s: State, e: Event, run: Id)
    requires Enabled(s, e) && FrameEvent(e) && e.run != run
    ensures SameFrameAt(s, Step(s, e), run)
  {
    assert Step(s, e) == FrameStep(s, e);
  }

  lemma QuietFrames(s: State, e: Event, run: Id)
    requires Enabled(s, e) && (e.Begin? || e.Commit? || e.Restart? || e.EgressAsks?)
    ensures SameFrameAt(s, Step(s, e), run)
  {
  }

  /** Only an execution's own events move it through the gate. */
  lemma FrameChange(s: State, e: Event, run: Id)
    requires Inv(s) && Enabled(s, e)
    ensures (FrameEvent(e) && e.run == run) || SameFrameAt(s, Step(s, e), run) || Unheld(s, Step(s, e), run)
  {
    if e.Continue? {
      ContinueFrames(s, run);
    } else if e.Reject? {
      RejectFrames(s, e.op, run);
    } else if FrameEvent(e) {
      if e.run != run {
        OtherRunsFrames(s, e, run);
      }
    } else if e.Begin? || e.Commit? || e.Restart? || e.EgressAsks? {
      QuietFrames(s, e, run);
    } else {
      Elsewhere(s, e);
    }
  }

  predicate At(s: State, run: Id, f: Frame) {
    run in s.frames && s.frames[run] == f
  }

  ghost predicate HeldAt(s: State, run: Id, id: Id) {
    run in s.frames && HeldFor(s.frames[run], id)
  }

  // An execution's own events, one by one.

  lemma OwnDecision(s: State, e: Event, run: Id, id: Id)
    requires Enabled(s, e) && FrameEvent(e) && e.run == run
    ensures At(Step(s, e), run, Resuming(id)) ==> e == DecisionSettles(run) && id in s.told && s.told[id]
  {
    assert Step(s, e) == FrameStep(s, e);
  }

  lemma OwnPause(s: State, e: Event, run: Id, id: Id)
    requires Enabled(s, e) && FrameEvent(e) && e.run == run
    ensures At(Step(s, e), run, Publishing(id)) ==> e == PauseSettles(run, true) && At(s, run, Pausing(id)) && !s.cancels
  {
    assert Step(s, e) == FrameStep(s, e);
  }

  lemma OwnHold(s: State, e: Event, run: Id, id: Id)
    requires Enabled(s, e) && FrameEvent(e) && e.run == run
    ensures HeldAt(Step(s, e), run, id) ==> HeldAt(s, run, id) || id !in s.owner
  {
    assert Step(s, e) == FrameStep(s, e);
  }

  lemma OwnResume(s: State, e: Event, run: Id, id: Id)
    requires Enabled(s, e) && FrameEvent(e) && e.run == run
    ensures At(Step(s, e), run, Executing) && HeldAt(s, run, id) ==> e == ResumeSettles(run, true) && At(s, run, Resuming(id)) && !s.cancels
  {
    assert Step(s, e) == FrameStep(s, e);
  }

  lemma BecomesResuming(s: State, e: Event, run: Id, id: Id)
    requires Inv(s) && Enabled(s, e) && At(Step(s, e), run, Resuming(id)) && !At(s, run, Resuming(id))
    ensures id in s.told && s.told[id]
  {
    FrameChange(s, e, run);
    if FrameEvent(e) && e.run == run {
      OwnDecision(s, e, run, id);
    }
  }

  lemma BecomesPublishing(s: State, e: Event, run: Id, id: Id)
    requires Inv(s) && Enabled(s, e) && At(Step(s, e), run, Publishing(id)) && !At(s, run, Publishing(id))
    ensures e == PauseSettles(run, true) && At(s, run, Pausing(id)) && !s.cancels
  {
    FrameChange(s, e, run);
    if FrameEvent(e) && e.run == run {
      OwnPause(s, e, run, id);
    }
  }

  lemma BecomesHeld(s: State, e: Event, run: Id, id: Id)
    requires Inv(s) && Enabled(s, e) && HeldAt(Step(s, e), run, id) && !HeldAt(s, run, id)
    ensures id !in s.owner
  {
    FrameChange(s, e, run);
    if FrameEvent(e) && e.run == run {
      OwnHold(s, e, run, id);
    }
  }

  /** A held execution runs on only by a successful resume that nobody cancelled. */
  lemma LeavesGate(s: State, e: Event, run: Id, id: Id)
    requires Inv(s) && Enabled(s, e) && HeldAt(s, run, id) && At(Step(s, e), run, Executing)
    ensures e == ResumeSettles(run, true) && At(s, run, Resuming(id)) && !s.cancels
  {
    FrameChange(s, e, run);
    if FrameEvent(e) && e.run == run {
      OwnResume(s, e, run, id);
    }
  }

  // --- What single steps can do to answers -------------------------------

  predicate ToldYes(s: State, id: Id) {
    id in s.told && s.told[id]
  }

  lemma ResumedTells(s: State, op: Op, id: Id)
    requires ToldYes(Resumed(s, op), id) && !ToldYes(s, id)
    ensures op == Resolve(id, true)
  {
    if op.Deny? {
    } else if op.Resolve? {
    } else if op.Final? {
    } else {
    }
  }

  lemma RejectedTells(s: State, op: Op, id: Id, lost: bool)
    requires !ToldYes(s, id)
    ensures !ToldYes(Rejected(s, op, lost), id)
  {
    if op.GatePublish? {
    } else if op.EgressPublish? {
    } else if op.Deny? {
    } else if op.Final? {
    } else {
    }
  }

  /** A waiter hears "approved" only from a resolution that has committed. */
  lemma BecomesToldYes(s: State, e: Event, id: Id)
    requires Enabled(s, e) && ToldYes(Step(s, e), id) && !ToldYes(s, id)
    ensures e == Continue && s.settled == Some(Resolve(id, true))
  {
    if e.Continue? {
      ResumedTells(s.(settled := None), s.settled.value, id);
    } else if e.Reject? {
      RejectedTells(if s.flight == Some(e.op) then s.(flight := None) else s, e.op, id, s.flight == Some(e.op));
    } else if FrameEvent(e) {
      FrameEventTells(s, e);
    } else {
      OtherTells(s, e, id);
    }
  }

  lemma FrameEventTells(s: State, e: Event)
    requires Enabled(s, e) && FrameEvent(e)
    ensures Step(s, e).told == s.told
  {
    assert Step(s, e) == FrameStep(s, e);
  }

  lemma OtherTells(s: State, e: Event, id: Id)
    requires Enabled(s, e) && !e.Continue? && !e.Reject? && !FrameEvent(e) && !ToldYes(s, id)
    ensures !ToldYes(Step(s, e), id)
  {
    hide Resumed, Rejected, RowsAfter, LedgerAfter, Passes, NextFrame, FrameStep, Wanted, Made, ReadsContained;
    if e.Begin? || e.Commit? || e.Restart? || e.EgressAsks? || e.EgressClears? {
    } else if e.StopStarts? || e.CancelReturns? || e.ExecutionSettles? {
    } else {
    }
  }

  lemma StoreEventSettles(s: State, e: Event)
    requires Enabled(s, e) && (e.Begin? || e.Commit? || e.Restart? || e.EgressAsks?)
    ensures if e.Commit? then Step(s, e).settled == s.flight else Step(s, e).settled == s.settled || Step(s, e).settled.None?
    ensures OwnersKept(s, Step(s, e))
  {
  }

  lemma SettledByCommit(s: State, e: Event)
    requires Enabled(s, e)
    ensures if e.Commit? then Step(s, e).settled == s.flight else Step(s, e).settled == s.settled || Step(s, e).settled.None?
  {
    if e.Continue? {
      ContinueSettles(s.(settled := None), s.settled.value);
    } else if e.Reject? {
      RejectedKeepsStored(if s.flight == Some(e.op) then s.(flight := None) else s, e.op, s.flight == Some(e.op));
    } else if FrameEvent(e) {
      FrameEventSettles(s, e);
    } else if e.Begin? || e.Commit? || e.Restart? || e.EgressAsks? {
      StoreEventSettles(s, e);
    } else {
      Elsewhere(s, e);
    }
  }

  lemma ContinueSettles(s: State, op: Op)
    ensures Resumed(s, op).settled == s.settled && Resumed(s, op).owner == s.owner
  {
    if op.RunEnd? {
      UnregisterKeepsStored(s, op.run);
    } else if op.Admit? || op.RunStart? || op.GatePublish? {
      ContinuedFrameSettles(s, op);
    } else if op.EgressPublish? {
    } else {
      ResumedElsewhere(s, op);
    }
  }

  lemma ContinuedFrameSettles(s: State, op: Op)
    requires op.Admit? || op.RunStart? || op.GatePublish?
    ensures Resumed(s, op).settled == s.settled && Resumed(s, op).owner == s.owner
  {
    match op {
      case Admit(run, _) => MovedFrameKeepsStored(s, run, Starting);
      case RunStart(run) => MovedFrameKeepsStored(s, run, if s.cancels then Ending(CancelledRun) else Preparing);
      case GatePublish(run, approval) => MovedFrameKeepsStored(s, run, Deciding(approval));
    }
  }

  lemma FrameEventSettles(s: State, e: Event)
    requires Enabled(s, e) && FrameEvent(e)
    ensures Step(s, e).settled == s.settled && OwnersKept(s, Step(s, e))
  {
    assert Step(s, e) == FrameStep(s, e);
  }

  ghost predicate OwnersKept(s: State, s': State) {
    forall id | id in s.owner :: id in s'.owner && s'.owner[id] == s.owner[id]
  }

  lemma OwnersStay(s: State, e: Event)
    requires Enabled(s, e)
    ensures OwnersKept(s, Step(s, e))
  {
    hide Resumed, Rejected, RowsAfter, LedgerAfter, Passes, NextFrame, FrameStep, Wanted, ReadsContained;
    if e.Continue? {
      ContinueSettles(s.(settled := None), s.settled.value);
    } else if e.Reject? {
      RejectedKeepsStored(if s.flight == Some(e.op) then s.(flight := None) else s, e.op, s.flight == Some(e.op));
    } else if FrameEvent(e) {
      FrameEventSettles(s, e);
    } else if e.Begin? || e.Commit? || e.Restart? || e.EgressAsks? {
      StoreEventSettles(s, e);
    } else {
      Elsewhere(s, e);
    }
  }

  // --- Whole runs --------------------------------------------------------

  lemma {:induction false} SettledWasCommitted(trace: seq<State>, events: seq<Event>, t: nat, op: Op) returns (k: nat)
    requires IsRun(trace, events) && t < |trace| && trace[t].settled == Some(op)
    ensures k < t && events[k] == Commit && trace[k].flight == Some(op)
    ensures forall m | k < m <= t :: trace[m].settled == Some(op)
  {
    hide Step, Enabled;
    assert t > 0;
    SettledByCommit(trace[t - 1], events[t - 1]);
    if events[t - 1].Commit? {
      k := t - 1;
    } else {
      k := SettledWasCommitted(trace, events, t - 1, op);
    }
  }

  /** At step `k` the approval's "approved" is committed. */
  ghost predicate ApprovedAt(trace: seq<State>, events: seq<Event>, k: nat, id: Id) {
    && k < |events| && k + 1 < |trace|
    && events[k] == Commit && trace[k].flight == Some(Resolve(id, true)) && PendingIn(trace[k], id)
    && id in trace[k + 1].rows.approvals && trace[k + 1].rows.approvals[id].decision.Approved?
  }

  /** A waiter is told "approved" only after that approval was committed as approved. */
  lemma {:induction false} ToldAfterApproval(trace: seq<State>, events: seq<Event>, t: nat, id: Id) returns (k: nat)
    requires IsRun(trace, events) && t < |trace| && ToldYes(trace[t], id)
    ensures k < t && ApprovedAt(trace, events, k, id)
  {
    hide Enabled;
    assert t > 0;
    if ToldYes(trace[t - 1], id) {
      k := ToldAfterApproval(trace, events, t - 1, id);
    } else {
      BecomesToldYes(trace[t - 1], events[t - 1], id);
      k := SettledWasCommitted(trace, events, t - 1, Resolve(id, true));
      RunKeeps(trace, events, k);
    }
  }

  lemma StartsIdle(trace: seq<State>, events: seq<Event>)
    requires IsRun(trace, events)
    ensures trace[0].frames == map[]
  {
  }

  lemma {:induction false} ResumingWasTold(trace: seq<State>, events: seq<Event>, t: nat, run: Id, id: Id) returns (k: nat)
    requires IsRun(trace, events) && t < |trace| && At(trace[t], run, Resuming(id))
    ensures k < t && ToldYes(trace[k], id)
  {
    hide Step, Enabled, Inv;
    StartsIdle(trace, events);
    var s, e := trace[t - 1], events[t - 1];
    if At(s, run, Resuming(id)) {
      k := ResumingWasTold(trace, events, t - 1, run, id);
    } else {
      RunKeeps(trace, events, t - 1);
      assert trace[t] == Step(s, e);
      BecomesResuming(s, e, run, id);
      k := t - 1;
    }
  }

  /** At step `k` the runtime confirms the pause of a step held for this approval. */
  ghost predicate PausedAt(trace: seq<State>, events: seq<Event>, k: nat, run: Id, id: Id) {
    && k < |events| && k < |trace|
    && events[k] == PauseSettles(run, true) && At(trace[k], run, Pausing(id)) && !trace[k].cancels
  }

  lemma {:induction false} PublishingWasPaused(trace: seq<State>, events: seq<Event>, t: nat, run: Id, id: Id) returns (k: nat)
    requires IsRun(trace, events) && t < |trace| && At(trace[t], run, Publishing(id))
    ensures k < t && PausedAt(trace, events, k, run, id)
  {
    hide Step, Enabled, Inv;
    assert t > 0;
    if At(trace[t - 1], run, Publishing(id)) {
      k := PublishingWasPaused(trace, events, t - 1, run, id);
    } else {
      RunKeeps(trace, events, t - 1);
      BecomesPublishing(trace[t - 1], events[t - 1], run, id);
      k := t - 1;
    }
  }

  lemma {:induction false} HeldIsNew(trace: seq<State>, events: seq<Event>, t: nat, run: Id, id: Id)
    requires IsRun(trace, events) && t < |trace| && HeldAt(trace[t], run, id)
    ensures id !in trace[0].owner
  {
    hide Step, Enabled, Inv;
    assert t > 0;
    if HeldAt(trace[t - 1], run, id) {
      HeldIsNew(trace, events, t - 1, run, id);
    } else {
      RunKeeps(trace, events, t - 1);
      BecomesHeld(trace[t - 1], events[t - 1], run, id);
      OwnersAccumulate(trace, events, 0, t - 1);
    }
  }

  lemma {:induction false} OwnersAccumulate(trace: seq<State>, events: seq<Event>, i: nat, j: nat)
    requires IsRun(trace, events) && i <= j < |trace|
    ensures OwnersKept(trace[i], trace[j])
    decreases j
  {
    hide Step, Enabled;
    if i < j {
      OwnersAccumulate(trace, events, i, j - 1);
      OwnersStay(trace[j - 1], events[j - 1]);
    }
  }

  lemma AppearsByPublishing(s: State, e: Event, id: Id)
    requires Enabled(s, e) && id in Step(s, e).rows.approvals && id !in s.rows.approvals
    ensures s.flight.Some? && id in PublishedBy(s.flight.value)
  {
    if e.Commit? {
      CommitKeys(s.rows, s.flight.value);
    } else if e.Restart? {
      if s.flight.Some? {
        CommitKeys(s.rows, s.flight.value);
      }
    } else {
      StoredMovesByCommit(s, e);
    }
  }

  /** An approval on record for an execution's gate was published behind a confirmed pause. */
  lemma {:induction false} RecordedWasPaused(trace: seq<State>, events: seq<Event>, t: nat, run: Id, id: Id) returns (k: nat)
    requires IsRun(trace, events) && t < |trace| && id in trace[t].rows.approvals
    requires id in trace[t].owner && trace[t].owner[id] == Some(run) && id !in trace[0].owner
    ensures k < t && PausedAt(trace, events, k, run, id)
  {
    hide Step, Enabled;
    RunKeeps(trace, events, 0);
    assert t > 0;
    RunKeeps(trace, events, t - 1);
    OwnersStay(trace[t - 1], events[t - 1]);
    if id in trace[t - 1].rows.approvals {
      k := RecordedWasPaused(trace, events, t - 1, run, id);
    } else {
      AppearsByPublishing(trace[t - 1], events[t - 1], id);
      PublisherIsOwner(trace[t - 1], id);
      var at := trace[t - 1].flight.value.run;
      if trace[t - 1].flight.value.GatePublish? {
        k := PublishingWasPaused(trace, events, t - 1, at, id);
      }
    }
  }

  lemma PublisherIsOwner(s: State, id: Id)
    requires Inv(s) && s.flight.Some? && id in PublishedBy(s.flight.value)
    ensures id in s.owner
    ensures s.flight.value.GatePublish? ==> s.owner[id] == Some(s.flight.value.run) && At(s, s.flight.value.run, Publishing(id))
    ensures s.flight.value.EgressPublish? ==> s.owner[id] == None
  {
    if s.flight.value.GatePublish? {
      assert HeldFor(s.frames[s.flight.value.run], id);
    }
  }

  /** A step held for approval goes on only after a confirmed pause, then the commit of that
      very approval as approved, then a successful resume, in that order. */
  lemma HeldStepPassesOnlyApproved(trace: seq<State>, events: seq<Event>, t: nat, run: Id, id: Id) returns (paused: nat, approved: nat)
    requires IsRun(trace, events) && t < |events|
    requires HeldAt(trace[t], run, id) && At(trace[t + 1], run, Executing)
    ensures paused < approved < t
    ensures PausedAt(trace, events, paused, run, id) && ApprovedAt(trace, events, approved, id)
    ensures events[t] == ResumeSettles(run, true) && At(trace[t], run, Resuming(id)) && !trace[t].cancels
  {
    hide Step, Enabled;
    RunKeeps(trace, events, t);
    LeavesGate(trace[t], events[t], run, id);
    var told := ResumingWasTold(trace, events, t, run, id);
    approved := ToldAfterApproval(trace, events, told, id);
    HeldIsNew(trace, events, t, run, id);
    RunKeeps(trace, events, approved);
    OwnersAccumulate(trace, events, approved, t);
    paused := RecordedWasPaused(trace, events, approved, run, id);
  }
}
