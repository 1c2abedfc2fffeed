/** What every run keeps about the termination under way, with nothing assumed of the events:
    its flag, its barrier, and that its own store calls are made one after another. */
module TerminationOrder {
  import opened Types
  import opened Lifecycle
  import ApprovalRuns
  import ApprovalProofs

  /** A revoke or evidence call under way is the one the termination is waiting for. */
  predicate Kept(s: State, op: Op) {
    op.RevokeBlock? || op.Persist? ==> Wanted(s, op)
  }

  predicate TermSound(s: State) {
    && (s.termination.Some? ==> s.terminating) && (s.terminating ==> s.barrier)
    && (s.flight.Some? ==> Kept(s, s.flight.value))
    && (s.settled.Some? ==> Kept(s, s.settled.value))
  }

  /** The termination is as it was; calls are at most forgotten. */
  predicate SameTermination(s: State, s': State) {
    && s'.termination == s.termination && s'.terminating == s.terminating && s'.barrier == s.barrier
    && (s'.flight == s.flight || s'.flight.None?) && (s'.settled == s.settled || s'.settled.None?)
  }

  lemma SameKeeps(s: State, s': State)
    requires TermSound(s) && SameTermination(s, s')
    ensures TermSound(s')
  {
  }

  lemma MovedSame(s: State, run: Id, f: Frame)
    ensures SameTermination(s, s.Frame(run, f))
  {
  }

  lemma UnregisteredSame(s: State, run: Id)
    ensures SameTermination(s, s.Unregister(run))
  {
  }

  lemma ToldSame(s: State, approval: Id, answer: bool)
    ensures SameTermination(s, s.Tell(approval, answer))
  {
  }

  /** A thread that ends can only take its termination out of the kill step. */
  lemma ReleaseKeeps(s: State, thread: Id, ok: bool)
    requires TermSound(s) && thread in s.stops
    ensures TermSound(s.Release(thread, ok))
  {
  }

  // --- Continuations -----------------------------------------------------

  lemma ResumedRunSame(s: State, op: Op)
    requires op.Admit? || op.RunStart? || op.GatePublish? || op.RunEnd?
    ensures SameTermination(s, Resumed(s, op))
  {
    if op.RunEnd? {
      UnregisteredSame(s, op.run);
    } else if op.RunStart? {
      MovedSame(s, op.run, if s.cancels then Ending(CancelledRun) else Preparing);
    } else if op.GatePublish? {
      MovedSame(s, op.run, Deciding(op.approval));
    } else if !op.violation {
      MovedSame(s, op.run, Starting);
    }
  }

  lemma ResumedAnswerSame(s: State, op: Op)
    requires op.EgressPublish? || op.Resolve? || op.Deny? || op.LedgerOp?
    ensures SameTermination(s, Resumed(s, op))
  {
    if op.Resolve? {
      ToldSame(s, op.approval, op.approve);
    } else if op.Deny? && op.thread !in s.stops {
      assert Resumed(s, op) == s;
    }
  }

  /** The termination's own calls come back. */
  lemma ResumedOwnKeeps(s: State, op: Op)
    requires ApprovalRuns.CallsSound(s) && TermSound(s) && s.settled == Some(op)
    requires op.RevokeBlock? || op.Persist? || op.SetReady?
    ensures TermSound(Resumed(s.(settled := None), op))
  {
    hide RowsAfter, ApprovalRuns.Pin;
  }

  lemma ContinueKeeps(s: State)
    requires ApprovalRuns.CallsSound(s) && TermSound(s) && Enabled(s, Continue)
    ensures TermSound(Step(s, Continue))
  {
    hide Resumed, ApprovalRuns.CallsSound;
    var op, s0 := s.settled.value, s.(settled := None);
    assert Step(s, Continue) == Resumed(s0, op);
    SameKeeps(s, s0);
    if op.Admit? || op.RunStart? || op.GatePublish? || op.RunEnd? {
      ResumedRunSame(s0, op);
      SameKeeps(s0, Resumed(s0, op));
    } else if op.EgressPublish? || op.Resolve? || op.Deny? || op.LedgerOp? {
      ResumedAnswerSame(s0, op);
      SameKeeps(s0, Resumed(s0, op));
    } else if op.Final? {
      ResumedFinalKeeps(s0, op);
    } else {
      ResumedOwnKeeps(s, op);
    }
  }

  lemma ResumedFinalKeeps(s: State, op: Op)
    requires TermSound(s) && op.Final?
    ensures TermSound(Resumed(s, op))
  {
    if op.thread in s.stops {
      ReleaseKeeps(s, op.thread, true);
    } else {
      assert Resumed(s, op) == s;
    }
  }

  // --- Rejections --------------------------------------------------------

  lemma RejectedRunSame(s: State, op: Op, lost: bool)
    requires op.RunStart? || op.RunEnd?
    ensures SameTermination(s, Rejected(s, op, lost))
  {
    UnregisteredSame(s, op.run);
    MovedSame(s, op.run, Ending(Failure));
  }

  lemma RejectedPublicationSame(s: State, op: Op, lost: bool)
    requires op.GatePublish? || op.EgressPublish?
    ensures SameTermination(s, Rejected(s, op, lost))
  {
  }

  lemma RejectedStopKeeps(s: State, op: Op, lost: bool)
    requires TermSound(s) && (op.Deny? || op.Final?)
    ensures TermSound(Rejected(s, op, lost))
  {
    if op.thread in s.stops {
      SameKeeps(s, s.(cancels := false));
      ReleaseKeeps(s, op.thread, false);
      ReleaseKeeps(s.(cancels := false), op.thread, false);
    } else {
      assert Rejected(s, op, lost) == s;
    }
  }

  lemma RejectedOwnKeeps(s: State, op: Op, lost: bool)
    requires TermSound(s) && (op.RevokeBlock? || op.Persist?) && Wanted(s, op) && !Made(s.flight, op) && !Made(s.settled, op)
    ensures TermSound(Rejected(s, op, lost))
  {
  }

  lemma RejectedKeeps(s: State, op: Op, lost: bool)
    requires TermSound(s) && !Made(s.flight, op) && !Made(s.settled, op)
    requires op.RevokeBlock? || op.Persist? ==> Wanted(s, op)
    ensures TermSound(Rejected(s, op, lost))
  {
    hide Rejected, Wanted, Made;
    if op.RunStart? || op.RunEnd? {
      RejectedRunSame(s, op, lost);
      SameKeeps(s, Rejected(s, op, lost));
    } else if op.GatePublish? || op.EgressPublish? {
      RejectedPublicationSame(s, op, lost);
      SameKeeps(s, Rejected(s, op, lost));
    } else if op.Deny? || op.Final? {
      RejectedStopKeeps(s, op, lost);
    } else if op.RevokeBlock? || op.Persist? {
      RejectedOwnKeeps(s, op, lost);
    } else {
      NothingRejected(s, op, lost);
    }
  }

  lemma NothingRejected(s: State, op: Op, lost: bool)
    requires op.Admit? || op.Resolve? || op.SetReady? || op.LedgerOp?
    ensures Rejected(s, op, lost) == s
  {
  }

  lemma RejectKeeps(s: State, op: Op)
    requires ApprovalRuns.CallsSound(s) && TermSound(s) && Enabled(s, Reject(op))
    ensures TermSound(Step(s, Reject(op)))
  {
    hide Rejected;
    var lost := s.flight == Some(op);
    var s0 := if lost then s.(flight := None) else s;
    SameKeeps(s, s0);
    assert Step(s, Reject(op)) == Rejected(s0, op, lost);
    RejectedKeeps(s0, op, lost);
  }

  // --- Everything else ---------------------------------------------------

  lemma CallsKeep(s: State, e: Event)
    requires TermSound(s) && Enabled(s, e) && (e.Begin? || e.Commit? || e.Restart?)
    ensures TermSound(Step(s, e))
  {
  }

  lemma FrameEventKeeps(s: State, e: Event)
    requires TermSound(s) && Enabled(s, e) && FrameEvent(e)
    ensures TermSound(Step(s, e))
  {
    assert Step(s, e) == FrameStep(s, e);
    SameKeeps(s, FrameStep(s, e));
  }

  lemma EgressEventKeeps(s: State, e: Event)
    requires TermSound(s) && Enabled(s, e) && (e.EgressAsks? || e.EgressClears?)
    ensures TermSound(Step(s, e))
  {
    if e.EgressClears? {
      ToldSame(s, e.approval, false);
    }
    SameKeeps(s, Step(s, e));
  }

  lemma StopEventKeeps(s: State, e: Event)
    requires TermSound(s) && Enabled(s, e) && (e.StopStarts? || e.CancelReturns?)
    ensures TermSound(Step(s, e))
  {
  }

  lemma ExecutionSettlesKeeps(s: State, thread: Id)
    requires TermSound(s) && Enabled(s, ExecutionSettles(thread))
    ensures TermSound(Step(s, ExecutionSettles(thread)))
  {
    var calm, s' := s.(cancels := false), Step(s, ExecutionSettles(thread));
    SameKeeps(s, calm);
    if s.stops[thread].pc.cancelled {
      SameKeeps(calm, s');
    } else {
      ReleaseKeeps(calm, thread, false);
      assert s' == calm.Release(thread, false);
    }
  }

  lemma TermEventKeeps(s: State, e: Event)
    requires TermSound(s) && Enabled(s, e) && TermEvent(e)
    ensures TermSound(Step(s, e))
  {
  }

  lemma StepKeeps(s: State, e: Event)
    requires ApprovalRuns.Inv(s) && TermSound(s) && Enabled(s, e)
    ensures TermSound(Step(s, e))
  {
    hide Step, Enabled, TermSound;
    if e.Continue? {
      ContinueKeeps(s);
    } else if e.Reject? {
      RejectKeeps(s, e.op);
    } else if e.Begin? || e.Commit? || e.Restart? {
      CallsKeep(s, e);
    } else if FrameEvent(e) {
      FrameEventKeeps(s, e);
    } else if e.EgressAsks? || e.EgressClears? {
      EgressEventKeeps(s, e);
    } else if e.StopStarts? || e.CancelReturns? {
      StopEventKeeps(s, e);
    } else if e.ExecutionSettles? {
      ExecutionSettlesKeeps(s, e.thread);
    } else {
      TermEventKeeps(s, e);
    }
  }

  lemma BootSound(trace: seq<State>, events: seq<Event>)
    requires IsRun(trace, events)
    ensures TermSound(trace[0])
  {
  }

  lemma {:induction false} RunKeeps(trace: seq<State>, events: seq<Event>, t: nat)
    requires IsRun(trace, events) && t < |trace|
    ensures ApprovalRuns.Inv(trace[t]) && TermSound(trace[t])
  {
    hide Step, Enabled, TermSound, ApprovalRuns.Inv;
    ApprovalProofs.RunKeeps(trace, events, t);
    if t == 0 {
      BootSound(trace, events);
    } else {
      RunKeeps(trace, events, t - 1);
      StepKeeps(trace[t - 1], events[t - 1]);
    }
  }
}
