/** Termination as seen from outside: no start before its evidence, no authority after its
    revoke commit, and a contained receipt only over a contained agent. */
module TerminationRuns {
  import opened Types
  import Identity
  import opened Lifecycle
  import LedgerRuns
  import OneRun
  import opened TerminationOrder
  import ApprovalRuns
  import ApprovalProofs
  import ApprovalHistory

  // --- The ledger along a run --------------------------------------------

  ghost predicate LedgerSound(s: State) {
    && LedgerRuns.WellFormed(s.ledger)
    && (s.rows.agent.Some? <==> Identity.HasAccount(s.ledger.accounts, ME))
    && (s.flight.Some? && s.flight.value.LedgerOp? ==>
          Foreign(s.flight.value.step) && LedgerRuns.Fresh(s.ledger, s.flight.value.step))
    && (s.flight.Some? && s.flight.value.RevokeBlock? ==> s.rows.agent.Some?)
  }

  lemma LedgerMoves(s: State, op: Op)
    requires LedgerSound(s) && s.flight == Some(op)
    ensures LedgerRuns.WellFormed(LedgerAfter(s.ledger, op))
  {
    if LedgerStepOf(op).Some? {
      LedgerRuns.StepKeeps(s.ledger, LedgerStepOf(op).value);
    }
  }

  lemma {:induction false} BlockKeepsAccount(accounts: seq<Identity.Account>, agentId: Id, blocked: bool)
    ensures Identity.HasAccount(Identity.BlockAccount(accounts, agentId, blocked), ME) <==> Identity.HasAccount(accounts, ME)
  {
    var after := Identity.BlockAccount(accounts, agentId, blocked);
    if a :| a in accounts && a.agentId == ME {
      var i :| 0 <= i < |accounts| && accounts[i] == a;
      assert after[i] in after && after[i].agentId == ME;
    }
    if a :| a in after && a.agentId == ME {
      var i :| 0 <= i < |after| && after[i] == a;
      assert accounts[i] in accounts && accounts[i].agentId == ME;
    }
  }

  lemma ForeignKeepsAccount(l: Identity.Ledger, step: LedgerRuns.Step)
    requires Foreign(step)
    ensures Identity.HasAccount(LedgerRuns.Apply(l, step).accounts, ME) <==> Identity.HasAccount(l.accounts, ME)
  {
    match step
    case AddAgent(agentId, principalId) =>
      var l' := LedgerRuns.Apply(l, step);
      forall a | a in l'.accounts && a.agentId == ME
        ensures a in l.accounts
      {
      }
      forall a | a in l.accounts
        ensures a in l'.accounts
      {
      }
    case Terminate(agentId, _) => BlockKeepsAccount(l.accounts, agentId, true);
    case Start(agentId) => BlockKeepsAccount(l.accounts, agentId, false);
    case Delete(agentId) =>
      forall a | a in l.accounts && a.agentId == ME
        ensures a in LedgerRuns.DropAccount(l.accounts, agentId)
      {
      }
    case _ =>
  }

  lemma OwnStepKeepsAccount(l: Identity.Ledger, op: Op)
    requires op.SetReady? || op.RevokeBlock?
    ensures Identity.HasAccount(LedgerAfter(l, op).accounts, ME) <==> Identity.HasAccount(l.accounts, ME)
  {
    BlockKeepsAccount(l.accounts, ME, op.RevokeBlock?);
  }

  lemma AgentStaysWithAccount(s: State, op: Op)
    requires LedgerSound(s) && s.flight == Some(op)
    ensures RowsAfter(s.rows, op).agent.Some? <==> Identity.HasAccount(LedgerAfter(s.ledger, op).accounts, ME)
  {
    match op
    case SetReady => OwnStepKeepsAccount(s.ledger, op);
    case RevokeBlock(_) => OwnStepKeepsAccount(s.ledger, op);
    case LedgerOp(step) => ForeignKeepsAccount(s.ledger, step);
    case Final(_, kind) =>
    case _ =>
  }

  lemma LedgerKeeps(s: State, e: Event)
    requires LedgerSound(s) && Enabled(s, e)
    ensures LedgerSound(Step(s, e))
  {
    if e.Commit? {
      LedgerMoves(s, s.flight.value);
      AgentStaysWithAccount(s, s.flight.value);
    } else if e.Restart? {
      if e.durable && s.flight.Some? {
        LedgerMoves(s, s.flight.value);
        AgentStaysWithAccount(s, s.flight.value);
      }
    } else {
      ApprovalProofs.StoredMovesByCommit(s, e);
    }
  }

  lemma {:induction false} LedgerRunKeeps(trace: seq<State>, events: seq<Event>, t: nat)
    requires IsRun(trace, events) && t < |trace|
    ensures LedgerSound(trace[t])
  {
    hide Step, Enabled;
    if t > 0 {
      LedgerRunKeeps(trace, events, t - 1);
      LedgerKeeps(trace[t - 1], events[t - 1]);
    }
  }

  /** This event writes to disk a start or a deletion of the agent. */
  predicate LiftsBlock(s: State, e: Event) {
    && (e.Commit? || (e.Restart? && e.durable))
    && s.flight.Some? && (s.flight.value.SetReady? || (s.flight.value.Final? && s.flight.value.kind.Delete?))
  }

  lemma BarredKept(s: State, e: Event, principal: Id)
    requires LedgerSound(s) && Enabled(s, e) && !LiftsBlock(s, e) && LedgerRuns.Barred(s.ledger, ME, principal)
    ensures LedgerRuns.Barred(Step(s, e).ledger, ME, principal)
  {
    if e.Commit? || (e.Restart? && e.durable && s.flight.Some?) {
      BarredAfter(s, s.flight.value, principal);
    } else if !e.Restart? {
      ApprovalProofs.StoredMovesByCommit(s, e);
    }
  }

  lemma BarredAfter(s: State, op: Op, principal: Id)
    requires LedgerSound(s) && s.flight == Some(op) && LedgerRuns.Barred(s.ledger, ME, principal)
    requires !op.SetReady? && !(op.Final? && op.kind.Delete?)
    ensures LedgerRuns.Barred(LedgerAfter(s.ledger, op), ME, principal)
  {
    if LedgerStepOf(op).Some? {
      LedgerRuns.StepKeepsBarred(s.ledger, LedgerStepOf(op).value, ME, principal);
    }
  }

  function PrincipalOf(l: Identity.Ledger): Id {
    var account := LedgerRuns.AccountById(l.accounts, ME);
    if account.Some? then account.value.principalId else 0
  }

  lemma RevokeCommitBars(s: State, at: Time)
    requires LedgerSound(s) && s.flight == Some(RevokeBlock(at))
    ensures LedgerRuns.Barred(LedgerAfter(s.ledger, RevokeBlock(at)), ME, PrincipalOf(s.ledger))
  {
    LedgerRuns.TerminateBars(s.ledger, ME, at);
  }

  /** The revoke call reaches the disk: it commits, or the server goes away just after its write. */
  predicate Revokes(s: State, e: Event, at: Time) {
    s.flight == Some(RevokeBlock(at)) && (e == Commit || e == Restart(true))
  }

  lemma RevokeCommits(s: State, e: Event, at: Time)
    requires LedgerSound(s) && Enabled(s, e) && Revokes(s, e, at)
    ensures LedgerRuns.Barred(Step(s, e).ledger, ME, PrincipalOf(s.ledger))
  {
    RevokeCommitBars(s, at);
  }

  lemma {:induction false} BarredFrom(trace: seq<State>, events: seq<Event>, k: nat, j: nat, at: Time)
    requires IsRun(trace, events) && k < j < |trace|
    requires Revokes(trace[k], events[k], at)
    requires forall m | k < m < j :: !LiftsBlock(trace[m], events[m])
    ensures LedgerRuns.Barred(trace[j].ledger, ME, PrincipalOf(trace[k].ledger))
    decreases j
  {
    hide Step, Enabled;
    LedgerRunKeeps(trace, events, j - 1);
    if k + 1 == j {
      RevokeCommits(trace[k], events[k], at);
    } else {
      BarredFrom(trace, events, k, j - 1, at);
      BarredKept(trace[j - 1], events[j - 1], PrincipalOf(trace[k].ledger));
    }
  }

  /** From the moment termination's revoke step is on disk, through restarts and whatever else,
      until a start or a deletion of the agent reaches the disk, its principal holds no unrevoked
      grant. */
  lemma RevokedUntilStart(trace: seq<State>, events: seq<Event>, k: nat, j: nat, at: Time)
    requires IsRun(trace, events) && k < j < |trace|
    requires Revokes(trace[k], events[k], at)
    requires forall m | k < m < j :: !LiftsBlock(trace[m], events[m])
    ensures LedgerRuns.NoUnrevoked(trace[j].ledger.grants, PrincipalOf(trace[k].ledger))
  {
    hide Step, Enabled;
    BarredFrom(trace, events, k, j, at);
    LedgerRunKeeps(trace, events, j);
    LedgerRuns.BarredHoldsNothing(trace[j].ledger, ME, PrincipalOf(trace[k].ledger));
  }

  // --- Start waits for the evidence --------------------------------------

  predicate Evidence(s: State, e: Event) {
    (e.Continue? && s.settled.Some? && s.settled.value.Persist?) || e.Restart?
  }

  lemma ResumedKeepsTerminating(s: State, op: Op)
    requires s.terminating && !op.Persist?
    ensures Resumed(s, op).terminating
  {
    if op.Admit? || op.RunStart? || op.GatePublish? || op.RunEnd? {
      ResumedRunKeepsTerminating(s, op);
    }
  }

  lemma ResumedRunKeepsTerminating(s: State, op: Op)
    requires s.terminating && (op.Admit? || op.RunStart? || op.GatePublish? || op.RunEnd?)
    ensures Resumed(s, op).terminating
  {
  }

  lemma RejectedKeepsTerminating(s: State, op: Op, lost: bool)
    requires s.terminating
    ensures Rejected(s, op, lost).terminating
  {
    if op.GatePublish? || op.EgressPublish? {
    } else if op.Deny? || op.Final? {
    } else {
    }
  }

  lemma OthersKeepTerminating(s: State, e: Event)
    requires Enabled(s, e) && s.terminating && !e.Continue? && !e.Reject? && !e.Restart?
    ensures Step(s, e).terminating
  {
    hide Resumed, Rejected, RowsAfter, LedgerAfter, Booted, Passes, Wanted, Made, ReadsContained, NextFrame;
    if e.EnterRunner? || e.RunnerSettles? || e.GateOpens? {
    } else if e.PauseSettles? || e.DecisionSettles? || e.ResumeSettles? {
    } else if e.Begin? || e.Commit? || e.EgressAsks? || e.EgressClears? {
    } else if e.StopStarts? || e.CancelReturns? || e.ExecutionSettles? {
    } else {
    }
  }

  lemma TerminatingStays(s: State, e: Event)
    requires Enabled(s, e) && s.terminating && !Evidence(s, e)
    ensures Step(s, e).terminating
  {
    if e.Continue? {
      ResumedKeepsTerminating(s.(settled := None), s.settled.value);
    } else if e.Reject? {
      RejectedKeepsTerminating(if s.flight == Some(e.op) then s.(flight := None) else s, e.op, s.flight == Some(e.op));
    } else {
      OthersKeepTerminating(s, e);
    }
  }

  /** A start succeeds at this step: its third and last check passes. */
  predicate StartSucceeds(s: State, e: Event) {
    e.Continue? && s.settled == Some(SetReady) && !s.terminating
  }

  lemma TerminationStarts(s: State, e: Event)
    requires Enabled(s, e) && e.TermStarts?
    ensures Step(s, e).terminating
  {
  }

  /** The evidence of a termination is being written, or the server went away. */
  lemma {:induction false} TerminatingUntilEvidence(trace: seq<State>, events: seq<Event>, i: nat, j: nat) returns (k: nat)
    requires IsRun(trace, events) && i < j < |trace| && events[i].TermStarts? && !trace[j].terminating
    ensures i < k < j && Evidence(trace[k], events[k])
    decreases j
  {
    hide Step, Enabled;
    TerminationStarts(trace[i], events[i]);
    if Evidence(trace[j - 1], events[j - 1]) && j - 1 > i {
      k := j - 1;
    } else {
      if trace[j - 1].terminating && j - 1 > i {
        TerminatingStays(trace[j - 1], events[j - 1]);
      }
      k := TerminatingUntilEvidence(trace, events, i, j - 1);
    }
  }

  lemma NoEvidenceBefore(s: State, e: Event)
    requires TermSound(s) && Enabled(s, e) && e.TermStarts?
    ensures s.settled.Some? ==> !s.settled.value.Persist?
  {
  }

  /** In every run whatsoever, a start cannot succeed after a termination began until that
      termination's receipt has been committed; only a restart of the server undoes this. */
  lemma StartWaitsForReceipt(trace: seq<State>, events: seq<Event>, i: nat, j: nat) returns (k: nat)
    requires IsRun(trace, events) && i < j < |events|
    requires events[i].TermStarts? && StartSucceeds(trace[j], events[j])
    ensures i < k < j && (events[k].Restart? || (events[k].Commit? && trace[k].flight.Some? && trace[k].flight.value.Persist?))
  {
    hide Step, Enabled, TermSound, ApprovalRuns.Inv;
    var evidence := TerminatingUntilEvidence(trace, events, i, j);
    if events[evidence].Restart? {
      k := evidence;
    } else {
      k := ApprovalHistory.SettledWasCommitted(trace, events, evidence, trace[evidence].settled.value);
      TerminationOrder.RunKeeps(trace, events, i);
      NoEvidenceBefore(trace[i], events[i]);
    }
  }

  lemma UnblockedAccount(accounts: seq<Identity.Account>, a: Identity.Account)
    requires LedgerRuns.DistinctAccounts(accounts)
    requires a in Identity.BlockAccount(accounts, ME, false) && a.agentId == ME
    ensures !a.blocked
  {
    hide Identity.BlockAccount;
    LedgerRuns.BlockedAccounts(accounts, ME, false);
  }

  lemma StartUnblocks(l: Identity.Ledger)
    requires LedgerRuns.DistinctAccounts(l.accounts)
    ensures !Blocked(LedgerAfter(l, SetReady))
  {
    hide Identity.BlockAccount;
    var after := Identity.BlockAccount(l.accounts, ME, false);
    assert LedgerAfter(l, SetReady).accounts == after;
    var found := LedgerRuns.AccountById(after, ME);
    if found.Some? {
      UnblockedAccount(l.accounts, found.value);
    }
  }

  lemma StartCommits(s: State, e: Event)
    requires LedgerSound(s) && Enabled(s, e) && e.Commit? && s.flight == Some(SetReady)
    ensures !Blocked(Step(s, e).ledger)
  {
    hide LedgerRuns.Forest, LedgerRuns.RootsAreHuman, LedgerRuns.BlockedHoldNothing, LedgerAfter, Blocked, LedgerRuns.DistinctAccounts;
    StartUnblocks(s.ledger);
  }

  /** One step of the argument: a start has just committed, or had committed before. */
  lemma SettledStartStep(s: State, e: Event)
    requires LedgerSound(s) && Enabled(s, e) && Step(s, e).settled == Some(SetReady)
    requires s.settled == Some(SetReady) ==> !Blocked(s.ledger)
    ensures !Blocked(Step(s, e).ledger)
  {
    hide Step, Enabled, Blocked, LedgerSound;
    ApprovalHistory.SettledByCommit(s, e);
    if e.Commit? {
      StartCommits(s, e);
    } else {
      StoredWhileSettled(s, e);
    }
  }

  /** Whenever a start has committed and is about to make its last check, the block is gone;
      so a start refused by that check has always lifted it. */
  lemma {:induction false} SettledStartHasUnblocked(trace: seq<State>, events: seq<Event>, t: nat)
    requires IsRun(trace, events) && t < |trace| && trace[t].settled == Some(SetReady)
    ensures !Blocked(trace[t].ledger)
  {
    hide Step, Enabled, Blocked, LedgerSound;
    StartsUnsettled(trace, events);
    LedgerRunKeeps(trace, events, t - 1);
    if trace[t - 1].settled == Some(SetReady) {
      SettledStartHasUnblocked(trace, events, t - 1);
    }
    SettledStartStep(trace[t - 1], events[t - 1]);
  }

  lemma StartsUnsettled(trace: seq<State>, events: seq<Event>)
    requires IsRun(trace, events)
    ensures trace[0].settled.None?
  {
  }

  lemma StoredWhileSettled(s: State, e: Event)
    requires Enabled(s, e) && !e.Commit? && Step(s, e).settled.Some?
    ensures Step(s, e).ledger == s.ledger
  {
    if !e.Restart? {
      ApprovalProofs.StoredMovesByCommit(s, e);
    }
  }

  // --- A contained receipt -----------------------------------------------

  /** The revoke step of the termination under way has committed. */
  predicate RevokeDone(s: State) {
    && s.termination.Some?
    && (s.termination.value.pc.Draining? || s.termination.value.revokeOk == Some(true)
        || (s.settled.Some? && s.settled.value.RevokeBlock?))
  }

  /** No admission and no start is on its way to the disk, or just back from it. */
  predicate Quiet(s: State) {
    && (s.flight.Some? ==> !s.flight.value.Admit? && !s.flight.value.SetReady?)
    && (s.settled.Some? ==> !s.settled.value.Admit? && !s.settled.value.SetReady?)
  }

  ghost predicate TermInv(s: State) {
    RevokeDone(s) ==> Quiet(s) && (s.rows.agent.Some? ==> LedgerRuns.Barred(s.ledger, ME, PrincipalOf(s.ledger)))
  }

  predicate AboutToClaim(s: State) {
    s.termination.Some? && s.termination.value.pc == Persisting(true)
  }

  /** Containment is claimed only where the revoke step succeeded. */
  predicate RevokeClaimed(s: State) {
    AboutToClaim(s) ==> s.termination.value.revokeOk == Some(true)
  }

  /** From the moment the verification has read that all is well, authority revoked. */
  predicate Claiming(s: State) {
    && s.termination.Some? && s.termination.value.revokeOk == Some(true)
    && (s.termination.value.pc == Probing(true) || s.termination.value.pc == Persisting(true))
  }

  lemma ReleaseRevokes(s: State, thread: Id, ok: bool)
    requires thread in s.stops
    ensures RevokeDone(s.Release(thread, ok)) ==> RevokeDone(s)
    ensures AboutToClaim(s.Release(thread, ok)) ==> AboutToClaim(s)
    ensures Claiming(s.Release(thread, ok)) ==> Claiming(s)
    ensures s.termination.Some? && s.Release(thread, ok).termination.Some? ==>
              s.Release(thread, ok).termination.value.revokeOk == s.termination.value.revokeOk
  {
  }

  /** The termination's progress, before and after. */
  predicate NoNewProgress(s: State, s': State) {
    && (RevokeDone(s') ==> RevokeDone(s))
    && (Claiming(s') ==> Claiming(s))
    && (AboutToClaim(s') ==> AboutToClaim(s) && s'.termination.value.revokeOk == s.termination.value.revokeOk)
  }

  lemma ResumedThreads(s: State, op: Op)
    requires s.settled.None? && (op.Deny? || op.Final? || op.Persist? || op.SetReady? || op.Resolve? || op.LedgerOp?)
    ensures NoNewProgress(s, Resumed(s, op))
  {
    if op.Final? && op.thread in s.stops {
      ReleaseRevokes(s, op.thread, true);
    }
  }

  lemma UnregisterProgress(s: State, run: Id)
    ensures NoNewProgress(s, s.Unregister(run))
  {
  }

  lemma MovedProgress(s: State, run: Id, f: Frame)
    ensures NoNewProgress(s, s.Frame(run, f))
  {
  }

  lemma ResumedRuns(s: State, op: Op)
    requires op.Admit? || op.RunStart? || op.GatePublish? || op.EgressPublish? || op.RunEnd?
    ensures NoNewProgress(s, Resumed(s, op))
  {
    if op.RunEnd? {
      UnregisterProgress(s, op.run);
    } else if op.RunStart? {
      MovedProgress(s, op.run, if s.cancels then Ending(CancelledRun) else Preparing);
    } else if op.GatePublish? {
      MovedProgress(s, op.run, Deciding(op.approval));
    } else {
      ResumedCalls(s, op);
    }
  }

  lemma ResumedCalls(s: State, op: Op)
    requires op.Admit? || op.EgressPublish?
    ensures NoNewProgress(s, Resumed(s, op))
  {
    assert Resumed(s, op).termination == s.termination && Resumed(s, op).settled == s.settled;
  }

  lemma ForgettingProgress(s: State)
    ensures NoNewProgress(s, s.(settled := None))
  {
  }

  lemma ContinueProgress(s: State)
    requires ApprovalRuns.CallsSound(s) && TermSound(s) && Enabled(s, Continue)
    ensures NoNewProgress(s, Step(s, Continue))
  {
    var op, s0 := s.settled.value, s.(settled := None);
    ForgettingProgress(s);
    if op.RevokeBlock? {
    } else if op.Admit? || op.RunStart? || op.GatePublish? || op.EgressPublish? || op.RunEnd? {
      ResumedRuns(s0, op);
    } else {
      ResumedThreads(s0, op);
    }
  }

  lemma RejectedThreads(s: State, op: Op, lost: bool)
    requires op.Deny? || op.Final? || op.Persist? || op.SetReady? || op.Resolve? || op.LedgerOp? || op.Admit?
    ensures NoNewProgress(s, Rejected(s, op, lost))
  {
    if op.Deny? && op.thread in s.stops {
      ReleaseRevokes(s.(cancels := false), op.thread, false);
    } else if op.Final? && op.thread in s.stops {
      ReleaseRevokes(s, op.thread, false);
    }
  }

  lemma TellProgress(s: State, approval: Id)
    ensures NoNewProgress(s, s.Tell(approval, false))
  {
  }

  lemma RejectedPublications(s: State, op: Op, lost: bool)
    requires op.GatePublish? || op.EgressPublish?
    ensures NoNewProgress(s, Rejected(s, op, lost))
  {
    TellProgress(s, op.approval);
    if op.GatePublish? {
      assert Rejected(s, op, lost).termination == s.termination && Rejected(s, op, lost).settled == s.settled;
    }
  }

  lemma RejectedRuns(s: State, op: Op, lost: bool)
    requires op.RunStart? || op.RunEnd?
    ensures NoNewProgress(s, Rejected(s, op, lost))
  {
    UnregisterProgress(s, op.run);
    MovedProgress(s, op.run, Ending(Failure));
  }

  lemma RejectedRevoke(s: State, op: Op, lost: bool)
    requires op.RevokeBlock? && (s.settled.Some? ==> !s.settled.value.RevokeBlock?)
    ensures NoNewProgress(s, Rejected(s, op, lost))
  {
  }

  lemma RejectProgress(s: State, op: Op)
    requires ApprovalRuns.CallsSound(s) && TermSound(s) && Enabled(s, Reject(op))
    ensures NoNewProgress(s, Step(s, Reject(op)))
  {
    var lost := s.flight == Some(op);
    var s0 := if lost then s.(flight := None) else s;
    if op.RevokeBlock? {
      RejectedRevoke(s0, op, lost);
    } else if op.RunStart? || op.RunEnd? {
      RejectedRuns(s0, op, lost);
    } else if op.GatePublish? || op.EgressPublish? {
      RejectedPublications(s0, op, lost);
    } else {
      RejectedThreads(s0, op, lost);
    }
  }

  lemma StopProgress(s: State, e: Event)
    requires Enabled(s, e) && (e.StopStarts? || e.CancelReturns?)
    ensures NoNewProgress(s, Step(s, e))
  {
  }

  lemma SettledProgress(s: State, thread: Id)
    requires Enabled(s, ExecutionSettles(thread))
    ensures NoNewProgress(s, Step(s, ExecutionSettles(thread)))
  {
    var calm := s.(cancels := false);
    var s' := Step(s, ExecutionSettles(thread));
    if s.stops[thread].pc.cancelled {
      assert s'.termination == s.termination && s'.settled == s.settled;
    } else {
      ReleaseRevokes(calm, thread, false);
      assert s' == calm.Release(thread, false);
    }
  }

  lemma TermProgress(s: State, e: Event)
    requires ApprovalRuns.CallsSound(s) && TermSound(s) && Enabled(s, e) && (e.TermStarts? || e.FreezeSettles? || e.DrainSettles?)
    ensures NoNewProgress(s, Step(s, e))
  {
    hide Resumed, Rejected, RowsAfter, LedgerAfter, Booted, Passes, NextFrame, FrameStep;
  }

  lemma FrameProgress(s: State, e: Event)
    requires Enabled(s, e) && FrameEvent(e)
    ensures NoNewProgress(s, Step(s, e))
  {
    assert Step(s, e) == FrameStep(s, e);
  }

  /** Only commits, and the verification itself, take a termination towards its claim. */
  lemma Progress(s: State, e: Event)
    requires ApprovalRuns.CallsSound(s) && TermSound(s) && Enabled(s, e) && !e.Commit? && !e.VerifyReads? && !e.VerifySettles?
    ensures NoNewProgress(s, Step(s, e))
  {
    hide Resumed, Rejected, RowsAfter, LedgerAfter, Passes, NextFrame, FrameStep, Wanted, Made;
    if e.Continue? {
      ContinueProgress(s);
    } else if e.Reject? {
      RejectProgress(s, e.op);
    } else if e.StopStarts? || e.CancelReturns? {
      StopProgress(s, e);
    } else if e.ExecutionSettles? {
      SettledProgress(s, e.thread);
    } else if e.TermStarts? || e.FreezeSettles? || e.DrainSettles? {
      TermProgress(s, e);
    } else if FrameEvent(e) {
      FrameProgress(s, e);
    } else {
    }
  }

  lemma VerifyProgress(s: State, e: Event)
    requires Enabled(s, e) && (e.VerifyReads? || e.VerifySettles?)
    ensures RevokeDone(Step(s, e)) ==> RevokeDone(s)
    ensures e.VerifySettles? && Claiming(Step(s, e)) ==> Claiming(s)
    ensures RevokeClaimed(Step(s, e))
    ensures Claiming(Step(s, e)) && e.VerifyReads? ==> e.clean
  {
    hide Resumed, Rejected, RowsAfter, LedgerAfter, Booted, Passes, NextFrame, FrameStep;
  }

  // --- The invariants, along a run ---------------------------------------

  lemma QuietKept(s: State, e: Event)
    requires ApprovalRuns.CallsSound(s) && TermSound(s) && Enabled(s, e) && Quiet(s) && RevokeDone(s)
    ensures Quiet(Step(s, e))
  {
    ApprovalHistory.SettledByCommit(s, e);
    if e.Commit? || e.Restart? {
    } else {
      ApprovalProofs.StoredMovesByCommit(s, e);
    }
  }

  lemma BlockedPrincipal(l: Identity.Ledger, principal: Id)
    requires LedgerRuns.WellFormed(l) && LedgerRuns.Barred(l, ME, principal)
    ensures PrincipalOf(l) == principal
  {
    LedgerRuns.AccountByIdDistinct(l.accounts, Identity.Account(ME, principal, true));
  }

  lemma BlockKept(s: State, e: Event)
    requires LedgerSound(s) && Enabled(s, e) && (e.Commit? ==> !s.flight.value.SetReady?) && !e.Restart?
    requires s.rows.agent.Some? ==> LedgerRuns.Barred(s.ledger, ME, PrincipalOf(s.ledger))
    ensures Step(s, e).rows.agent.Some? ==> LedgerRuns.Barred(Step(s, e).ledger, ME, PrincipalOf(Step(s, e).ledger))
  {
    var s' := Step(s, e);
    LedgerKeeps(s, e);
    if s'.rows.agent.Some? {
      AgentWasThere(s, e);
      BarredKept(s, e, PrincipalOf(s.ledger));
      BlockedPrincipal(s'.ledger, PrincipalOf(s.ledger));
    }
  }

  /** Nothing in the model creates the agent, and a deletion does not leave it. */
  lemma AgentWasThere(s: State, e: Event)
    requires Enabled(s, e) && Step(s, e).rows.agent.Some? && !e.Restart?
    ensures s.rows.agent.Some?
    ensures e.Commit? && s.flight.value.Final? ==> !s.flight.value.kind.Delete?
  {
    if !e.Commit? {
      ApprovalProofs.StoredMovesByCommit(s, e);
    }
  }

  lemma TermInvCommit(s: State)
    requires ApprovalRuns.CallsSound(s) && TermSound(s) && LedgerSound(s) && TermInv(s) && Enabled(s, Commit)
    ensures TermInv(Step(s, Commit))
  {
    var op, s' := s.flight.value, Step(s, Commit);
    if op.RevokeBlock? {
      RevokeCommitBars(s, op.at);
      LedgerKeeps(s, Commit);
      BlockedPrincipal(s'.ledger, PrincipalOf(s.ledger));
    } else if RevokeDone(s') {
      assert RevokeDone(s);
      BlockKept(s, Commit);
      QuietKept(s, Commit);
    }
  }

  lemma TermInvKeeps(s: State, e: Event)
    requires ApprovalRuns.CallsSound(s) && TermSound(s) && LedgerSound(s) && TermInv(s) && Enabled(s, e)
    ensures TermInv(Step(s, e))
  {
    if e.Commit? {
      TermInvCommit(s);
    } else if !e.Restart? && RevokeDone(Step(s, e)) {
      if e.VerifyReads? || e.VerifySettles? {
        VerifyProgress(s, e);
      } else {
        Progress(s, e);
      }
      QuietKept(s, e);
      BlockKept(s, e);
    }
  }

  lemma RevokeClaimedKeeps(s: State, e: Event)
    requires ApprovalRuns.CallsSound(s) && TermSound(s) && Enabled(s, e) && RevokeClaimed(s)
    ensures RevokeClaimed(Step(s, e))
  {
    hide Resumed, Rejected, RowsAfter, LedgerAfter, Passes, NextFrame, FrameStep, Wanted, Made;
    if e.VerifyReads? || e.VerifySettles? {
      VerifyProgress(s, e);
    } else if !e.Commit? {
      Progress(s, e);
    }
  }

  // --- No execution registers any more -----------------------------------

  predicate Unregistered(s: State, s': State) {
    s'.registered == s.registered || s'.registered.None?
  }

  lemma ResumedUnregisters(s: State, op: Op)
    requires op.Admit? ==> op.violation
    ensures Unregistered(s, Resumed(s, op))
  {
    if op.Deny? || op.Final? {
      ResumedStopUnregisters(s, op);
    } else if op.SetReady? || op.RevokeBlock? || op.Persist? {
      ResumedOwnUnregisters(s, op);
    } else if op.LedgerOp? || op.Admit? {
      assert Resumed(s, op) == s;
    }
  }

  lemma ResumedStopUnregisters(s: State, op: Op)
    requires op.Deny? || op.Final?
    ensures Unregistered(s, Resumed(s, op))
  {
    if op.thread !in s.stops {
      assert Resumed(s, op) == s;
    }
  }

  lemma ResumedOwnUnregisters(s: State, op: Op)
    requires op.SetReady? || op.RevokeBlock? || op.Persist?
    ensures Unregistered(s, Resumed(s, op))
  {
    if op.SetReady? {
      assert Resumed(s, op) == if s.terminating then s else s.(barrier := false);
    } else if op.RevokeBlock? && s.termination.None? {
      assert Resumed(s, op) == s;
    }
  }

  lemma RejectedUnregisters(s: State, op: Op, lost: bool)
    ensures Unregistered(s, Rejected(s, op, lost))
  {
    if op.Deny? || op.Final? {
      RejectedStopUnregisters(s, op, lost);
    } else if op.RunStart? || op.RunEnd? {
      RejectedRunUnregisters(s, op, lost);
    } else if op.RevokeBlock? && s.termination.None? {
      assert Rejected(s, op, lost) == s;
    } else if op.Admit? || op.Resolve? || op.SetReady? || op.LedgerOp? {
      NothingRejected(s, op, lost);
    }
  }

  lemma RejectedStopUnregisters(s: State, op: Op, lost: bool)
    requires op.Deny? || op.Final?
    ensures Unregistered(s, Rejected(s, op, lost))
  {
    if op.thread !in s.stops {
      assert Rejected(s, op, lost) == s;
    }
  }

  lemma UnregisteringUnregisters(s: State, run: Id)
    ensures Unregistered(s, s.Unregister(run))
  {
  }

  lemma RejectedRunUnregisters(s: State, op: Op, lost: bool)
    requires op.RunStart? || op.RunEnd?
    ensures Unregistered(s, Rejected(s, op, lost))
  {
    if op.RunEnd? && op.outcome.Success? {
      assert Rejected(s, op, lost) == s.Frame(op.run, Ending(Failure));
    } else {
      UnregisteringUnregisters(s, op.run);
      assert Rejected(s, op, lost) == s.Unregister(op.run);
    }
  }

  lemma OtherUnregisters(s: State, e: Event)
    requires Enabled(s, e) && !e.Continue? && !e.Reject?
    ensures Unregistered(s, Step(s, e))
  {
    hide Resumed, Rejected, RowsAfter, LedgerAfter, Passes, NextFrame, Wanted, Made;
    if FrameEvent(e) {
      assert Step(s, e) == FrameStep(s, e);
    } else if e.ExecutionSettles? && !s.stops[e.thread].pc.cancelled {
      assert Step(s, e) == s.(cancels := false).Release(e.thread, false);
    }
  }

  /** Only the continuation of an admission registers an execution. */
  lemma RegistersByAdmission(s: State, e: Event)
    requires Enabled(s, e) && Quiet(s)
    ensures Unregistered(s, Step(s, e))
  {
    hide Resumed, Rejected;
    if e.Continue? {
      ResumedUnregisters(s.(settled := None), s.settled.value);
    } else if e.Reject? {
      RejectedUnregisters(if s.flight == Some(e.op) then s.(flight := None) else s, e.op, s.flight == Some(e.op));
    } else {
      OtherUnregisters(s, e);
    }
  }

  predicate ClaimUnregistered(s: State) {
    Claiming(s) ==> s.registered.None?
  }

  /** Where a claim comes from. */
  lemma ClaimComes(s: State, e: Event)
    requires ApprovalRuns.CallsSound(s) && TermSound(s) && Enabled(s, e) && Claiming(Step(s, e))
    ensures !e.Restart? && (if e.VerifyReads? then e.clean else Claiming(s))
  {
    hide Resumed, Rejected, RowsAfter, LedgerAfter, Passes, NextFrame, FrameStep, Wanted, Made;
    if e.VerifyReads? || e.VerifySettles? {
      VerifyProgress(s, e);
    } else if !e.Commit? {
      Progress(s, e);
    }
  }

  lemma ClaimUnregisteredKeeps(s: State, e: Event)
    requires ApprovalRuns.CallsSound(s) && TermSound(s) && Enabled(s, e) && TermInv(s) && ClaimUnregistered(s)
    ensures ClaimUnregistered(Step(s, e))
  {
    hide Resumed, Rejected, RowsAfter, LedgerAfter, Passes, NextFrame, FrameStep, Wanted, Made, TermSound, ApprovalRuns.CallsSound;
    if Claiming(Step(s, e)) {
      ClaimComes(s, e);
      if !e.VerifyReads? {
        assert RevokeDone(s);
        RegistersByAdmission(s, e);
      }
    }
  }

  lemma ClaimAtBoot(trace: seq<State>, events: seq<Event>)
    requires IsRun(trace, events)
    ensures TermInv(trace[0]) && RevokeClaimed(trace[0]) && ClaimUnregistered(trace[0])
  {
  }

  ghost predicate ClaimsSound(s: State) {
    LedgerSound(s) && TermInv(s) && RevokeClaimed(s) && ClaimUnregistered(s)
  }

  /** Nothing is assumed of the events here. */
  lemma {:induction false} TermRunKeeps(trace: seq<State>, events: seq<Event>, t: nat)
    requires IsRun(trace, events) && t < |trace|
    ensures ClaimsSound(trace[t])
  {
    hide Step, Enabled, TermInv, RevokeClaimed, ClaimUnregistered, LedgerSound, TermSound;
    LedgerRunKeeps(trace, events, t);
    if t == 0 {
      ClaimAtBoot(trace, events);
    } else {
      TermRunKeeps(trace, events, t - 1);
      TerminationOrder.RunKeeps(trace, events, t - 1);
      TermInvKeeps(trace[t - 1], events[t - 1]);
      RevokeClaimedKeeps(trace[t - 1], events[t - 1]);
      ClaimUnregisteredKeeps(trace[t - 1], events[t - 1]);
    }
  }

  /** In every run whatsoever, when a receipt that claims containment is written, no execution is
      registered, and the agent is gone, or else its account is blocked and its principal holds
      no unrevoked grant. */
  lemma ContainedReceiptBarsTheAgent(trace: seq<State>, events: seq<Event>, t: nat)
    requires IsRun(trace, events) && t < |events|
    requires events[t] == Commit && trace[t].flight == Some(Persist(true))
    ensures trace[t + 1].receipts == trace[t].receipts + [true] && trace[t + 1].registered.None?
    ensures trace[t + 1].rows.agent.Some? ==>
              && Blocked(trace[t + 1].ledger)
              && LedgerRuns.NoUnrevoked(trace[t + 1].ledger.grants, PrincipalOf(trace[t + 1].ledger))
  {
    TermRunKeeps(trace, events, t);
    TerminationOrder.RunKeeps(trace, events, t);
    var s := trace[t];
    assert AboutToClaim(s) && Claiming(s) && RevokeDone(s);
    if s.rows.agent.Some? {
      BarredIsBlocked(s);
    }
  }

  lemma BarredIsBlocked(s: State)
    requires LedgerSound(s) && LedgerRuns.Barred(s.ledger, ME, PrincipalOf(s.ledger))
    ensures Blocked(s.ledger) && LedgerRuns.NoUnrevoked(s.ledger.grants, PrincipalOf(s.ledger))
  {
    LedgerRuns.AccountByIdDistinct(s.ledger.accounts, Identity.Account(ME, PrincipalOf(s.ledger), true));
    LedgerRuns.BarredHoldsNothing(s.ledger, ME, PrincipalOf(s.ledger));
  }

  // --- Containment, from the verification to the receipt ------------------

  ghost predicate AllRunsOver(rows: Rows) {
    forall run :: !rows.ActiveRun(run)
  }

  /** The agent is gone, or else it is stopped and barred, nothing of it executes but what has
      just ended, and no run is on record as active. */
  ghost predicate Contained(s: State) {
    s.rows.agent.Some? ==>
      && s.rows.agent == Some(Stopped) && s.registered.None?
      && (forall run | run in s.frames :: OneRun.Ended(s, run))
      && AllRunsOver(s.rows)
      && Blocked(s.ledger) && LedgerRuns.NoUnrevoked(s.ledger.grants, PrincipalOf(s.ledger))
  }

  ghost predicate AtRest(rows: Rows) {
    rows.agent.None? || (rows.agent == Some(Stopped) && AllRunsOver(rows))
  }

  lemma NobodyComes(rows: Rows, op: Op)
    requires rows.agent.None?
    ensures RowsAfter(rows, op).agent.None?
  {
  }

  /** A stopped agent without active runs stays so, but for admissions and starts. */
  lemma RestKeptByCommit(s: State)
    requires ApprovalRuns.Inv(s) && OneRun.Sound(s) && Enabled(s, Commit) && AtRest(s.rows) && Quiet(s)
    ensures AtRest(Step(s, Commit).rows)
  {
    hide Step, RowsAfter;
    OneRun.CommitShape(s);
    var op := s.flight.value;
    if s.rows.agent.None? {
      NobodyComes(s.rows, op);
    } else if op.RunStart? || op.GatePublish? || op.EgressPublish? || op.RunEnd? || op.Resolve? {
      var r := OneRun.CallOfARun(s);
    } else {
      QuietCommitRests(s.rows, op);
    }
  }

  lemma QuietCommitRests(rows: Rows, op: Op)
    requires AtRest(rows) && (op.Deny? || op.Final? || op.RevokeBlock? || op.Persist? || op.LedgerOp?)
    ensures AtRest(RowsAfter(rows, op))
  {
    assert (op.Final? && op.kind.Delete?) || forall run :: RowsAfter(rows, op).ActiveRun(run) <==> rows.ActiveRun(run);
  }

  lemma RestKept(s: State, e: Event)
    requires ApprovalRuns.Inv(s) && OneRun.Sound(s) && Enabled(s, e) && !e.Restart? && AtRest(s.rows) && Quiet(s)
    ensures AtRest(Step(s, e).rows)
  {
    hide Step, Enabled, AtRest, OneRun.Sound, ApprovalRuns.Inv;
    if e.Commit? {
      RestKeptByCommit(s);
    } else {
      ApprovalProofs.StoredMovesByCommit(s, e);
    }
  }

  /** A claim over rows at rest is true. */
  lemma ClaimIsTrue(s: State)
    requires OneRun.Sound(s) && ClaimsSound(s) && Claiming(s) && AtRest(s.rows)
    ensures Contained(s)
  {
    assert RevokeDone(s);
    if s.rows.agent.Some? {
      BarredIsBlocked(s);
      forall run | run in s.frames
        ensures OneRun.Ended(s, run)
      {
        if !OneRun.Ended(s, run) {
          OneRun.ExecutionIsActive(s, run);
        }
      }
    }
  }

  /** The read on which a claim rests. */
  lemma {:induction false} ReadBefore(trace: seq<State>, events: seq<Event>, t: nat) returns (v: nat)
    requires IsRun(trace, events) && t < |trace| && Claiming(trace[t])
    ensures v < t && events[v].VerifyReads? && events[v].clean
    ensures forall k | v < k <= t :: Claiming(trace[k])
    ensures forall k | v < k < t :: !events[k].Restart? && !events[k].VerifyReads?
  {
    hide Step, Enabled, Claiming, TermSound;
    if t == 0 {
      NothingClaimedAtBoot(trace, events);
    } else {
      TerminationOrder.RunKeeps(trace, events, t - 1);
      ClaimComes(trace[t - 1], events[t - 1]);
      if events[t - 1].VerifyReads? {
        v := t - 1;
      } else {
        v := ReadBefore(trace, events, t - 1);
      }
    }
  }

  lemma NothingClaimedAtBoot(trace: seq<State>, events: seq<Event>)
    requires IsRun(trace, events)
    ensures !Claiming(trace[0])
  {
  }

  lemma {:induction false} RestThrough(trace: seq<State>, events: seq<Event>, v: nat, j: nat)
    requires IsRun(trace, events) && v < j < |trace| && AtRest(trace[v + 1].rows)
    requires forall k | v < k < j :: Claiming(trace[k]) && !events[k].Restart?
    ensures AtRest(trace[j].rows)
    decreases j
  {
    hide Step, Enabled, AtRest, OneRun.Sound, ApprovalRuns.Inv, LedgerSound;
    if j > v + 1 {
      RestThrough(trace, events, v, j - 1);
      OneRun.RunKeeps(trace, events, j - 1);
      TermRunKeeps(trace, events, j - 1);
      assert RevokeDone(trace[j - 1]);
      RestKept(trace[j - 1], events[j - 1]);
    }
  }

  /** What the verification has just read to be true. */
  lemma ReadFound(s: State, e: Event)
    requires Enabled(s, e) && e.VerifyReads? && e.clean
    ensures Step(s, e).rows == s.rows && s.rows.agent == Some(Stopped)
    ensures AtRest(s.rows) <==> AllRunsOver(s.rows)
  {
    hide Resumed, Rejected, RowsAfter, LedgerAfter, Booted, Passes, NextFrame, FrameStep;
  }

  /** The claim is in place until the receipt is on disk. */
  lemma ClaimStandsAtReceipt(trace: seq<State>, events: seq<Event>, t: nat)
    requires IsRun(trace, events) && t < |events| && events[t] == Commit && trace[t].flight == Some(Persist(true))
    ensures Claiming(trace[t]) && Claiming(trace[t + 1]) && trace[t + 1].settled == Some(Persist(true))
  {
    TermRunKeeps(trace, events, t);
    TerminationOrder.RunKeeps(trace, events, t);
    assert AboutToClaim(trace[t]);
  }

  /** In every run whatsoever, a receipt that claims containment rests on one reading of the
      database, and the agent is contained in every state from that reading until the receipt is
      on disk, exactly when at that reading no run was on record as active, which the reading
      does not ask. */
  lemma ContainedExactly(trace: seq<State>, events: seq<Event>, t: nat) returns (v: nat)
    requires IsRun(trace, events) && t < |events|
    requires events[t] == Commit && trace[t].flight == Some(Persist(true))
    ensures v < t && events[v].VerifyReads? && events[v].clean
    ensures forall k | v < k < t :: !events[k].Restart? && !events[k].VerifyReads?
    ensures trace[v].rows.agent == Some(Stopped)
    ensures (forall j | v < j <= t + 1 :: Contained(trace[j])) <==> AllRunsOver(trace[v].rows)
  {
    hide Step, Enabled, AtRest, AllRunsOver, Contained, Claiming, OneRun.Sound, ClaimsSound;
    ClaimStandsAtReceipt(trace, events, t);
    v := ReadBefore(trace, events, t);
    ReadFound(trace[v], events[v]);
    if AllRunsOver(trace[v].rows) {
      forall j | v < j <= t + 1
        ensures Contained(trace[j])
      {
        RestThrough(trace, events, v, j);
        OneRun.RunKeeps(trace, events, j);
        TermRunKeeps(trace, events, j);
        ClaimIsTrue(trace[j]);
      }
    }
    if forall j | v < j <= t + 1 :: Contained(trace[j]) {
      assert Contained(trace[v + 1]);
      ContainedRests(trace[v + 1]);
    }
  }

  lemma ContainedRests(s: State)
    requires Contained(s)
    ensures AtRest(s.rows)
  {
  }

  lemma NothingEnds(s: State)
    requires Contained(s) && s.rows.agent.Some? && s.settled.Some? && s.settled.value.Persist?
    ensures s.frames == map[]
  {
    assert forall run :: !OneRun.Ended(s, run);
    assert s.frames.Keys == {};
  }

  /** So as long as no stop has committed over an active run, a receipt that claims containment
      is written only when the agent is gone, or else stopped, barred, without an execution or an
      active run. */
  lemma ContainedReceiptIsTrue(trace: seq<State>, events: seq<Event>, t: nat)
    requires IsRun(trace, events) && t < |events| && OneRun.Undisturbed(trace, events, t)
    requires events[t] == Commit && trace[t].flight == Some(Persist(true))
    ensures trace[t + 1].receipts == trace[t].receipts + [true] && trace[t + 1].registered.None?
    ensures trace[t + 1].rows.agent.Some? ==>
              && trace[t + 1].rows.agent == Some(Stopped) && trace[t + 1].frames == map[]
              && AllRunsOver(trace[t + 1].rows)
              && Blocked(trace[t + 1].ledger)
              && LedgerRuns.NoUnrevoked(trace[t + 1].ledger.grants, PrincipalOf(trace[t + 1].ledger))
  {
    hide Step, Enabled, OneRun.StopsOverARun;
    ContainedReceiptBarsTheAgent(trace, events, t);
    ClaimStandsAtReceipt(trace, events, t);
    var v := ContainedExactly(trace, events, t);
    OneRun.OneActiveUntil(trace, events, v);
    OneRun.NobodyRuns(trace[v].rows);
    assert Contained(trace[t + 1]);
    if trace[t + 1].rows.agent.Some? {
      NothingEnds(trace[t + 1]);
    }
  }

  // --- The lock-down lasts until the evidence ----------------------------

  /** Starts are refused, and no start is on its way to the disk. */
  predicate LockedDown(s: State) {
    s.terminating && (s.flight.Some? ==> !s.flight.value.SetReady?)
  }

  lemma RevokeLocksDown(s: State, at: Time)
    requires TermSound(s) && Enabled(s, Commit) && s.flight == Some(RevokeBlock(at))
    ensures LockedDown(Step(s, Commit))
  {
  }

  lemma StaysLockedDown(s: State, e: Event)
    requires Enabled(s, e) && LockedDown(s) && !Evidence(s, e)
    ensures LockedDown(Step(s, e))
  {
    TerminatingStays(s, e);
    if !e.Commit? {
      ApprovalProofs.StoredMovesByCommit(s, e);
    }
  }

  /** The agent is barred for good, or has been deleted. */
  ghost predicate BarredWhileThere(s: State, principal: Id) {
    s.rows.agent.Some? ==> LedgerRuns.Barred(s.ledger, ME, principal)
  }

  lemma StaysBarred(s: State, e: Event, principal: Id)
    requires LedgerSound(s) && Enabled(s, e) && LockedDown(s) && !Evidence(s, e) && BarredWhileThere(s, principal)
    ensures BarredWhileThere(Step(s, e), principal)
  {
    if Step(s, e).rows.agent.Some? {
      AgentWasThere(s, e);
      BarredKept(s, e, principal);
    }
  }

  lemma {:induction false} LockedSince(trace: seq<State>, events: seq<Event>, k: nat, j: nat, at: Time)
    requires IsRun(trace, events) && k < j < |trace|
    requires trace[k].flight == Some(RevokeBlock(at)) && events[k] == Commit
    requires forall m | k < m < j :: !Evidence(trace[m], events[m])
    ensures LockedDown(trace[j]) && BarredWhileThere(trace[j], PrincipalOf(trace[k].ledger))
    decreases j
  {
    hide Step, Enabled, LockedDown, BarredWhileThere, LedgerSound, TermSound, Evidence;
    LedgerRunKeeps(trace, events, j - 1);
    if k + 1 == j {
      TerminationOrder.RunKeeps(trace, events, k);
      RevokeLocksDown(trace[k], at);
      RevokeBars(trace[k], at);
    } else {
      LockedSince(trace, events, k, j - 1, at);
      StaysLockedDown(trace[j - 1], events[j - 1]);
      StaysBarred(trace[j - 1], events[j - 1], PrincipalOf(trace[k].ledger));
    }
  }

  lemma RevokeBars(s: State, at: Time)
    requires LedgerSound(s) && Enabled(s, Commit) && s.flight == Some(RevokeBlock(at))
    ensures BarredWhileThere(Step(s, Commit), PrincipalOf(s.ledger))
  {
    RevokeCommits(s, Commit, at);
  }

  /** In every run whatsoever, from the commit of the revoke step until the caller hears that the
      receipt is on disk, or the server goes away: whether or not the connections could be
      drained, the kill or the verification worked, or the receipt could be written, no start
      commits, and the agent is gone, or else its account is blocked and its principal holds no
      unrevoked grant. */
  lemma BarredDuringTermination(trace: seq<State>, events: seq<Event>, k: nat, j: nat, at: Time)
    requires IsRun(trace, events) && k < j < |trace|
    requires trace[k].flight == Some(RevokeBlock(at)) && events[k] == Commit
    requires forall m | k < m < j :: !Evidence(trace[m], events[m])
    ensures trace[j].terminating && (trace[j].flight.Some? ==> !trace[j].flight.value.SetReady?)
    ensures trace[j].rows.agent.Some? ==>
              && LedgerRuns.Barred(trace[j].ledger, ME, PrincipalOf(trace[k].ledger))
              && LedgerRuns.NoUnrevoked(trace[j].ledger.grants, PrincipalOf(trace[k].ledger))
              && Blocked(trace[j].ledger)
  {
    hide Step, Enabled, LedgerSound, Evidence;
    LockedSince(trace, events, k, j, at);
    LedgerRunKeeps(trace, events, j);
    if trace[j].rows.agent.Some? {
      BarredOf(trace[j], PrincipalOf(trace[k].ledger));
    }
  }

  lemma BarredOf(s: State, principal: Id)
    requires LedgerSound(s) && LedgerRuns.Barred(s.ledger, ME, principal)
    ensures LedgerRuns.NoUnrevoked(s.ledger.grants, principal) && Blocked(s.ledger)
  {
    BlockedPrincipal(s.ledger, principal);
    BarredIsBlocked(s);
  }
}
