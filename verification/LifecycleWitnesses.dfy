/** Concrete runs in which a property fails, so that the conditions stated for it are tight. */
module LifecycleWitnesses {
  import opened Types
  import Identity
  import opened Lifecycle
  import LedgerRuns
  import OneRun
  import RunCauses
  import TerminationRuns

  function OneAccount(blocked: bool): Identity.Ledger {
    Identity.Ledger([], [Identity.Account(ME, 0, blocked)], [], [])
  }

  function Idle(status: Status, runs: map<Id, RunStatus>, blocked: bool): State {
    State(Rows(Some(status), runs, map[]), OneAccount(blocked), [], None, None, None, map[], false, false, false, false,
          {}, {}, map[], map[], map[], None, map[])
  }

  lemma StartFrom(status: Status, blocked: bool)
    requires !status.Active()
    ensures IsRun([Idle(status, map[], blocked)], [])
  {
    var rows := Rows(Some(status), map[], map[]);
    assert OneAccount(blocked).accounts[0] in OneAccount(blocked).accounts;
    assert LedgerRuns.WellFormed(OneAccount(blocked));
    assert Recover(rows) == rows;
    assert Idle(status, map[], blocked) == Booted(rows, OneAccount(blocked), [], map[]);
  }

  lemma Extend(trace: seq<State>, events: seq<Event>, e: Event) returns (trace': seq<State>, events': seq<Event>)
    requires IsRun(trace, events) && Enabled(trace[|events|], e)
    ensures IsRun(trace', events') && |events'| == |events| + 1
    ensures events' == events + [e] && trace' == trace + [Step(trace[|events|], e)]
  {
    trace', events' := trace + [Step(trace[|events|], e)], events + [e];
    assert trace'[0] == trace[0];
  }

  /** A call that passes its checks begins and commits. */
  lemma Commits(trace: seq<State>, events: seq<Event>, op: Op) returns (trace': seq<State>, events': seq<Event>)
    requires IsRun(trace, events) && trace[|events|].settled.None? && Enabled(trace[|events|], Begin(op)) && !op.Persist?
    ensures IsRun(trace', events') && events' == events + [Begin(op), Commit] && trace <= trace'
    ensures trace'[|events| + 1] == trace[|events|].(flight := Some(op))
    ensures var s := trace[|events|];
            trace'[|events'|] == s.(rows := RowsAfter(s.rows, op), ledger := LedgerAfter(s.ledger, op), settled := Some(op))
  {
    hide RowsAfter, LedgerAfter, Wanted, Passes;
    trace', events' := Extend(trace, events, Begin(op));
    trace', events' := Extend(trace', events', Commit);
  }

  /** A start writes the account back as unblocked. */
  lemma StartUnblocks(blocked: bool)
    ensures LedgerAfter(OneAccount(blocked), SetReady) == OneAccount(false)
  {
    assert Identity.BlockAccount(OneAccount(blocked).accounts, ME, false) == OneAccount(false).accounts;
  }

  // --- Start and termination ---------------------------------------------

  lemma RevokeBlocks(at: Time)
    ensures LedgerAfter(OneAccount(false), RevokeBlock(at)) == OneAccount(true)
  {
    assert Identity.BlockAccount(OneAccount(false).accounts, ME, true) == OneAccount(true).accounts;
  }

  function Revoking(): State {
    Idle(Ready, map[], false).(terminating := true, barrier := true, termination := Some(TermFrame(TermPc.Revoking, true, None, None)))
  }

  lemma ReachesTheRevokeStep() returns (trace: seq<State>, events: seq<Event>)
    ensures IsRun(trace, events) && events == [TermStarts, FreezeSettles(true)]
    ensures trace[2] == Revoking()
  {
    StartFrom(Ready, false);
    trace, events := [Idle(Ready, map[], false)], [];
    trace, events := Extend(trace, events, TermStarts);
    trace, events := Extend(trace, events, FreezeSettles(true));
  }

  lemma RevokeCommitted() returns (trace: seq<State>, events: seq<Event>)
    ensures IsRun(trace, events) && events == [TermStarts, FreezeSettles(true), Begin(RevokeBlock(1)), Commit]
    ensures TerminationRuns.Revokes(trace[3], Commit, 1)
    ensures trace[4] == Revoking().(ledger := OneAccount(true), settled := Some(RevokeBlock(1)))
  {
    RevokeBlocks(1);
    trace, events := ReachesTheRevokeStep();
    trace, events := Commits(trace, events, RevokeBlock(1));
  }

  lemma RevokedThenRestarted() returns (trace: seq<State>, events: seq<Event>)
    ensures IsRun(trace, events) && |events| == 5 && events[0].TermStarts?
    ensures TerminationRuns.Revokes(trace[3], events[3], 1) && events[4] == Restart(false)
    ensures trace[5] == Idle(Ready, map[], true)
  {
    trace, events := RevokeCommitted();
    assert Recover(Rows(Some(Ready), map[], map[])) == Rows(Some(Ready), map[], map[]);
    trace, events := Extend(trace, events, Restart(false));
  }

  /** A restart after the revoke step forgets the termination: the block is on disk, yet a start
      lifts it and succeeds although no receipt was ever written. */
  lemma RestartForgetsTheTermination() returns (trace: seq<State>, events: seq<Event>)
    ensures IsRun(trace, events) && |events| == 7
    ensures events[0].TermStarts? && TerminationRuns.Revokes(trace[3], events[3], 1) && events[4].Restart?
    ensures Blocked(trace[5].ledger) && !Blocked(trace[7].ledger) && trace[7].receipts == []
    ensures Enabled(trace[7], Continue) && TerminationRuns.StartSucceeds(trace[7], Continue)
  {
    StartUnblocks(true);
    trace, events := RevokedThenRestarted();
    trace, events := Commits(trace, events, SetReady);
  }

  lemma StartOvertaken() returns (trace: seq<State>, events: seq<Event>)
    ensures IsRun(trace, events) && |events| == 2 && trace[0] == Idle(Stopped, map[], true)
    ensures trace[2] == Idle(Stopped, map[], true).(flight := Some(SetReady), terminating := true, barrier := true,
                                                    termination := Some(TermFrame(Freezing, false, None, None)))
  {
    hide LedgerAfter;
    StartFrom(Stopped, true);
    trace, events := [Idle(Stopped, map[], true)], [];
    trace, events := Extend(trace, events, Begin(SetReady));
    trace, events := Extend(trace, events, TermStarts);
  }

  /** A start that is refused, because a new termination began while its write was under way,
      has lifted the block all the same. */
  lemma RefusedStartLiftsTheBlock() returns (trace: seq<State>, events: seq<Event>)
    ensures IsRun(trace, events)
    ensures trace[|events|].settled == Some(SetReady) && !TerminationRuns.StartSucceeds(trace[|events|], Continue)
    ensures Blocked(trace[0].ledger) && !Blocked(trace[|events|].ledger)
  {
    StartUnblocks(true);
    trace, events := StartOvertaken();
    trace, events := Extend(trace, events, Commit);
  }

  // --- One run at a time -------------------------------------------------

  lemma AdmitAndRegister(trace: seq<State>, events: seq<Event>, run: Id) returns (trace': seq<State>, events': seq<Event>)
    requires IsRun(trace, events)
    requires var s := trace[|events|];
             && s.flight.None? && s.settled.None? && s.rows == Rows(Some(Ready), map[], map[]) && s.ledger == OneAccount(false)
             && !s.token && !s.barrier && s.frames == map[] && s.owner == map[]
    ensures IsRun(trace', events') && |events| < |events'|
    ensures trace'[|events'|] == trace[|events|].(rows := Rows(Some(Busy), map[run := Queued], map[]),
                                                  frames := map[run := Starting], registered := Some(run))
  {
    trace', events' := Commits(trace, events, Admit(run, false));
    assert trace'[|events'|] == trace[|events|].(rows := Rows(Some(Busy), map[run := Queued], map[]),
                                                 settled := Some(Admit(run, false)));
    trace', events' := Extend(trace', events', Continue);
  }

  lemma NothingToDeny(s: State, thread: Id)
    requires s.rows.approvals == map[] && s.entries == {} && thread in s.stops
    ensures RowsAfter(s.rows, Deny(thread)) == s.rows
    ensures Resumed(s, Deny(thread)) == s.(stops := s.stops[thread := s.stops[thread].(pc := Cancelling)])
  {
    assert DenyAll(s.rows).approvals == map[];
    assert (map id | id in s.entries && id !in s.told :: false) + s.told == s.told;
  }

  lemma Denies(trace: seq<State>, events: seq<Event>, thread: Id) returns (trace': seq<State>, events': seq<Event>)
    requires IsRun(trace, events)
    requires var s := trace[|events|];
             && s.flight.None? && s.settled.None? && thread in s.stops && s.stops[thread].pc.Denying?
             && s.entries == {} && s.rows.approvals == map[]
    ensures IsRun(trace', events') && |events| < |events'|
    ensures var s := trace[|events|];
            trace'[|events'|] == s.(stops := s.stops[thread := s.stops[thread].(pc := Cancelling)])
  {
    var s := trace[|events|];
    NothingToDeny(s, thread);
    trace', events' := Commits(trace, events, Deny(thread));
    assert trace'[|events'|] == s.(settled := Some(Deny(thread)));
    trace', events' := Extend(trace', events', Continue);
  }

  lemma Finalises(trace: seq<State>, events: seq<Event>, thread: Id) returns (trace': seq<State>, events': seq<Event>)
    requires IsRun(trace, events) && thread in trace[|events|].stops
    requires trace[|events|].stops[thread].pc == AwaitingRun(None, true)
    ensures IsRun(trace', events') && |events| < |events'|
    ensures var s := trace[|events|];
            trace'[|events'|] == s.(cancels := false, stops := s.stops[thread := s.stops[thread].(pc := Finalising)])
  {
    trace', events' := Extend(trace, events, ExecutionSettles(thread));
  }

  lemma Returns(trace: seq<State>, events: seq<Event>, thread: Id) returns (trace': seq<State>, events': seq<Event>)
    requires IsRun(trace, events) && thread in trace[|events|].stops && trace[|events|].stops[thread].pc.Cancelling?
    requires trace[|events|].registered.None?
    ensures IsRun(trace', events') && |events| < |events'|
    ensures var s := trace[|events|];
            trace'[|events'|] == s.(stops := s.stops[thread := s.stops[thread].(pc := AwaitingRun(None, true))])
  {
    trace', events' := Extend(trace, events, CancelReturns(thread, true));
  }

  /** A thread with nothing to cancel goes through its cancellation. */
  lemma Cancelled(trace: seq<State>, events: seq<Event>, thread: Id) returns (trace': seq<State>, events': seq<Event>)
    requires IsRun(trace, events)
    requires var s := trace[|events|];
             && s.flight.None? && s.settled.None? && thread in s.stops && s.stops[thread].pc.Denying?
             && s.registered.None? && s.entries == {} && s.rows.approvals == map[]
    ensures IsRun(trace', events') && |events| < |events'|
    ensures var s := trace[|events|];
            trace'[|events'|] == s.(cancels := false, stops := s.stops[thread := s.stops[thread].(pc := Finalising)])
  {
    hide Step, Enabled, IsRun;
    trace', events' := Denies(trace, events, thread);
    trace', events' := Returns(trace', events', thread);
    trace', events' := Finalises(trace', events', thread);
  }

  /** The last commit of a stop or a quarantine. */
  lemma Stops(trace: seq<State>, events: seq<Event>, thread: Id) returns (trace': seq<State>, events': seq<Event>)
    requires IsRun(trace, events)
    requires var s := trace[|events|];
             && s.flight.None? && s.settled.None? && thread in s.stops && s.stops[thread].pc.Finalising?
             && !s.stops[thread].kind.Delete? && s.rows.agent.Some?
    ensures IsRun(trace', events') && |events| < |events'|
    ensures trace'[|events'|] == trace[|events|].(rows := trace[|events|].rows.WithStatus(Stopped),
                                                  settled := Some(Final(thread, trace[|events|].stops[thread].kind)))
  {
    trace', events' := Commits(trace, events, Final(thread, trace[|events|].stops[thread].kind));
  }

  /** A stop runs to its end beside a quarantine that started after it. */
  lemma StopFinishesFirst() returns (trace: seq<State>, events: seq<Event>)
    ensures IsRun(trace, events)
    ensures trace[|events|] == Idle(Ready, map[], false).(rows := Rows(Some(Stopped), map[], map[]),
                                                          stops := map[2 := StopFrame(Quarantine, false, Denying)])
  {
    trace, events := StopAboutToReturn();
    var stop, quarantine := StopFrame(Stop, true, Finalising), StopFrame(Quarantine, false, Denying);
    assert map[1 := stop, 2 := quarantine] - {1} == map[2 := quarantine];
    trace, events := Extend(trace, events, Continue);
  }

  lemma StopAboutToReturn() returns (trace: seq<State>, events: seq<Event>)
    ensures IsRun(trace, events)
    ensures trace[|events|] == Idle(Ready, map[], false).(
                                 rows := Rows(Some(Stopped), map[], map[]), token := true, settled := Some(Final(1, Stop)),
                                 stops := map[1 := StopFrame(Stop, true, Finalising), 2 := StopFrame(Quarantine, false, Denying)])
  {
    hide Step, Enabled;
    trace, events := BothStarted();
    trace, events := Cancelled(trace, events, 1);
    assert trace[|events|].stops == map[1 := StopFrame(Stop, true, Finalising), 2 := StopFrame(Quarantine, false, Denying)];
    trace, events := Stops(trace, events, 1);
  }

  lemma BothStarted() returns (trace: seq<State>, events: seq<Event>)
    ensures IsRun(trace, events) && events == [StopStarts(1, Stop), StopStarts(2, Quarantine)] && trace[1].token
    ensures trace[|events|] == Idle(Ready, map[], false).(token := true, cancels := true,
                                 stops := map[1 := StopFrame(Stop, true, Denying), 2 := StopFrame(Quarantine, false, Denying)])
  {
    StartFrom(Ready, false);
    trace, events := [Idle(Ready, map[], false)], [];
    trace, events := Extend(trace, events, StopStarts(1, Stop));
    assert trace[|events|] == Idle(Ready, map[], false).(token := true, cancels := true, stops := map[1 := StopFrame(Stop, true, Denying)]);
    trace, events := Extend(trace, events, StopStarts(2, Quarantine));
  }

  /** A quarantine beside another holder of the token need not do harm. */
  lemma QuarantineCanBeHarmless() returns (trace: seq<State>, events: seq<Event>)
    ensures IsRun(trace, events) && |events| == 2 && RunCauses.Disturbs(trace[1], events[1])
    ensures forall i | 0 <= i < |trace| :: OneRun.OneActive(trace[i].rows)
  {
    hide Step, Enabled, OneRun.OneActive;
    trace, events := BothStarted();
    OneRun.OneRunExactly(trace, events);
  }

  /** A quarantine that does not own the token can stop the agent under a run that was admitted
      meanwhile. */
  lemma UnownedQuarantineStopsARun() returns (trace: seq<State>, events: seq<Event>)
    ensures IsRun(trace, events)
    ensures trace[|events|].rows.agent == Some(Stopped) && trace[|events|].rows.ActiveRun(5)
  {
    trace, events := StopFinishesFirst();
    trace, events := Cancelled(trace, events, 2);
    trace, events := QuarantineOvertaken(trace, events, StopFrame(Quarantine, false, Finalising));
  }

  lemma QuarantineOvertaken(trace: seq<State>, events: seq<Event>, f: StopFrame) returns (trace': seq<State>, events': seq<Event>)
    requires IsRun(trace, events) && f == StopFrame(Quarantine, false, Finalising)
    requires trace[|events|] == Idle(Ready, map[], false).(rows := Rows(Some(Stopped), map[], map[]), stops := map[2 := f])
    ensures IsRun(trace', events')
    ensures trace'[|events'|].rows.agent == Some(Stopped) && trace'[|events'|].rows.ActiveRun(5)
  {
    StartUnblocks(false);
    trace', events' := Commits(trace, events, SetReady);
    assert trace'[|events'|] == Idle(Ready, map[], false).(stops := map[2 := f], settled := Some(SetReady));
    trace', events' := Extend(trace', events', Continue);
    assert trace'[|events'|] == Idle(Ready, map[], false).(stops := map[2 := f]);
    trace', events' := AdmitAndRegister(trace', events', 5);
    trace', events' := Stops(trace', events', 2);
  }

  lemma RunBegins() returns (trace: seq<State>, events: seq<Event>)
    ensures IsRun(trace, events)
    ensures trace[|events|] == Idle(Ready, map[], false).(rows := Rows(Some(Busy), map[5 := Running], map[]), registered := Some(5),
                                                          frames := map[5 := Starting], settled := Some(RunStart(5)))
  {
    StartFrom(Ready, false);
    trace, events := [Idle(Ready, map[], false)], [];
    trace, events := AdmitAndRegister(trace, events, 5);
    trace, events := Commits(trace, events, RunStart(5));
  }

  lemma ReachesTheRunner() returns (trace: seq<State>, events: seq<Event>)
    ensures IsRun(trace, events)
    ensures trace[|events|] == Idle(Ready, map[], false).(rows := Rows(Some(Busy), map[5 := Running], map[]),
                                                          registered := Some(5), frames := map[5 := Executing])
  {
    trace, events := RunBegins();
    var s1 := Idle(Ready, map[], false).(rows := Rows(Some(Busy), map[5 := Running], map[]), registered := Some(5));
    trace, events := Extend(trace, events, Continue);
    assert trace[|events|] == s1.(frames := map[5 := Preparing]);
    trace, events := Extend(trace, events, EnterRunner(5));
  }

  lemma EndIsLost() returns (trace: seq<State>, events: seq<Event>)
    ensures IsRun(trace, events)
    ensures trace[|events|] == Idle(Ready, map[], false).(rows := Rows(Some(Busy), map[5 := Running], map[]))
  {
    trace, events := ReachesTheRunner();
    var s1 := trace[|events|];
    trace, events := Extend(trace, events, RunnerSettles(5, Failure));
    assert trace[|events|] == s1.(frames := map[5 := Ending(Failure)]);
    trace, events := Extend(trace, events, Reject(RunEnd(5, Failure)));
    assert map[5 := Ending(Failure)] - {5} == map[];
  }

  /** A stop that finds no execution to wait for leaves the rows of the runs alone. */
  lemma StopLeaves(trace: seq<State>, events: seq<Event>, run: Id, status: RunStatus)
    returns (trace': seq<State>, events': seq<Event>)
    requires IsRun(trace, events) && trace[|events|] == Idle(Ready, map[], false).(rows := Rows(Some(Busy), map[run := status], map[]))
    ensures IsRun(trace', events')
    ensures trace'[|events'|].rows == Rows(Some(Stopped), map[run := status], map[])
  {
    trace', events' := Extend(trace, events, StopStarts(1, Stop));
    trace', events' := Cancelled(trace', events', 1);
    trace', events' := Stops(trace', events', 1);
  }

  /** When the commit that ends a failed run itself fails, the run stays on record as running
      without an execution, and a stop then leaves it behind. */
  lemma LostEndLeavesARun() returns (trace: seq<State>, events: seq<Event>)
    ensures IsRun(trace, events)
    ensures trace[|events|].rows.agent == Some(Stopped) && trace[|events|].rows.ActiveRun(5)
  {
    trace, events := EndIsLost();
    trace, events := StopLeaves(trace, events, 5, Running);
  }

  lemma StartIsLost() returns (trace: seq<State>, events: seq<Event>)
    ensures IsRun(trace, events)
    ensures trace[|events|] == Idle(Ready, map[], false).(rows := Rows(Some(Busy), map[5 := Queued], map[]))
  {
    StartFrom(Ready, false);
    trace, events := [Idle(Ready, map[], false)], [];
    trace, events := AdmitAndRegister(trace, events, 5);
    trace, events := Extend(trace, events, Reject(RunStart(5)));
    assert map[5 := Starting] - {5} == map[];
  }

  /** When the commit that starts a run fails, the run stays on record as queued without an
      execution, and a stop then leaves it behind. */
  lemma LostStartLeavesARun() returns (trace: seq<State>, events: seq<Event>)
    ensures IsRun(trace, events)
    ensures trace[|events|].rows.agent == Some(Stopped) && trace[|events|].rows.ActiveRun(5)
  {
    trace, events := StartIsLost();
    trace, events := StopLeaves(trace, events, 5, Queued);
  }

  // --- Receipts over an active run ---------------------------------------

  /** What a lost start or a lost end leaves, with a termination of the agent at some point. */
  function Terminating(run: RunStatus, ledger: Identity.Ledger, t: TermFrame): State {
    Idle(Ready, map[], false).(rows := Rows(Some(Busy), map[5 := run], map[]), ledger := ledger,
                               terminating := true, barrier := true, termination := Some(t))
  }

  lemma Lost(run: RunStatus) returns (trace: seq<State>, events: seq<Event>)
    requires run.Queued? || run.Running?
    ensures IsRun(trace, events)
    ensures trace[|events|] == Idle(Ready, map[], false).(rows := Rows(Some(Busy), map[5 := run], map[]))
  {
    if run.Queued? {
      trace, events := StartIsLost();
    } else {
      trace, events := EndIsLost();
    }
  }

  lemma LostFrozen(run: RunStatus) returns (trace: seq<State>, events: seq<Event>)
    requires run.Queued? || run.Running?
    ensures IsRun(trace, events)
    ensures trace[|events|] == Terminating(run, OneAccount(false), TermFrame(TermPc.Revoking, true, None, None))
  {
    trace, events := Lost(run);
    trace, events := Extend(trace, events, TermStarts);
    trace, events := Extend(trace, events, FreezeSettles(true));
  }

  lemma LostRevoked(run: RunStatus) returns (trace: seq<State>, events: seq<Event>)
    requires run.Queued? || run.Running?
    ensures IsRun(trace, events)
    ensures trace[|events|] == Terminating(run, OneAccount(true), TermFrame(Draining, true, None, None))
  {
    hide LedgerAfter;
    trace, events := LostFrozen(run);
    RevokeBlocks(1);
    trace, events := Commits(trace, events, RevokeBlock(1));
    trace, events := Extend(trace, events, Continue);
  }

  lemma LostDrained(run: RunStatus) returns (trace: seq<State>, events: seq<Event>)
    requires run.Queued? || run.Running?
    ensures IsRun(trace, events)
    ensures trace[|events|] == Terminating(run, OneAccount(true), TermFrame(Killing(None), true, Some(true), None))
  {
    trace, events := LostRevoked(run);
    trace, events := Extend(trace, events, DrainSettles(true));
  }

  lemma LostKillBegins(run: RunStatus) returns (trace: seq<State>, events: seq<Event>)
    requires run.Queued? || run.Running?
    ensures IsRun(trace, events)
    ensures trace[|events|] == Terminating(run, OneAccount(true), TermFrame(Killing(Some(1)), true, Some(true), None)).(
                                 token := true, cancels := true, stops := map[1 := StopFrame(Kill, true, Denying)])
  {
    trace, events := LostDrained(run);
    trace, events := Extend(trace, events, StopStarts(1, Kill));
  }

  lemma LostStopped(run: RunStatus) returns (trace: seq<State>, events: seq<Event>)
    requires run.Queued? || run.Running?
    ensures IsRun(trace, events)
    ensures trace[|events|] == Terminating(run, OneAccount(true), TermFrame(Killing(Some(1)), true, Some(true), None)).(
                                 rows := Rows(Some(Stopped), map[5 := run], map[]), token := true,
                                 settled := Some(Final(1, Kill)), stops := map[1 := StopFrame(Kill, true, Finalising)])
  {
    hide Step, Enabled;
    trace, events := LostKillBegins(run);
    trace, events := Cancelled(trace, events, 1);
    assert trace[|events|].stops == map[1 := StopFrame(Kill, true, Finalising)];
    trace, events := Stops(trace, events, 1);
  }

  lemma LostKilled(run: RunStatus) returns (trace: seq<State>, events: seq<Event>)
    requires run.Queued? || run.Running?
    ensures IsRun(trace, events)
    ensures trace[|events|] == Terminating(run, OneAccount(true), TermFrame(Verifying, true, Some(true), Some(true))).(
                                 rows := Rows(Some(Stopped), map[5 := run], map[]))
  {
    trace, events := LostStopped(run);
    assert map[1 := StopFrame(Kill, true, Finalising)] - {1} == map[];
    trace, events := Extend(trace, events, Continue);
  }

  lemma LostRead(run: RunStatus) returns (trace: seq<State>, events: seq<Event>)
    requires run.Queued? || run.Running?
    ensures IsRun(trace, events)
    ensures trace[|events|] == Terminating(run, OneAccount(true), TermFrame(Probing(true), true, Some(true), Some(true))).(
                                 rows := Rows(Some(Stopped), map[5 := run], map[]))
  {
    trace, events := LostKilled(run);
    ReadsWell(trace[|events|]);
    trace, events := Extend(trace, events, VerifyReads(true, 1));
  }

  lemma ReadsWell(s: State)
    requires s.rows.agent == Some(Stopped) && s.registered.None? && s.ledger == OneAccount(true)
    ensures ReadsContained(s, 1)
  {
    assert OneAccount(true).accounts[0] == Identity.Account(ME, 0, true);
  }

  lemma LostVerified(run: RunStatus) returns (trace: seq<State>, events: seq<Event>)
    requires run.Queued? || run.Running?
    ensures IsRun(trace, events)
    ensures trace[|events|] == Terminating(run, OneAccount(true), TermFrame(Persisting(true), true, Some(true), Some(true))).(
                                 rows := Rows(Some(Stopped), map[5 := run], map[]))
  {
    trace, events := LostRead(run);
    trace, events := Extend(trace, events, VerifySettles(true));
  }

  /** After a lost start, a receipt can claim containment while the run is still on record as
      active. */
  lemma ContainedReceiptOverAnActiveRun() returns (trace: seq<State>, events: seq<Event>)
    ensures IsRun(trace, events)
    ensures trace[|events|].receipts == [true] && trace[|events|].rows.ActiveRun(5)
  {
    trace, events := LostVerified(Queued);
    trace, events := Extend(trace, events, Begin(Persist(true)));
    trace, events := Extend(trace, events, Commit);
  }

  /** A connection of the run whose end was lost asks for approval. */
  lemma LostRunAsks() returns (trace: seq<State>, events: seq<Event>)
    ensures IsRun(trace, events)
    ensures trace[|events|] == Terminating(Running, OneAccount(true), TermFrame(Persisting(true), true, Some(true), Some(true))).(
                                 rows := Rows(Some(Stopped), map[5 := Running], map[]),
                                 entries := {9}, entered := {9}, requested := map[9 := 5], owner := map[9 := None])
  {
    trace, events := LostVerified(Running);
    trace, events := Extend(trace, events, EgressAsks(5, 9));
  }

  lemma LostRunWaits() returns (trace: seq<State>, events: seq<Event>)
    ensures IsRun(trace, events)
    ensures var s := trace[|events|];
            && s.receipts == [] && s.flight.None? && s.settled == Some(EgressPublish(5, 9))
            && s.rows.agent == Some(WaitingApproval) && s.rows.ActiveRun(5)
            && s.termination == Some(TermFrame(Persisting(true), true, Some(true), Some(true)))
  {
    trace, events := LostRunAsks();
    trace, events := Commits(trace, events, EgressPublish(5, 9));
  }

  /** After a lost end, a receipt can claim containment of an agent that is not even stopped. */
  lemma ContainedReceiptOfAWaitingAgent() returns (trace: seq<State>, events: seq<Event>)
    ensures IsRun(trace, events)
    ensures trace[|events|].receipts == [true]
    ensures trace[|events|].rows.agent == Some(WaitingApproval) && trace[|events|].rows.ActiveRun(5)
  {
    trace, events := LostRunWaits();
    trace, events := Extend(trace, events, Continue);
    trace, events := Extend(trace, events, Begin(Persist(true)));
    trace, events := Extend(trace, events, Commit);
  }
}
