/** One agent's life (agent-service.ts, terminator.ts): admission, run start and end, the
    approval gate, cancellation, stop, quarantine, deletion, start, termination and restart,
    interleaving over the store and the service's in-memory sets.  Every row and every set
    entry of the service is keyed by agent, so the model follows a single one. */
module Lifecycle {
  import opened Types
  import opened Identity
  import LedgerRuns

  /** The agent under consideration. */
  const ME: Id

  datatype Status = Ready | Busy | WaitingApproval | Stopped | Error
  {
    predicate Active() {
      Busy? || WaitingApproval?
    }
  }

  datatype RunStatus = Queued | Running | Completed | Failed | Cancelled

  datatype Decision = Pending | Approved | Denied

  datatype Approval = Approval(run: Id, decision: Decision)

  /** The agent's rows in the database, apart from its authority. */
  datatype Rows = Rows(agent: Option<Status>, runs: map<Id, RunStatus>, approvals: map<Id, Approval>)
  {
    predicate ActiveRun(run: Id) {
      run in runs && (runs[run].Queued? || runs[run].Running?)
    }

    predicate ActiveAgent() {
      agent.Some? && agent.value.Active()
    }

    function WithStatus(status: Status): Rows {
      if agent.Some? then this.(agent := Some(status)) else this
    }
  }

  datatype Outcome = Success | CancelledRun | Denial | Violation | Failure

  /** Where an execution stands between two store commits. */
  datatype Frame =
    | Starting
    | Preparing
    | Executing
    | Pausing(approval: Id)
    | Publishing(approval: Id)
    | Deciding(approval: Id)
    | Resuming(approval: Id)
    | Ending(outcome: Outcome)

  datatype StopKind = Stop | Delete | Quarantine | Kill

  datatype StopPc = Denying | Cancelling | AwaitingRun(run: Option<Id>, cancelled: bool) | Finalising

  datatype StopFrame = StopFrame(kind: StopKind, owns: bool, pc: StopPc)

  datatype TermPc =
    | Freezing
    | Revoking
    | Draining
    | Killing(thread: Option<Id>)
    | Verifying
    | Probing(clean: bool)
    | Persisting(contained: bool)

  datatype TermFrame = TermFrame(pc: TermPc, freezeOk: bool, revokeOk: Option<bool>, killOk: Option<bool>)
  {
    function AfterRevoke(ok: bool): TermFrame {
      this.(revokeOk := Some(ok), pc := if freezeOk then Killing(None) else Verifying)
    }

    function AfterKill(ok: bool): TermFrame {
      this.(killOk := Some(ok), pc := if freezeOk then Verifying else Revoking)
    }
  }

  /** One call of the store's `mutate`. */
  datatype Op =
    | Admit(run: Id, violation: bool)
    | RunStart(run: Id)
    | GatePublish(run: Id, approval: Id)
    | EgressPublish(run: Id, approval: Id)
    | Resolve(approval: Id, approve: bool)
    | Deny(thread: Id)
    | Final(thread: Id, kind: StopKind)
    | SetReady
    | RevokeBlock(at: Time)
    | Persist(contained: bool)
    | RunEnd(run: Id, outcome: Outcome)
    | LedgerOp(step: LedgerRuns.Step)

  /** `flight` is the mutation whose callback has run and whose write is under way; `settled`
      the one that is committed but whose caller has not resumed yet. */
  datatype State = State(
    rows: Rows,
    ledger: Ledger,
    receipts: seq<bool>,
    flight: Option<Op>,
    settled: Option<Op>,
    registered: Option<Id>,
    frames: map<Id, Frame>,
    cancels: bool,
    barrier: bool,
    terminating: bool,
    token: bool,
    entries: set<Id>,
    entered: set<Id>,
    told: map<Id, bool>,
    requested: map<Id, Id>,
    stops: map<Id, StopFrame>,
    termination: Option<TermFrame>,
    owner: map<Id, Option<Id>>)
  {
    function Frame(run: Id, f: Frame): State {
      this.(frames := frames[run := f])
    }

    /** The execution's promise settles and unregisters itself. */
    function Unregister(run: Id): State {
      this.(frames := frames - {run}, registered := if registered == Some(run) then None else registered)
    }

    /** A waiter's promise keeps the first answer it is given. */
    function Tell(approval: Id, answer: bool): State {
      this.(entries := entries - {approval}, told := if approval in told then told else told[approval := answer])
    }

    /** The finally blocks of a stop, deletion or quarantine. */
    function Release(thread: Id, ok: bool): State
      requires thread in stops
    {
      this.(stops := stops - {thread},
            token := if stops[thread].owns then false else token,
            termination := if termination.Some? && termination.value.pc == Killing(Some(thread))
                           then Some(termination.value.AfterKill(ok)) else termination)
    }
  }

  // --- Commits -----------------------------------------------------------

  /** The status an agent is left with when one of its approvals is resolved. */
  function ResolvedStatus(rows: Rows, approval: Id, run: Id): Status {
    if exists other | other in rows.approvals :: other != approval && rows.approvals[other].decision.Pending?
    then WaitingApproval
    else if run in rows.runs && rows.runs[run].Running? then Busy
    else Ready
  }

  function Publish(rows: Rows, run: Id, approval: Id): Rows {
    rows.WithStatus(WaitingApproval).(approvals := rows.approvals[approval := Approval(run, Pending)])
  }

  function Answer(rows: Rows, approval: Id, approve: bool): Rows
    requires approval in rows.approvals
  {
    var a := rows.approvals[approval];
    var decided := rows.(approvals := rows.approvals[approval := a.(decision := if approve then Approved else Decision.Denied)]);
    if rows.agent == Some(WaitingApproval) then decided.(agent := Some(ResolvedStatus(rows, approval, a.run))) else decided
  }

  function DenyOne(a: Approval): Approval {
    if a.decision.Pending? then a.(decision := Decision.Denied) else a
  }

  function DenyAll(rows: Rows): Rows {
    rows.(approvals := map id | id in rows.approvals :: DenyOne(rows.approvals[id]))
  }

  function EndRun(rows: Rows, run: Id, outcome: Outcome): Rows {
    if outcome.Success? then
      if run in rows.runs && rows.agent.Some? then
        rows.(agent := Some(Ready), runs := rows.runs[run := Completed])
      else rows
    else
      var ended := if run in rows.runs
                   then rows.(runs := rows.runs[run := if outcome.CancelledRun? then Cancelled else Failed])
                   else rows;
      if rows.agent == Some(Stopped) then ended
      else ended.WithStatus(match outcome
                            case CancelledRun => Ready
                            case Denial => Ready
                            case Violation => Stopped
                            case _ => Error)
  }

  /** What a committed mutation does to the agent's rows. */
  function RowsAfter(rows: Rows, op: Op): Rows {
    match op
    case Admit(run, violation) =>
      rows.WithStatus(if violation then Ready else Busy)
          .(runs := rows.runs[run := if violation then Failed else Queued])
    case RunStart(run) => if run in rows.runs then rows.(runs := rows.runs[run := Running]) else rows
    case GatePublish(run, approval) => Publish(rows, run, approval)
    case EgressPublish(run, approval) => Publish(rows, run, approval)
    case Resolve(approval, approve) => if approval in rows.approvals then Answer(rows, approval, approve) else rows
    case Deny(_) => DenyAll(rows)
    case Final(_, kind) => if kind.Delete? then Rows(None, map[], map[]) else rows.WithStatus(Stopped)
    case SetReady => rows.WithStatus(Ready)
    case RunEnd(run, outcome) => EndRun(rows, run, outcome)
    case _ => rows
  }

  /** What it does to principals, accounts, grants and memories. */
  function LedgerStepOf(op: Op): Option<LedgerRuns.Step> {
    match op
    case Final(_, kind) => if kind.Delete? then Some(LedgerRuns.Delete(ME)) else None
    case SetReady => Some(LedgerRuns.Start(ME))
    case RevokeBlock(at) => Some(LedgerRuns.Terminate(ME, at))
    case LedgerOp(step) => Some(step)
    case _ => None
  }

  ghost function LedgerAfter(l: Ledger, op: Op): Ledger {
    if LedgerStepOf(op).Some? then LedgerRuns.Apply(l, LedgerStepOf(op).value) else l
  }

  // --- Callbacks: when a mutation is wanted, and when it is refused ------

  predicate Blocked(l: Ledger) {
    var account := LedgerRuns.AccountById(l.accounts, ME);
    account.Some? && account.value.blocked
  }

  /** Steps on the ledger that do not concern this agent's own account. */
  predicate Foreign(step: LedgerRuns.Step) {
    match step
    case AddAgent(agentId, _) => agentId != ME
    case Terminate(agentId, _) => agentId != ME
    case Start(agentId) => agentId != ME
    case Delete(agentId) => agentId != ME
    case _ => true
  }

  /** A generated run identifier. */
  predicate FreshRun(s: State, run: Id) {
    && run !in s.rows.runs && run !in s.frames
    && (forall id | id in s.rows.approvals :: s.rows.approvals[id].run != run)
    && (forall id | id in s.owner :: s.owner[id] != Some(run))
  }

  /** Somebody is about to make this call. */
  predicate Wanted(s: State, op: Op) {
    match op
    case Admit(run, _) => FreshRun(s, run)
    case RunStart(run) => run in s.frames && s.frames[run].Starting?
    case GatePublish(run, approval) => run in s.frames && s.frames[run] == Publishing(approval)
    case EgressPublish(run, approval) => approval in s.requested && s.requested[approval] == run
    case Resolve(approval, _) => approval in s.entered
    case Deny(thread) => thread in s.stops && s.stops[thread].pc.Denying?
    case Final(thread, kind) => thread in s.stops && s.stops[thread].pc.Finalising? && s.stops[thread].kind == kind
    case SetReady => true
    case RevokeBlock(_) => s.termination.Some? && s.termination.value.pc.Revoking?
    case Persist(contained) => s.termination.Some? && s.termination.value.pc == Persisting(contained)
    case RunEnd(run, outcome) => run in s.frames && s.frames[run] == Ending(outcome)
    case LedgerOp(step) => Foreign(step)
  }

  /** The very call that `op` stands for has been made already.  Admissions, resolutions, starts
      and foreign commits come from anywhere, any number of times. */
  predicate Made(earlier: Option<Op>, op: Op) {
    && earlier.Some?
    && !(op.Admit? || op.Resolve? || op.SetReady? || op.LedgerOp?)
    && (earlier.value == op || (earlier.value.RevokeBlock? && op.RevokeBlock?))
  }

  /** The checks the callback makes against the copied rows and the live in-memory sets. */
  ghost predicate Passes(s: State, op: Op) {
    match op
    case Admit(_, _) =>
      && s.rows.agent.Some? && !s.rows.agent.value.Stopped? && !Blocked(s.ledger)
      && !s.token && !s.rows.ActiveAgent() && !s.barrier
    case GatePublish(_, _) => !s.cancels
    case EgressPublish(run, _) =>
      s.rows.agent.Some? && run in s.rows.runs && s.rows.runs[run].Running? && !s.cancels
    case Resolve(approval, approve) =>
      && approval in s.rows.approvals && s.rows.approvals[approval].decision.Pending?
      && s.rows.ActiveRun(s.rows.approvals[approval].run) && !(approve && s.cancels)
    case Final(_, kind) => kind.Stop? ==> s.rows.agent.Some?
    case SetReady => s.rows.agent.Some? && !s.terminating && !s.rows.ActiveAgent() && !s.token
    case RevokeBlock(_) => s.rows.agent.Some?
    case LedgerOp(step) => LedgerRuns.Fresh(s.ledger, step)
    case _ => true
  }

  // --- Continuations -----------------------------------------------------

  /** What the caller does once its mutation has resolved, up to its next await. */
  function Resumed(s: State, op: Op): State {
    match op
    case Admit(run, violation) => if violation then s else s.Frame(run, Starting).(registered := Some(run))
    case RunStart(run) => s.Frame(run, if s.cancels then Ending(CancelledRun) else Preparing)
    case GatePublish(run, approval) => s.Frame(run, Deciding(approval))
    case EgressPublish(_, approval) => s.(requested := s.requested - {approval})
    case Resolve(approval, approve) => s.Tell(approval, approve)
    case Deny(thread) =>
      if thread in s.stops then
        s.(told := (map id | id in s.entries && id !in s.told :: false) + s.told,
           entries := {},
           stops := s.stops[thread := s.stops[thread].(pc := Cancelling)])
      else s
    case Final(thread, _) => if thread in s.stops then s.Release(thread, true) else s
    case SetReady => if s.terminating then s else s.(barrier := false)
    case RevokeBlock(_) => if s.termination.Some? then s.(termination := Some(s.termination.value.(pc := Draining))) else s
    case Persist(_) => s.(terminating := false, termination := None)
    case RunEnd(run, _) => s.Unregister(run)
    case LedgerOp(_) => s
  }

  /** What the caller does when its mutation rejects: the callback threw, or the write was lost.
      Only the gate tells these apart, a cancellation being what its callback throws for. */
  function Rejected(s: State, op: Op, lost: bool): State {
    match op
    case RunStart(run) => s.Unregister(run)
    case GatePublish(run, approval) =>
      s.(frames := s.frames[run := Ending(if s.cancels && !lost then CancelledRun else Violation)],
         entries := s.entries - {approval},
         told := if approval in s.told then s.told else s.told[approval := false])
    case EgressPublish(_, approval) => s.Tell(approval, false).(requested := s.requested - {approval})
    case Deny(thread) => if thread in s.stops then s.(cancels := false).Release(thread, false) else s
    case Final(thread, _) => if thread in s.stops then s.Release(thread, false) else s
    case RevokeBlock(_) =>
      if s.termination.Some? then s.(termination := Some(s.termination.value.AfterRevoke(false))) else s
    case Persist(_) => s.(termination := None)
    case RunEnd(run, outcome) => if outcome.Success? then s.Frame(run, Ending(Failure)) else s.Unregister(run)
    case _ => s
  }

  // --- Events ------------------------------------------------------------

  datatype Event =
    | Begin(op: Op)
    | Commit
    | Continue
    | Reject(op: Op)
    | Restart(durable: bool)
    | EnterRunner(run: Id)
    | RunnerSettles(run: Id, outcome: Outcome)
    | GateOpens(run: Id, approval: Id)
    | PauseSettles(run: Id, paused: bool)
    | DecisionSettles(run: Id)
    | ResumeSettles(run: Id, resumed: bool)
    | EgressAsks(run: Id, approval: Id)
    | EgressClears(approval: Id)
    | StopStarts(thread: Id, kind: StopKind)
    | CancelReturns(thread: Id, ok: bool)
    | ExecutionSettles(thread: Id)
    | TermStarts
    | FreezeSettles(ok: bool)
    | DrainSettles(ok: bool)
    | VerifyReads(clean: bool, now: Time)
    | VerifySettles(ok: bool)

  /** The facts `verifyContainment` reads in one go before it asks the engine and the network. */
  predicate ReadsContained(s: State, now: Time) {
    var account := LedgerRuns.AccountById(s.ledger.accounts, ME);
    && s.rows.agent == Some(Stopped) && s.registered.None?
    && account.Some? && account.value.blocked
    && (forall g | g in s.ledger.grants && g.principalId == account.value.principalId :: !g.LocallyLive(now))
    && (forall m | m in s.ledger.memories && m.agentId == ME :: m.quarantinedAt.Some?)
  }

  ghost predicate Enabled(s: State, e: Event) {
    match e
    case Begin(op) => s.flight.None? && !Made(s.settled, op) && Wanted(s, op) && Passes(s, op)
    case Commit => s.flight.Some? && s.settled.None?
    case Continue => s.settled.Some?
    case Reject(op) => s.flight == Some(op) || (Wanted(s, op) && !Made(s.flight, op) && !Made(s.settled, op))
    case Restart(_) => true
    case EnterRunner(run) => run in s.frames && s.frames[run].Preparing?
    case RunnerSettles(run, _) => run in s.frames && s.frames[run].Executing?
    case GateOpens(run, approval) => run in s.frames && s.frames[run].Executing? && approval !in s.owner
    case PauseSettles(run, _) => run in s.frames && s.frames[run].Pausing?
    case DecisionSettles(run) => run in s.frames && s.frames[run].Deciding? && s.frames[run].approval in s.told
    case ResumeSettles(run, _) => run in s.frames && s.frames[run].Resuming?
    case EgressAsks(run, approval) =>
      s.rows.agent.Some? && run in s.rows.runs && s.rows.runs[run].Running? && approval !in s.owner
    case EgressClears(approval) => approval in s.entries && approval in s.owner && s.owner[approval].None?
    case StopStarts(thread, kind) =>
      && thread !in s.stops
      && (kind.Stop? || kind.Delete? ==> s.rows.agent.Some? && !s.token)
      && (kind.Kill? ==> s.termination.Some? && s.termination.value.pc == Killing(None))
    case CancelReturns(thread, _) => thread in s.stops && s.stops[thread].pc.Cancelling?
    case ExecutionSettles(thread) =>
      && thread in s.stops && s.stops[thread].pc.AwaitingRun?
      && (s.stops[thread].pc.run.Some? ==> s.stops[thread].pc.run.value !in s.frames)
    case TermStarts => s.rows.agent.Some? && !s.terminating
    case FreezeSettles(_) => s.termination.Some? && s.termination.value.pc.Freezing?
    case DrainSettles(_) => s.termination.Some? && s.termination.value.pc.Draining?
    case VerifyReads(clean, now) =>
      s.termination.Some? && s.termination.value.pc.Verifying? && (clean ==> ReadsContained(s, now))
    case VerifySettles(ok) =>
      s.termination.Some? && s.termination.value.pc.Probing? && (ok ==> s.termination.value.pc.clean)
  }

  /** What is left after the start-up pass: no run is active and nothing is pending. */
  function Recover(rows: Rows): Rows {
    Rows(
      if rows.ActiveAgent() then Some(Ready) else rows.agent,
      map run | run in rows.runs :: if rows.ActiveRun(run) then Cancelled else rows.runs[run],
      map id | id in rows.approvals :: DenyOne(rows.approvals[id]))
  }

  /** A server that has just loaded this database. */
  function Booted(rows: Rows, ledger: Ledger, receipts: seq<bool>, owner: map<Id, Option<Id>>): State {
    State(Recover(rows), ledger, receipts, None, None, None, map[], false, false, false, false, {}, {}, map[], map[],
          map[], None, owner)
  }

  /** The events of a termination between two store calls. */
  predicate TermEvent(e: Event) {
    e.TermStarts? || e.FreezeSettles? || e.DrainSettles? || e.VerifyReads? || e.VerifySettles?
  }

  /** The events of one execution between two store calls. */
  predicate FrameEvent(e: Event) {
    e.EnterRunner? || e.RunnerSettles? || e.GateOpens? || e.PauseSettles? || e.DecisionSettles? || e.ResumeSettles?
  }

  /** Where such an event takes the execution; a cancellation request goes first everywhere. */
  ghost function NextFrame(s: State, e: Event): Frame
    requires Enabled(s, e) && FrameEvent(e)
  {
    match e
    case EnterRunner(_) => if s.barrier || s.cancels then Ending(CancelledRun) else Executing
    case RunnerSettles(_, outcome) => Ending(outcome)
    case GateOpens(_, approval) => if s.cancels then Ending(CancelledRun) else Pausing(approval)
    case PauseSettles(run, paused) =>
      if s.cancels then Ending(CancelledRun) else if paused then Publishing(s.frames[run].approval) else Ending(Violation)
    case DecisionSettles(run) =>
      if s.cancels then Ending(CancelledRun)
      else if s.told[s.frames[run].approval] then Resuming(s.frames[run].approval)
      else Ending(Denial)
    case ResumeSettles(_, resumed) =>
      if s.cancels then Ending(CancelledRun) else if resumed then Executing else Ending(Violation)
  }

  ghost function FrameStep(s: State, e: Event): State
    requires Enabled(s, e) && FrameEvent(e)
  {
    var f := NextFrame(s, e);
    s.(frames := s.frames[e.run := f],
       entries := if f.Publishing? then s.entries + {f.approval} else s.entries,
       entered := if f.Publishing? then s.entered + {f.approval} else s.entered,
       owner := if e.GateOpens? then s.owner[e.approval := Some(e.run)] else s.owner)
  }

  ghost function Step(s: State, e: Event): State
    requires Enabled(s, e)
  {
    match e
    case Begin(op) => s.(flight := Some(op))
    case Commit =>
      var op := s.flight.value;
      s.(rows := RowsAfter(s.rows, op), ledger := LedgerAfter(s.ledger, op),
         receipts := if op.Persist? then s.receipts + [op.contained] else s.receipts,
         flight := None, settled := Some(op))
    case Continue => Resumed(s.(settled := None), s.settled.value)
    case Reject(op) => Rejected(if s.flight == Some(op) then s.(flight := None) else s, op, s.flight == Some(op))
    case Restart(durable) =>
      // The write that was under way may or may not have reached the disk.
      if durable && s.flight.Some? then
        var op := s.flight.value;
        Booted(RowsAfter(s.rows, op), LedgerAfter(s.ledger, op),
               if op.Persist? then s.receipts + [op.contained] else s.receipts, s.owner)
      else Booted(s.rows, s.ledger, s.receipts, s.owner)
    case EgressAsks(run, approval) =>
      s.(entries := s.entries + {approval}, entered := s.entered + {approval},
         requested := s.requested[approval := run], owner := s.owner[approval := None])
    case EgressClears(approval) => s.Tell(approval, false)
    case StopStarts(thread, kind) =>
      s.(stops := s.stops[thread := StopFrame(kind, !s.token, Denying)], token := true, cancels := true,
         termination := if kind.Kill? then Some(s.termination.value.(pc := Killing(Some(thread)))) else s.termination)
    case CancelReturns(thread, ok) =>
      s.(stops := s.stops[thread := s.stops[thread].(pc := AwaitingRun(s.registered, ok))])
    case ExecutionSettles(thread) =>
      var calm := s.(cancels := false);
      if s.stops[thread].pc.cancelled then calm.(stops := s.stops[thread := s.stops[thread].(pc := Finalising)]) else calm.Release(thread, false)
    case TermStarts =>
      s.(terminating := true, barrier := true, termination := Some(TermFrame(Freezing, false, None, None)))
    case FreezeSettles(ok) =>
      s.(barrier := true, termination := Some(s.termination.value.(freezeOk := ok, pc := if ok then Revoking else Killing(None))))
    case DrainSettles(ok) => s.(termination := Some(s.termination.value.AfterRevoke(ok)))
    case VerifyReads(clean, _) => s.(termination := Some(s.termination.value.(pc := Probing(clean))))
    case VerifySettles(ok) =>
      var t := s.termination.value;
      s.(termination := Some(t.(pc := Persisting(t.freezeOk && t.revokeOk == Some(true) && t.killOk == Some(true) && ok))))
    case _ => FrameStep(s, e)
  }

  /** A run of events, starting with a server that has just loaded any database. */
  ghost predicate IsRun(trace: seq<State>, events: seq<Event>) {
    && |trace| == |events| + 1
    && (exists rows, ledger, receipts, owner ::
          && trace[0] == Booted(rows, ledger, receipts, owner) && rows.approvals.Keys <= owner.Keys
          && LedgerRuns.WellFormed(ledger) && (rows.agent.Some? <==> HasAccount(ledger.accounts, ME)))
    && forall i | 0 <= i < |events| :: Enabled(trace[i], events[i]) && trace[i + 1] == Step(trace[i], events[i])
  }
}
