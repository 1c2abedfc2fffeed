/** The part of one agent's life that the service itself stores, and what each step of the
    one-agent model does to it.  The rest of that model is suspended calls and the ledger. */
module AgentView {
  import opened Types
  import opened Lifecycle

  datatype View = View(
    rows: Rows,
    registered: Option<Id>,
    cancels: bool,
    barrier: bool,
    terminating: bool,
    token: bool,
    entries: set<Id>,
    told: map<Id, bool>)
  {
    function Tell(approval: Id, answer: bool): View {
      this.(entries := entries - {approval}, told := if approval in told then told else told[approval := answer])
    }
  }

  function Shown(s: State): View {
    View(s.rows, s.registered, s.cancels, s.barrier, s.terminating, s.token, s.entries, s.told)
  }

  /** What a service that has just been created stores. */
  function Quiet(rows: Rows): View {
    View(rows, None, false, false, false, false, {}, map[])
  }

  /** Whatever else is going on, this event takes the agent from one view to the other. */
  ghost predicate Follows(before: View, e: Event, after: View) {
    forall s | Shown(s) == before && Enabled(s, e) :: Shown(Step(s, e)) == after
  }

  /** A commit of this call does. */
  ghost predicate Commits(before: View, op: Op, after: View) {
    forall s | Shown(s) == before && s.flight == Some(op) && Enabled(s, Commit) :: Shown(Step(s, Commit)) == after
  }

  /** The continuation of this call does, its thread still being there. */
  ghost predicate Continues(before: View, op: Op, after: View) {
    forall s | Shown(s) == before && s.settled == Some(op) && (op.Deny? ==> op.thread in s.stops) ::
      Shown(Step(s, Continue)) == after
  }

  /** The callback of this call passes its checks or not; only an admission asks the ledger too,
      whether the account is blocked. */
  ghost predicate Guarded(v: View, blocked: bool, op: Op, ok: bool) {
    forall s | Shown(s) == v && (op.Admit? ==> Blocked(s.ledger) == blocked) :: Passes(s, op) <==> ok
  }

  // --- Events ------------------------------------------------------------

  lemma TermStartsFollows(v: View)
    ensures Follows(v, TermStarts, v.(terminating := true, barrier := true))
  {
    hide Resumed, Rejected, RowsAfter, LedgerAfter, Booted, Passes, NextFrame, FrameStep;
  }

  lemma FreezeFollows(v: View, ok: bool)
    ensures Follows(v, FreezeSettles(ok), v.(barrier := true))
  {
    hide Resumed, Rejected, RowsAfter, LedgerAfter, Booted, Passes, NextFrame, FrameStep;
  }

  lemma StopFollows(v: View, thread: Id, kind: StopKind)
    ensures Follows(v, StopStarts(thread, kind), v.(token := true, cancels := true))
  {
    hide Resumed, Rejected, RowsAfter, LedgerAfter, Booted, Passes, NextFrame, FrameStep;
  }

  lemma AskFollows(v: View, run: Id, approval: Id)
    ensures Follows(v, EgressAsks(run, approval), v.(entries := v.entries + {approval}))
  {
    hide Resumed, Rejected, RowsAfter, LedgerAfter, Booted, Passes, NextFrame, FrameStep;
  }

  lemma PauseShown(s: State, run: Id, approval: Id)
    requires run in s.frames && s.frames[run] == Pausing(approval) && !s.cancels
    ensures Shown(Step(s, PauseSettles(run, true))) == Shown(s).(entries := Shown(s).entries + {approval})
  {
    hide Resumed, Rejected, RowsAfter, LedgerAfter, Booted, Passes;
  }

  lemma ClearFollows(v: View, approval: Id)
    ensures Follows(v, EgressClears(approval), v.Tell(approval, false))
  {
    hide Resumed, Rejected, RowsAfter, LedgerAfter, Booted, Passes, NextFrame, FrameStep;
  }

  lemma ReleaseShown(s: State, thread: Id, ok: bool)
    requires thread in s.stops
    ensures Shown(s.Release(thread, ok)) == Shown(s).(token := if s.stops[thread].owns then false else s.token)
  {
  }

  /** When the awaited execution has settled, the request for cancellation is withdrawn, and the
      token with it if the cancellation itself had failed. */
  lemma SettledShown(s: State, thread: Id)
    requires Enabled(s, ExecutionSettles(thread))
    ensures thread in s.stops && s.stops[thread].pc.AwaitingRun?
    ensures var f := s.stops[thread];
            Shown(Step(s, ExecutionSettles(thread)))
            == Shown(s).(cancels := false, token := if !f.pc.cancelled && f.owns then false else s.token)
  {
    hide Resumed, Rejected, RowsAfter, LedgerAfter, Booted, Passes, NextFrame, FrameStep;
    ReleaseShown(s.(cancels := false), thread, false);
  }

  // --- Checks, commits and continuations ---------------------------------

  /** What the callbacks check, for everything but foreign calls. */
  predicate Checks(v: View, blocked: bool, op: Op) {
    match op
    case Admit(_, _) =>
      && v.rows.agent.Some? && !v.rows.agent.value.Stopped? && !blocked
      && !v.token && !v.rows.ActiveAgent() && !v.barrier
    case GatePublish(_, _) => !v.cancels
    case EgressPublish(run, _) =>
      v.rows.agent.Some? && run in v.rows.runs && v.rows.runs[run].Running? && !v.cancels
    case Resolve(approval, approve) =>
      && approval in v.rows.approvals && v.rows.approvals[approval].decision.Pending?
      && v.rows.ActiveRun(v.rows.approvals[approval].run) && !(approve && v.cancels)
    case Final(_, kind) => kind.Stop? ==> v.rows.agent.Some?
    case SetReady => v.rows.agent.Some? && !v.terminating && !v.rows.ActiveAgent() && !v.token
    case RevokeBlock(_) => v.rows.agent.Some?
    case _ => true
  }

  lemma ChecksShown(v: View, blocked: bool, op: Op)
    requires !op.LedgerOp?
    ensures Guarded(v, blocked, op, Checks(v, blocked, op))
  {
  }

  lemma CommitShown(v: View, op: Op)
    ensures Commits(v, op, v.(rows := RowsAfter(v.rows, op)))
  {
    hide Resumed, Rejected, RowsAfter, LedgerAfter, Booted, Passes, NextFrame, FrameStep;
  }

  /** Answers after everybody in the set was told no. */
  function Denials(those: set<Id>, told: map<Id, bool>): map<Id, bool> {
    (map id | id in those && id !in told :: false) + told
  }

  lemma NoDenial(told: map<Id, bool>)
    ensures Denials({}, told) == told
  {
  }

  lemma OneMoreDenial(those: set<Id>, told: map<Id, bool>, id: Id)
    ensures var m := Denials(those, told);
            Denials(those + {id}, told) == if id in m then m else m[id := false]
  {
  }

  /** What a continuation does to the view. */
  function After(v: View, op: Op): View {
    match op
    case Admit(run, violation) => if violation then v else v.(registered := Some(run))
    case Resolve(approval, approve) => v.Tell(approval, approve)
    case Deny(_) => v.(entries := {}, told := Denials(v.entries, v.told))
    case SetReady => if v.terminating then v else v.(barrier := false)
    case Persist(_) => v.(terminating := false)
    case RunEnd(run, _) => v.(registered := if v.registered == Some(run) then None else v.registered)
    case _ => v
  }

  lemma ContinueShown(v: View, op: Op)
    requires !op.Final?
    ensures Continues(v, op, After(v, op))
  {
    hide Rejected, RowsAfter, LedgerAfter, Booted, Passes, NextFrame, FrameStep;
    forall s | Shown(s) == v && s.settled == Some(op) && (op.Deny? ==> op.thread in s.stops)
      ensures Shown(Step(s, Continue)) == After(v, op)
    {
      ResumedShown(s.(settled := None), op);
    }
  }

  lemma ResumedShown(s: State, op: Op)
    requires !op.Final? && (op.Deny? ==> op.thread in s.stops)
    ensures Shown(Resumed(s, op)) == After(Shown(s), op)
  {
    if op.LedgerOp? || (op.Admit? && op.violation) {
      assert Resumed(s, op) == s;
    }
  }
}
