/** The service's tables and sets for all agents at once, as its callbacks and continuations
    update them in place.  Seen through one agent, every update is the one-agent model's, and
    no other agent sees anything. */
module AgentService {
  import opened Types
  import opened Lifecycle
  import opened AgentView

  datatype RunRow = RunRow(agent: Id, status: RunStatus)

  datatype ApprovalRow = ApprovalRow(agent: Id, run: Id, decision: Decision)

  function RunsOf(runs: map<Id, RunRow>, a: Id): map<Id, RunStatus> {
    map r | r in runs && runs[r].agent == a :: runs[r].status
  }

  function ApprovalsOf(approvals: map<Id, ApprovalRow>, a: Id): map<Id, Approval> {
    map id | id in approvals && approvals[id].agent == a :: Approval(approvals[id].run, approvals[id].decision)
  }

  function CancelRow(row: RunRow): RunRow {
    if row.status.Queued? || row.status.Running? then row.(status := Cancelled) else row
  }

  function DenyRow(row: ApprovalRow): ApprovalRow {
    if row.decision.Pending? then row.(decision := Decision.Denied) else row
  }

  lemma RunsCancelled(before: map<Id, RunRow>, after: map<Id, RunRow>, rows: Rows, a: Id)
    requires rows.runs == RunsOf(before, a)
    requires after.Keys == before.Keys && forall r | r in after :: after[r] == CancelRow(before[r])
    ensures RunsOf(after, a) == Recover(rows).runs
  {
  }

  lemma ApprovalsDenied(before: map<Id, ApprovalRow>, after: map<Id, ApprovalRow>, rows: Rows, a: Id)
    requires rows.approvals == ApprovalsOf(before, a)
    requires after.Keys == before.Keys
    requires forall id | id in after && before[id].agent == a :: after[id] == DenyRow(before[id])
    requires forall id | id in after :: after[id].agent == before[id].agent
    ensures ApprovalsOf(after, a) == DenyAll(rows).approvals == Recover(rows).approvals
  {
  }

  lemma ApprovalsUntouched(before: map<Id, ApprovalRow>, after: map<Id, ApprovalRow>, a: Id)
    requires after.Keys == before.Keys && forall id | id in after :: after[id].agent == before[id].agent
    requires forall id | id in after && before[id].agent == a :: after[id] == before[id]
    ensures ApprovalsOf(after, a) == ApprovalsOf(before, a)
  {
  }

  /** The entries still waiting for an answer about the agent. */
  function EntriesIn(pending: map<Id, Id>, a: Id): set<Id> {
    set id | id in pending && pending[id] == a
  }

  /** The answers given to waiters about the agent. */
  ghost function AnswersIn(answers: map<Id, bool>, askers: map<Id, Id>, a: Id): map<Id, bool> {
    map id | id in answers && id in askers && askers[id] == a :: answers[id]
  }

  lemma OthersSeen(before: map<Id, ApprovalRow>, after: map<Id, ApprovalRow>, a: Id, id: Id)
    requires after.Keys == before.Keys && forall x | x in after && x != id :: after[x] == before[x]
    ensures var rows := ApprovalsOf(before, a);
            (exists x | x in after :: x != id && after[x].agent == a && after[x].decision.Pending?) <==>
            (exists x | x in rows :: x != id && rows[x].decision.Pending?)
  {
    var rows := ApprovalsOf(before, a);
    if x :| x in after && x != id && after[x].agent == a && after[x].decision.Pending? {
      assert x in rows && rows[x].decision.Pending?;
    }
    if x :| x in rows && x != id && rows[x].decision.Pending? {
      assert after[x].agent == a;
    }
  }

  /** One answer, seen by any agent. */
  lemma OneAnswer(pending: map<Id, Id>, answers: map<Id, bool>, askers: map<Id, Id>, id: Id, answer: bool, a: Id)
    requires id in askers && (id in pending ==> pending[id] == askers[id])
    ensures EntriesIn(pending - {id}, a) == if a == askers[id] then EntriesIn(pending, a) - {id} else EntriesIn(pending, a)
    ensures var told := AnswersIn(answers, askers, a);
            AnswersIn(if id in answers then answers else answers[id := answer], askers, a)
            == if a != askers[id] || id in told then told else told[id := answer]
  {
  }

  class Service {
    // The database.
    var agents: map<Id, Status>
    var runs: map<Id, RunRow>
    var approvals: map<Id, ApprovalRow>
    // In memory.
    var activeExecutions: map<Id, Id>
    var cancellationRequests: set<Id>
    var terminationBarriers: set<Id>
    var terminationsInProgress: set<Id>
    var lifecycleMutations: set<Id>
    var pendingApprovals: map<Id, Id>
    var answers: map<Id, bool>
    // The agent every waiter asked about, answered ones included.
    ghost var askers: map<Id, Id>

    ghost predicate Valid()
      reads this
    {
      && answers.Keys <= askers.Keys
      && forall id | id in pendingApprovals :: id in askers && askers[id] == pendingApprovals[id]
    }

    /** What is stored about one agent. */
    ghost function ViewOf(a: Id): View
      reads this
    {
      View(RowsOf(a), if a in activeExecutions then Some(activeExecutions[a]) else None,
           a in cancellationRequests, a in terminationBarriers, a in terminationsInProgress, a in lifecycleMutations,
           EntriesIn(pendingApprovals, a), AnswersIn(answers, askers, a))
    }

    /** One agent's rows. */
    ghost function RowsOf(a: Id): Rows
      reads this`agents, this`runs, this`approvals
    {
      Rows(if a in agents then Some(agents[a]) else None,
           RunsOf(runs, a),
           ApprovalsOf(approvals, a))
    }

    constructor (agents: map<Id, Status>, runs: map<Id, RunRow>, approvals: map<Id, ApprovalRow>)
      ensures this.agents == agents && this.runs == runs && this.approvals == approvals
      ensures Valid() && forall a :: ViewOf(a) == Quiet(RowsOf(a))
    {
      this.agents, this.runs, this.approvals := agents, runs, approvals;
      activeExecutions, pendingApprovals, answers, askers := map[], map[], map[], map[];
      cancellationRequests, terminationBarriers, terminationsInProgress, lifecycleMutations := {}, {}, {}, {};
    }

    // --- Start-up --------------------------------------------------------

    method CancelActiveRuns()
      modifies this`runs
      ensures runs.Keys == old(runs).Keys
      ensures forall r | r in runs :: runs[r] == CancelRow(old(runs[r]))
    {
      var todo := runs.Keys;
      while todo != {}
        invariant todo <= runs.Keys == old(runs).Keys
        invariant forall r | r in todo :: runs[r] == old(runs[r])
        invariant forall r | r in runs && r !in todo :: runs[r] == CancelRow(old(runs[r]))
      {
        var r :| r in todo;
        if runs[r].status.Queued? || runs[r].status.Running? {
          runs := runs[r := runs[r].(status := Cancelled)];
        }
        todo := todo - {r};
      }
    }

    method ReadyActiveAgents()
      modifies this`agents
      ensures agents.Keys == old(agents).Keys
      ensures forall a | a in agents :: agents[a] == if old(agents[a]).Active() then Ready else old(agents[a])
    {
      var todo := agents.Keys;
      while todo != {}
        invariant todo <= agents.Keys == old(agents).Keys
        invariant forall a | a in todo :: agents[a] == old(agents[a])
        invariant forall a | a in agents && a !in todo :: agents[a] == if old(agents[a]).Active() then Ready else old(agents[a])
      {
        var a :| a in todo;
        if agents[a].Active() {
          agents := agents[a := Ready];
        }
        todo := todo - {a};
      }
    }

    /** Denies the pending approvals of some agents. */
    method DenyApprovalsOf(these: set<Id>)
      modifies this`approvals
      ensures approvals.Keys == old(approvals).Keys
      ensures forall id | id in approvals ::
                approvals[id] == if old(approvals[id]).agent in these then DenyRow(old(approvals[id])) else old(approvals[id])
    {
      var todo := approvals.Keys;
      while todo != {}
        invariant todo <= approvals.Keys == old(approvals).Keys
        invariant forall id | id in todo :: approvals[id] == old(approvals[id])
        invariant forall id | id in approvals && id !in todo ::
                    approvals[id] == if old(approvals[id]).agent in these then DenyRow(old(approvals[id])) else old(approvals[id])
      {
        var id :| id in todo;
        if approvals[id].agent in these && approvals[id].decision.Pending? {
          approvals := approvals[id := approvals[id].(decision := Decision.Denied)];
        }
        todo := todo - {id};
      }
    }

    /** The commit made at start-up. */
    method Initialize()
      modifies this`agents, this`runs, this`approvals
      ensures forall a :: RowsOf(a) == Recover(old(RowsOf(a)))
      ensures forall a, ledger, receipts, owner | old(ViewOf(a)) == Quiet(old(RowsOf(a))) ::
                ViewOf(a) == Shown(Booted(old(RowsOf(a)), ledger, receipts, owner))
    {
      CancelActiveRuns();
      ReadyActiveAgents();
      ghost var before := approvals;
      DenyApprovalsOf(set id | id in approvals :: approvals[id].agent);
      forall a
        ensures RowsOf(a) == Recover(old(RowsOf(a)))
      {
        RunsCancelled(old(runs), runs, old(RowsOf(a)), a);
        ApprovalsDenied(old(approvals), approvals, old(RowsOf(a)), a);
      }
    }

    // --- Cancellation ----------------------------------------------------

    /** The commit of `denyPendingApprovals`. */
    method DenyPendingApprovals(agentId: Id)
      modifies this`approvals
      ensures RowsOf(agentId) == DenyAll(old(RowsOf(agentId)))
      ensures forall thread :: Commits(old(ViewOf(agentId)), Deny(thread), ViewOf(agentId))
      ensures forall a | a != agentId :: ViewOf(a) == old(ViewOf(a))
    {
      hide Commits;
      DenyApprovalsOf({agentId});
      ApprovalsDenied(old(approvals), approvals, old(RowsOf(agentId)), agentId);
      forall a | a != agentId
        ensures RowsOf(a) == old(RowsOf(a))
      {
        ApprovalsUntouched(old(approvals), approvals, a);
      }
      forall thread
        ensures Commits(old(ViewOf(agentId)), Deny(thread), ViewOf(agentId))
      {
        CommitShown(old(ViewOf(agentId)), Deny(thread));
      }
    }

    /** A waiter's promise keeps its first answer. */
    method Tell(id: Id, answer: bool)
      requires Valid() && id in askers
      modifies this`pendingApprovals, this`answers
      ensures Valid() && pendingApprovals == old(pendingApprovals) - {id}
      ensures ViewOf(askers[id]) == old(ViewOf(askers[id])).Tell(id, answer)
      ensures forall a | a != askers[id] :: ViewOf(a) == old(ViewOf(a))
    {
      hide EntriesIn, AnswersIn, RowsOf;
      pendingApprovals := pendingApprovals - {id};
      if id !in answers {
        answers := answers[id := answer];
      }
      forall a
        ensures ViewOf(a) == if a == askers[id] then old(ViewOf(a)).Tell(id, answer) else old(ViewOf(a))
      {
        OneAnswer(old(pendingApprovals), old(answers), askers, id, answer, a);
      }
    }

    /** What `resolveApproval` does once its commit is back. */
    method FinishResolution(id: Id, approve: bool)
      requires Valid() && id in askers
      modifies this`pendingApprovals, this`answers
      ensures Valid()
      ensures Continues(old(ViewOf(askers[id])), Resolve(id, approve), ViewOf(askers[id]))
      ensures forall a | a != askers[id] :: ViewOf(a) == old(ViewOf(a))
    {
      hide Continues;
      Tell(id, approve);
      ContinueShown(old(ViewOf(askers[id])), Resolve(id, approve));
    }

    /** A held connection that times out or is dropped, when its denial cannot be committed. */
    method ClearPending(id: Id)
      requires Valid() && id in pendingApprovals
      modifies this`pendingApprovals, this`answers
      ensures Valid()
      ensures Follows(old(ViewOf(askers[id])), EgressClears(id), ViewOf(askers[id]))
      ensures forall a | a != askers[id] :: ViewOf(a) == old(ViewOf(a))
    {
      hide Follows;
      Tell(id, false);
      ClearFollows(old(ViewOf(askers[id])), id);
    }

    /** A new waiter, for a held step or a held connection. */
    method RegisterApproval(id: Id, agentId: Id)
      requires Valid() && id !in askers
      modifies this`pendingApprovals, this`askers
      ensures Valid() && askers == old(askers)[id := agentId]
      ensures forall run :: Follows(old(ViewOf(agentId)), EgressAsks(run, id), ViewOf(agentId))
      ensures forall s, run | Shown(s) == old(ViewOf(agentId)) && run in s.frames && s.frames[run] == Pausing(id) && !s.cancels ::
                Shown(Step(s, PauseSettles(run, true))) == ViewOf(agentId)
      ensures forall a | a != agentId :: ViewOf(a) == old(ViewOf(a))
    {
      hide Follows, Step, Shown, RowsOf;
      pendingApprovals := pendingApprovals[id := agentId];
      askers := askers[id := agentId];
      assert EntriesIn(pendingApprovals, agentId) == EntriesIn(old(pendingApprovals), agentId) + {id};
      forall a
        ensures AnswersIn(answers, askers, a) == AnswersIn(answers, old(askers), a)
        ensures a != agentId ==> EntriesIn(pendingApprovals, a) == EntriesIn(old(pendingApprovals), a)
      {
      }
      ghost var before := old(ViewOf(agentId));
      assert ViewOf(agentId) == before.(entries := before.entries + {id});
      forall run
        ensures Follows(before, EgressAsks(run, id), ViewOf(agentId))
      {
        AskFollows(before, run, id);
      }
      forall s, run | Shown(s) == before && run in s.frames && s.frames[run] == Pausing(id) && !s.cancels
        ensures Shown(Step(s, PauseSettles(run, true))) == ViewOf(agentId)
      {
        PauseShown(s, run, id);
      }
    }

    /** What follows that commit: everybody waiting about the agent is told no. */
    method TellEveryoneNo(agentId: Id)
      requires Valid()
      modifies this`pendingApprovals, this`answers
      ensures Valid()
      ensures forall thread :: Continues(old(ViewOf(agentId)), Deny(thread), ViewOf(agentId))
      ensures forall a | a != agentId :: ViewOf(a) == old(ViewOf(a))
    {
      hide Continues, Denials, AnswersIn, RowsOf;
      ghost var before := ViewOf(agentId);
      assert before.entries - before.entries == {};
      NoDenial(before.told);
      var todo := pendingApprovals.Keys;
      while todo != {}
        invariant Valid() && todo <= pendingApprovals.Keys
        invariant forall id | id in pendingApprovals && id !in todo :: pendingApprovals[id] != agentId
        invariant forall a | a != agentId :: ViewOf(a) == old(ViewOf(a))
        invariant ViewOf(agentId).entries <= before.entries
        invariant ViewOf(agentId) == before.(entries := ViewOf(agentId).entries,
                                             told := Denials(before.entries - ViewOf(agentId).entries, before.told))
      {
        var id :| id in todo;
        if pendingApprovals[id] == agentId {
          ghost var entries := ViewOf(agentId).entries;
          assert id in entries;
          Tell(id, false);
          assert before.entries - ViewOf(agentId).entries == before.entries - entries + {id};
          OneMoreDenial(before.entries - entries, before.told, id);
        }
        todo := todo - {id};
      }
      assert ViewOf(agentId).entries == {} && before.entries - {} == before.entries;
      forall thread
        ensures Continues(before, Deny(thread), ViewOf(agentId))
      {
        ContinueShown(before, Deny(thread));
      }
    }

    // --- Approvals -------------------------------------------------------

    /** Whether the agent waits for some other approval as well. */
    method HasOtherPending(agentId: Id, approval: Id) returns (found: bool)
      ensures found == exists id | id in approvals ::
                         id != approval && approvals[id].agent == agentId && approvals[id].decision.Pending?
    {
      found := false;
      var todo := approvals.Keys;
      while todo != {}
        invariant todo <= approvals.Keys
        invariant found == exists id | id in approvals ::
                             id !in todo && id != approval && approvals[id].agent == agentId && approvals[id].decision.Pending?
      {
        var id :| id in todo;
        if id != approval && approvals[id].agent == agentId && approvals[id].decision.Pending? {
          found := true;
        }
        todo := todo - {id};
      }
    }

    /** The checks of `resolveApproval`'s callback; `hadEntry` says whether the approval had a
        waiter when the call was made. */
    method Resolvable(id: Id, approve: bool, hadEntry: bool, ghost a: Id) returns (ok: bool)
      requires id in approvals ==> approvals[id].agent == a
      ensures ok ==> hadEntry && id in approvals && approvals[id].run in runs && runs[approvals[id].run].agent == a
      ensures hadEntry ==> Guarded(ViewOf(a), false, Resolve(id, approve), ok)
    {
      hide Guarded;
      ChecksShown(ViewOf(a), false, Resolve(id, approve));
      if id !in approvals || !approvals[id].decision.Pending? { return false; }
      var row := approvals[id];
      ok := hadEntry && row.run in runs && runs[row.run].agent == row.agent
            && (runs[row.run].status.Queued? || runs[row.run].status.Running?)
            && !(approve && row.agent in cancellationRequests);
    }

    method RecordDecision(id: Id, approve: bool)
      requires id in approvals
      modifies this`approvals
      ensures approvals == old(approvals)[id := old(approvals)[id].(decision := if approve then Approved else Decision.Denied)]
      ensures forall a :: RowsOf(a) ==
                if a != old(approvals)[id].agent then old(RowsOf(a))
                else old(RowsOf(a)).(approvals := old(RowsOf(a)).approvals[id :=
                       Approval(old(approvals)[id].run, if approve then Approved else Decision.Denied)])
    {
      var row := approvals[id];
      approvals := approvals[id := row.(decision := if approve then Approved else Decision.Denied)];
      forall a
        ensures RowsOf(a).approvals ==
                if a != row.agent then old(RowsOf(a)).approvals
                else old(RowsOf(a)).approvals[id := Approval(row.run, if approve then Approved else Decision.Denied)]
      {
      }
    }

    method SetStatusIfPresent(agentId: Id, status: Status)
      modifies this`agents
      ensures forall a :: RowsOf(a) == if a == agentId then old(RowsOf(a)).WithStatus(status) else old(RowsOf(a))
    {
      if agentId in agents {
        agents := agents[agentId := status];
      }
    }

    /** What `resolveApproval`'s callback writes once its checks have passed. */
    method RecordResolution(id: Id, approve: bool)
      requires id in approvals && approvals[id].run in runs && runs[approvals[id].run].agent == approvals[id].agent
      modifies this`agents, this`approvals
      ensures var a := old(approvals)[id].agent;
              && id in old(RowsOf(a)).approvals && RowsOf(a) == Answer(old(RowsOf(a)), id, approve)
              && forall b | b != a :: RowsOf(b) == old(RowsOf(b))
    {
      var row := approvals[id];
      RecordDecision(id, approve);
      var others := HasOtherPending(row.agent, id);
      OthersSeen(old(approvals), approvals, row.agent, id);
      if row.agent in agents && agents[row.agent].WaitingApproval? {
        SetStatusIfPresent(row.agent,
                           if others then WaitingApproval else if runs[row.run].status.Running? then Busy else Ready);
      }
    }

    /** The callback of `resolveApproval`. */
    method ResolveCallback(id: Id, approve: bool, hadEntry: bool, ghost a: Id) returns (ok: bool)
      requires id in approvals ==> approvals[id].agent == a
      modifies this`agents, this`approvals
      ensures ok ==> hadEntry
      ensures hadEntry ==> Guarded(old(ViewOf(a)), false, Resolve(id, approve), ok)
      ensures !ok ==> agents == old(agents) && approvals == old(approvals)
      ensures ok ==> Commits(old(ViewOf(a)), Resolve(id, approve), ViewOf(a))
      ensures forall b | b != a :: ViewOf(b) == old(ViewOf(b))
    {
      hide Commits, Guarded, RowsOf, Answer, EntriesIn, AnswersIn;
      ok := Resolvable(id, approve, hadEntry, a);
      if ok {
        RecordResolution(id, approve);
        CommitShown(old(ViewOf(a)), Resolve(id, approve));
      }
    }

    /** Puts a new approval on record and marks the agent waiting. */
    method RecordApproval(agentId: Id, runId: Id, approval: Id)
      requires approval !in approvals
      modifies this`agents, this`approvals
      ensures RowsOf(agentId) == Publish(old(RowsOf(agentId)), runId, approval)
      ensures forall a | a != agentId :: RowsOf(a) == old(RowsOf(a))
    {
      approvals := approvals[approval := ApprovalRow(agentId, runId, Pending)];
      assert RowsOf(agentId).approvals == old(RowsOf(agentId)).approvals[approval := Approval(runId, Pending)];
      forall a | a != agentId
        ensures RowsOf(a).approvals == old(RowsOf(a)).approvals
      {
      }
      SetStatusIfPresent(agentId, WaitingApproval);
    }

    /** The callback that publishes the approval of a held step. */
    method PublishStep(agentId: Id, runId: Id, approval: Id) returns (ok: bool)
      requires approval !in approvals
      modifies this`agents, this`approvals
      ensures Guarded(old(ViewOf(agentId)), false, GatePublish(runId, approval), ok)
      ensures ok ==> Commits(old(ViewOf(agentId)), GatePublish(runId, approval), ViewOf(agentId))
      ensures !ok ==> ViewOf(agentId) == old(ViewOf(agentId))
      ensures forall a | a != agentId :: ViewOf(a) == old(ViewOf(a))
    {
      hide Commits, Guarded, RowsOf, EntriesIn, AnswersIn;
      ChecksShown(ViewOf(agentId), false, GatePublish(runId, approval));
      CommitShown(ViewOf(agentId), GatePublish(runId, approval));
      if agentId in cancellationRequests { return false; }
      RecordApproval(agentId, runId, approval);
      ok := true;
    }

    /** The callback that publishes the approval of a held connection, unless the request was
        dropped meanwhile. */
    method PublishConnection(agentId: Id, runId: Id, approval: Id, aborted: bool) returns (ok: bool)
      requires approval !in approvals
      modifies this`agents, this`approvals
      ensures aborted ==> !ok
      ensures !aborted ==> Guarded(old(ViewOf(agentId)), false, EgressPublish(runId, approval), ok)
      ensures ok ==> Commits(old(ViewOf(agentId)), EgressPublish(runId, approval), ViewOf(agentId))
      ensures !ok ==> ViewOf(agentId) == old(ViewOf(agentId))
      ensures forall a | a != agentId :: ViewOf(a) == old(ViewOf(a))
    {
      hide Commits, Guarded, EntriesIn, AnswersIn, ApprovalsOf;
      ChecksShown(ViewOf(agentId), false, EgressPublish(runId, approval));
      CommitShown(ViewOf(agentId), EgressPublish(runId, approval));
      if agentId !in agents || runId !in runs || runs[runId].agent != agentId || !runs[runId].status.Running? { return false; }
      if agentId in cancellationRequests || aborted { return false; }
      RecordApproval(agentId, runId, approval);
      ok := true;
    }

    // --- Runs ------------------------------------------------------------

    method RecordRun(agentId: Id, runId: Id, status: RunStatus)
      requires runId in runs ==> runs[runId].agent == agentId
      modifies this`runs
      ensures runs == old(runs)[runId := RunRow(agentId, status)]
      ensures forall a :: RowsOf(a) == if a == agentId then old(RowsOf(a)).(runs := old(RowsOf(a)).runs[runId := status])
                                       else old(RowsOf(a))
    {
      runs := runs[runId := RunRow(agentId, status)];
      forall a
        ensures RowsOf(a).runs == if a == agentId then old(RowsOf(a)).runs[runId := status] else old(RowsOf(a)).runs
      {
      }
    }

    /** The admission callback: every refusal of `sendMessage`, or the queued (or blocked) run. */
    method AdmitCallback(agentId: Id, runId: Id, violation: bool, authorityBlocked: bool) returns (ok: bool)
      requires runId !in runs
      modifies this`agents, this`runs
      ensures ok <==> && agentId in old(agents) && !old(agents)[agentId].Stopped? && !authorityBlocked
                      && agentId !in lifecycleMutations && !old(RowsOf(agentId)).ActiveAgent()
                      && agentId !in terminationBarriers
      ensures Guarded(old(ViewOf(agentId)), authorityBlocked, Admit(runId, violation), ok)
      ensures !ok ==> agents == old(agents) && runs == old(runs)
      ensures ok ==> Commits(old(ViewOf(agentId)), Admit(runId, violation), ViewOf(agentId))
      ensures forall a | a != agentId :: ViewOf(a) == old(ViewOf(a))
    {
      hide Commits, Guarded;
      ChecksShown(ViewOf(agentId), authorityBlocked, Admit(runId, violation));
      CommitShown(ViewOf(agentId), Admit(runId, violation));
      if agentId !in agents { return false; }
      if agents[agentId].Stopped? || authorityBlocked { return false; }
      if agentId in lifecycleMutations { return false; }
      if agents[agentId].Active() { return false; }
      if agentId in terminationBarriers { return false; }
      RecordRun(agentId, runId, if violation then Failed else Queued);
      SetStatusIfPresent(agentId, if violation then Ready else Busy);
      ok := true;
    }

    /** The commit that marks a run started. */
    method StartRun(agentId: Id, runId: Id)
      requires runId in runs ==> runs[runId].agent == agentId
      modifies this`runs
      ensures Commits(old(ViewOf(agentId)), RunStart(runId), ViewOf(agentId))
      ensures forall a | a != agentId :: ViewOf(a) == old(ViewOf(a))
    {
      hide Commits, EntriesIn, AnswersIn, ApprovalsOf;
      CommitShown(ViewOf(agentId), RunStart(runId));
      if runId in runs {
        RecordRun(agentId, runId, Running);
      }
    }

    /** The commit at the end of a run that succeeded. */
    method CompleteRun(agentId: Id, runId: Id)
      requires runId in runs ==> runs[runId].agent == agentId
      modifies this`agents, this`runs
      ensures RowsOf(agentId) == EndRun(old(RowsOf(agentId)), runId, Success)
      ensures Commits(old(ViewOf(agentId)), RunEnd(runId, Success), ViewOf(agentId))
      ensures forall a | a != agentId :: ViewOf(a) == old(ViewOf(a))
    {
      hide Commits, EntriesIn, AnswersIn, ApprovalsOf;
      CommitShown(ViewOf(agentId), RunEnd(runId, Success));
      if runId !in runs || agentId !in agents { return; }
      RecordRun(agentId, runId, Completed);
      SetStatusIfPresent(agentId, Ready);
    }

    method RecordFailure(agentId: Id, runId: Id, outcome: Outcome)
      requires !outcome.Success? && (runId in runs ==> runs[runId].agent == agentId)
      modifies this`agents, this`runs
      ensures RowsOf(agentId) == EndRun(old(RowsOf(agentId)), runId, outcome)
      ensures forall a | a != agentId :: RowsOf(a) == old(RowsOf(a))
    {
      hide ApprovalsOf;
      if runId in runs {
        RecordRun(agentId, runId, if outcome.CancelledRun? then Cancelled else Failed);
      }
      if agentId in agents && !agents[agentId].Stopped? {
        SetStatusIfPresent(agentId, match outcome
                                    case CancelledRun => Ready
                                    case Denial => Ready
                                    case Violation => Stopped
                                    case _ => Error);
      }
    }

    /** The commit at the end of any other run. */
    method FailRun(agentId: Id, runId: Id, outcome: Outcome)
      requires !outcome.Success? && (runId in runs ==> runs[runId].agent == agentId)
      modifies this`agents, this`runs
      ensures RowsOf(agentId) == EndRun(old(RowsOf(agentId)), runId, outcome)
      ensures Commits(old(ViewOf(agentId)), RunEnd(runId, outcome), ViewOf(agentId))
      ensures forall a | a != agentId :: ViewOf(a) == old(ViewOf(a))
    {
      hide Commits, RowsOf, EndRun, EntriesIn, AnswersIn;
      RecordFailure(agentId, runId, outcome);
      CommitShown(old(ViewOf(agentId)), RunEnd(runId, outcome));
    }

    /** `sendMessage` hands an admitted run to its execution. */
    method Register(agentId: Id, runId: Id)
      modifies this`activeExecutions
      ensures Continues(old(ViewOf(agentId)), Admit(runId, false), ViewOf(agentId))
      ensures forall a | a != agentId :: ViewOf(a) == old(ViewOf(a))
    {
      hide Continues;
      ContinueShown(ViewOf(agentId), Admit(runId, false));
      activeExecutions := activeExecutions[agentId := runId];
    }

    /** The execution's promise settles: it unregisters itself, unless a later one replaced it. */
    method Unregister(agentId: Id, runId: Id)
      modifies this`activeExecutions
      ensures forall outcome :: Continues(old(ViewOf(agentId)), RunEnd(runId, outcome), ViewOf(agentId))
      ensures forall a | a != agentId :: ViewOf(a) == old(ViewOf(a))
    {
      hide Continues;
      if agentId in activeExecutions && activeExecutions[agentId] == runId {
        activeExecutions := activeExecutions - {agentId};
      }
      forall outcome
        ensures Continues(old(ViewOf(agentId)), RunEnd(runId, outcome), ViewOf(agentId))
      {
        ContinueShown(old(ViewOf(agentId)), RunEnd(runId, outcome));
      }
    }

    // --- Start, stop and termination -------------------------------------

    /** The callback of `setStatus`, for a start or for the end of a stop. */
    method SetStatus(agentId: Id, status: Status, ghost op: Op) returns (ok: bool)
      requires (status.Ready? && op.SetReady?) || (status.Stopped? && op.Final? && op.kind.Stop?)
      modifies this`agents
      ensures Guarded(old(ViewOf(agentId)), false, op, ok)
      ensures ok ==> Commits(old(ViewOf(agentId)), op, ViewOf(agentId))
      ensures !ok ==> agents == old(agents)
      ensures forall a | a != agentId :: ViewOf(a) == old(ViewOf(a))
    {
      hide Commits, Guarded;
      ChecksShown(ViewOf(agentId), false, op);
      CommitShown(ViewOf(agentId), op);
      if agentId !in agents { return false; }
      if status.Ready? && agentId in terminationsInProgress { return false; }
      if status.Ready? && (agents[agentId].Active() || agentId in lifecycleMutations) { return false; }
      SetStatusIfPresent(agentId, status);
      ok := true;
    }

    /** What `startAgent` does once its commit is back: the last check, then the barrier falls. */
    method FinishStart(agentId: Id) returns (ok: bool)
      modifies this`terminationBarriers
      ensures ok <==> !old(ViewOf(agentId)).terminating
      ensures Continues(old(ViewOf(agentId)), SetReady, ViewOf(agentId))
      ensures forall a | a != agentId :: ViewOf(a) == old(ViewOf(a))
    {
      hide Continues;
      ContinueShown(ViewOf(agentId), SetReady);
      if agentId in terminationsInProgress { return false; }
      terminationBarriers := terminationBarriers - {agentId};
      ok := true;
    }

    method BeginTermination(agentId: Id) returns (ok: bool)
      modifies this`terminationsInProgress, this`terminationBarriers
      ensures forall s | Shown(s) == old(ViewOf(agentId)) && s.rows.agent.Some? :: ok <==> Enabled(s, TermStarts)
      ensures ok ==> Follows(old(ViewOf(agentId)), TermStarts, ViewOf(agentId))
      ensures !ok ==> ViewOf(agentId) == old(ViewOf(agentId))
      ensures forall a | a != agentId :: ViewOf(a) == old(ViewOf(a))
    {
      hide Follows;
      TermStartsFollows(ViewOf(agentId));
      if agentId in terminationsInProgress { return false; }
      terminationsInProgress := terminationsInProgress + {agentId};
      terminationBarriers := terminationBarriers + {agentId};
      ok := true;
    }

    /** The first thing `freezeAgent` does. */
    method InstallBarrier(agentId: Id)
      modifies this`terminationBarriers
      ensures forall ok :: Follows(old(ViewOf(agentId)), FreezeSettles(ok), ViewOf(agentId))
      ensures forall a | a != agentId :: ViewOf(a) == old(ViewOf(a))
    {
      hide Follows;
      terminationBarriers := terminationBarriers + {agentId};
      FreezeFollows(old(ViewOf(agentId)), true);
      FreezeFollows(old(ViewOf(agentId)), false);
    }

    method EndTermination(agentId: Id)
      modifies this`terminationsInProgress
      ensures forall contained :: Continues(old(ViewOf(agentId)), Persist(contained), ViewOf(agentId))
      ensures forall a | a != agentId :: ViewOf(a) == old(ViewOf(a))
    {
      hide Continues;
      terminationsInProgress := terminationsInProgress - {agentId};
      ContinueShown(old(ViewOf(agentId)), Persist(true));
      ContinueShown(old(ViewOf(agentId)), Persist(false));
    }

    /** The guard of `stopAgent` and `deleteAgent`, up to the request for cancellation. */
    method BeginStop(agentId: Id) returns (ok: bool)
      modifies this`lifecycleMutations, this`cancellationRequests
      ensures forall s, thread, kind: StopKind | Shown(s) == old(ViewOf(agentId)) && thread !in s.stops && (kind.Stop? || kind.Delete?) ::
                ok <==> Enabled(s, StopStarts(thread, kind))
      ensures ok ==> forall thread, kind :: Follows(old(ViewOf(agentId)), StopStarts(thread, kind), ViewOf(agentId))
      ensures !ok ==> ViewOf(agentId) == old(ViewOf(agentId))
      ensures forall a | a != agentId :: ViewOf(a) == old(ViewOf(a))
    {
      hide Follows;
      if agentId !in agents || agentId in lifecycleMutations { return false; }
      lifecycleMutations := lifecycleMutations + {agentId};
      cancellationRequests := cancellationRequests + {agentId};
      ok := true;
      forall thread, kind
        ensures Follows(old(ViewOf(agentId)), StopStarts(thread, kind), ViewOf(agentId))
      {
        StopFollows(old(ViewOf(agentId)), thread, kind);
      }
    }

    /** A quarantine takes the lifecycle token only if it is free, and asks for cancellation. */
    method BeginQuarantine(agentId: Id) returns (owns: bool)
      modifies this`lifecycleMutations, this`cancellationRequests
      ensures forall thread, kind :: Follows(old(ViewOf(agentId)), StopStarts(thread, kind), ViewOf(agentId))
      ensures forall s, thread, kind: StopKind | Shown(s) == old(ViewOf(agentId)) && Enabled(s, StopStarts(thread, kind)) ::
                Step(s, StopStarts(thread, kind)).stops[thread].owns == owns
      ensures forall a | a != agentId :: ViewOf(a) == old(ViewOf(a))
    {
      hide Follows;
      owns := agentId !in lifecycleMutations;
      if owns {
        lifecycleMutations := lifecycleMutations + {agentId};
      }
      cancellationRequests := cancellationRequests + {agentId};
      forall thread, kind
        ensures Follows(old(ViewOf(agentId)), StopStarts(thread, kind), ViewOf(agentId))
      {
        StopFollows(old(ViewOf(agentId)), thread, kind);
      }
    }

    /** The end of `cancelExecution`, then that of the call it served, which gives the token back
        if it had taken it. */
    method WithdrawCancellation(agentId: Id, cancelled: bool, owns: bool)
      modifies this`cancellationRequests, this`lifecycleMutations
      ensures forall s, thread | Shown(s) == old(ViewOf(agentId)) && Enabled(s, ExecutionSettles(thread))
                                 && s.stops[thread].pc.cancelled == cancelled && s.stops[thread].owns == owns ::
                Shown(Step(s, ExecutionSettles(thread))) == ViewOf(agentId)
      ensures forall a | a != agentId :: ViewOf(a) == old(ViewOf(a))
    {
      hide Step, Enabled, RowsOf, EntriesIn, AnswersIn;
      cancellationRequests := cancellationRequests - {agentId};
      if !cancelled && owns {
        lifecycleMutations := lifecycleMutations - {agentId};
      }
      forall s, thread | Shown(s) == old(ViewOf(agentId)) && Enabled(s, ExecutionSettles(thread))
        ensures thread in s.stops && s.stops[thread].pc.AwaitingRun?
        ensures s.stops[thread].pc.cancelled == cancelled && s.stops[thread].owns == owns ==>
                  Shown(Step(s, ExecutionSettles(thread))) == ViewOf(agentId)
      {
        SettledShown(s, thread);
      }
    }

    /** The commit at the end of a quarantine or a kill, which asks for nothing. */
    method StopQuarantined(agentId: Id)
      modifies this`agents
      ensures forall thread :: Commits(old(ViewOf(agentId)), Final(thread, Quarantine), ViewOf(agentId))
      ensures forall thread :: Commits(old(ViewOf(agentId)), Final(thread, Kill), ViewOf(agentId))
      ensures forall a | a != agentId :: ViewOf(a) == old(ViewOf(a))
    {
      hide Commits, EntriesIn, AnswersIn, RowsOf;
      SetStatusIfPresent(agentId, Stopped);
      forall thread
        ensures Commits(old(ViewOf(agentId)), Final(thread, Quarantine), ViewOf(agentId))
        ensures Commits(old(ViewOf(agentId)), Final(thread, Kill), ViewOf(agentId))
      {
        CommitShown(old(ViewOf(agentId)), Final(thread, Quarantine));
        CommitShown(old(ViewOf(agentId)), Final(thread, Kill));
      }
    }

    /** The commit of `deleteAgent`: every row of the agent goes. */
    method DeleteRows(agentId: Id)
      modifies this`agents, this`runs, this`approvals
      ensures forall thread :: Commits(old(ViewOf(agentId)), Final(thread, Delete), ViewOf(agentId))
      ensures forall a | a != agentId :: ViewOf(a) == old(ViewOf(a))
    {
      hide Commits, EntriesIn, AnswersIn;
      agents := agents - {agentId};
      runs := map r | r in runs && runs[r].agent != agentId :: runs[r];
      approvals := map id | id in approvals && approvals[id].agent != agentId :: approvals[id];
      assert RunsOf(runs, agentId) == map[] && ApprovalsOf(approvals, agentId) == map[];
      forall a | a != agentId
        ensures RunsOf(runs, a) == RunsOf(old(runs), a) && ApprovalsOf(approvals, a) == ApprovalsOf(old(approvals), a)
      {
      }
      forall thread
        ensures Commits(old(ViewOf(agentId)), Final(thread, Delete), ViewOf(agentId))
      {
        CommitShown(old(ViewOf(agentId)), Final(thread, Delete));
      }
    }

    /** The finally block of a stop, deletion or quarantine. */
    method ReleaseToken(agentId: Id, owns: bool)
      modifies this`lifecycleMutations
      ensures forall s, thread, ok | Shown(s) == old(ViewOf(agentId)) && thread in s.stops && s.stops[thread].owns == owns ::
                Shown(s.Release(thread, ok)) == ViewOf(agentId)
      ensures forall a | a != agentId :: ViewOf(a) == old(ViewOf(a))
    {
      if owns {
        lifecycleMutations := lifecycleMutations - {agentId};
      }
    }
  }
}
