/** Every ledger reachable by issuing, revoking, terminating, restarting and deleting. */
module LedgerRuns {
  import opened Types
  import opened Authority
  import opened RunPolicies
  import opened GrantGraph
  import opened Identity

  /** One store commit that touches principals, accounts, grants or memories. */
  datatype Step =
    | AddAgent(agentId: Id, principalId: Id)
    | Issue(newId: Id, now: Time, request: GrantRequest)
    | Revoke(id: Id, at: Time, actor: Id)
    | Terminate(agentId: Id, at: Time)
    | Start(agentId: Id)
    | Delete(agentId: Id)
    | Remember(memory: Memory)

  function AccountById(accounts: seq<Account>, agentId: Id): (found: Option<Account>)
    ensures found.Some? ==> found.value in accounts && found.value.agentId == agentId
    ensures found.None? <==> !HasAccount(accounts, agentId)
  {
    if accounts == [] then None
    else if accounts[0].agentId == agentId then Some(accounts[0])
    else AccountById(accounts[1..], agentId)
  }

  function DropAccount(accounts: seq<Account>, agentId: Id): (r: seq<Account>)
    ensures forall a :: a in r <==> a in accounts && a.agentId != agentId
  {
    if accounts == [] then []
    else if accounts[0].agentId == agentId then DropAccount(accounts[1..], agentId)
    else [accounts[0]] + DropAccount(accounts[1..], agentId)
  }

  ghost function Apply(l: Ledger, step: Step): Ledger {
    match step
    case AddAgent(agentId, principalId) =>
      l.(principals := l.principals + [Principal(principalId, AgentKind)],
         accounts := l.accounts + [Account(agentId, principalId, false)])
    case Issue(newId, now, request) =>
      var r := GrantFor(l, newId, now, request);
      if r.Ok? then l.(grants := l.grants + [r.value]) else l
    case Revoke(id, at, actor) =>
      if id in IdsOf(l.grants) then l.(grants := Revocation(l.grants, true, id, at, Some(actor))) else l
    case Terminate(agentId, at) =>
      var account := AccountById(l.accounts, agentId);
      if account.Some? then RevokedAndBlocked(l, agentId, account.value.principalId, at) else l
    case Start(agentId) =>
      l.(accounts := BlockAccount(l.accounts, agentId, false))
    case Delete(agentId) =>
      l.(accounts := DropAccount(l.accounts, agentId))
    case Remember(memory) =>
      l.(memories := l.memories + [memory])
  }

  /** Generated identifiers are fresh. */
  ghost predicate Fresh(l: Ledger, step: Step) {
    match step
    case AddAgent(agentId, principalId) =>
      && !HasAccount(l.accounts, agentId)
      && (forall p | p in l.principals :: p.id != principalId)
      && (forall a | a in l.accounts :: a.principalId != principalId)
    case Issue(newId, _, _) => newId !in IdsOf(l.grants)
    case Remember(memory) => forall m | m in l.memories :: m.id != memory.id
    case _ => true
  }

  /** `trace` lists the ledgers before, between and after the steps. */
  ghost predicate IsRun(trace: seq<Ledger>, steps: seq<Step>) {
    && |trace| == |steps| + 1
    && forall i | 0 <= i < |steps| :: Fresh(trace[i], steps[i]) && trace[i + 1] == Apply(trace[i], steps[i])
  }

  // --- The invariant -----------------------------------------------------

  ghost predicate IsHuman(ps: seq<Principal>, id: Id) {
    exists p | p in ps :: p.id == id && p.kind.Human?
  }

  /** `gs[j]` is the grant that `gs[i]` was carved from. */
  ghost predicate CarvedFrom(gs: seq<Grant>, i: nat, j: nat)
    requires i < |gs| && j < |gs|
  {
    && gs[i].parent == Some(gs[j].id)
    && LinkedTo(gs[i], gs[j])
    && (gs[j].revokedAt.Some? ==> gs[i].revokedAt.Some?)
  }

  ghost predicate Forest(gs: seq<Grant>) {
    forall i | 0 <= i < |gs| :: gs[i].parent.Some? ==> exists j | 0 <= j < i :: CarvedFrom(gs, i, j)
  }

  ghost predicate RootsAreHuman(l: Ledger) {
    forall g | g in l.grants && g.parent.None? :: IsHuman(l.principals, g.grantedBy)
  }

  ghost predicate ConcreteTargets(gs: seq<Grant>) {
    forall g | g in gs :: '*' !in g.shape.target
  }

  ghost predicate DistinctAccounts(accounts: seq<Account>) {
    forall i, j | 0 <= i < j < |accounts| ::
      accounts[i].agentId != accounts[j].agentId && accounts[i].principalId != accounts[j].principalId
  }

  ghost predicate NoUnrevoked(gs: seq<Grant>, principal: Id) {
    forall g | g in gs && g.principalId == principal :: g.revokedAt.Some?
  }

  ghost predicate BlockedHoldNothing(l: Ledger) {
    forall a | a in l.accounts && a.blocked :: NoUnrevoked(l.grants, a.principalId)
  }

  ghost predicate WellFormed(l: Ledger) {
    && UniqueIds(l.grants)
    && Forest(l.grants)
    && RootsAreHuman(l)
    && ConcreteTargets(l.grants)
    && DistinctAccounts(l.accounts)
    && BlockedHoldNothing(l)
  }

  /** Grants are never removed, reordered or rewritten; only a missing stamp is added. */
  ghost predicate Evolves(gs: seq<Grant>, hs: seq<Grant>) {
    && |gs| <= |hs|
    && forall i | 0 <= i < |gs| ::
         && hs[i] == gs[i].(revokedAt := hs[i].revokedAt, revokedBy := hs[i].revokedBy)
         && (gs[i].revokedAt.Some? ==> hs[i] == gs[i])
  }

  // --- Facts about the local forest --------------------------------------

  lemma ForestClosesDownward(gs: seq<Grant>)
    requires UniqueIds(gs) && Forest(gs)
    ensures RevokedDownward(gs)
  {
    forall i, j | 0 <= i < |gs| && 0 <= j < |gs| && gs[i].parent == Some(gs[j].id) && gs[j].revokedAt.Some?
      ensures gs[i].revokedAt.Some?
    {
      var k :| 0 <= k < i && CarvedFrom(gs, i, k);
      assert k == j;
    }
  }

  lemma {:induction false} FindGrantAt(gs: seq<Grant>, i: nat)
    requires UniqueIds(gs) && i < |gs|
    ensures FindGrant(gs, gs[i].id) == Some(gs[i])
  {
    if i > 0 {
      assert gs[0].id != gs[i].id;
      FindGrantAt(gs[1..], i - 1);
    }
  }

  /** Below index `i` the walk only meets smaller indices, so a visiting set of larger ones
      never stops it, and each ancestor is live whenever its descendant is. */
  lemma {:induction false} WalkIsLocal(gs: seq<Grant>, i: nat, now: Time, visiting: set<Id>)
    requires UniqueIds(gs) && Forest(gs) && i < |gs|
    requires forall k | 0 <= k <= i :: gs[k].id !in visiting
    ensures IsGrantChainLive(gs[i], gs, now, visiting) <==> gs[i].LocallyLive(now)
    decreases i
  {
    if gs[i].LocallyLive(now) && gs[i].parent.Some? {
      var j :| 0 <= j < i && CarvedFrom(gs, i, j);
      FindGrantAt(gs, j);
      WalkIsLocal(gs, j, now, visiting + {gs[i].id});
      assert gs[j].LocallyLive(now);
    }
  }

  /** The recursive chain walk agrees with the local test in every well-formed ledger. */
  lemma ChainWalkIsLocalTest(l: Ledger, g: Grant, now: Time)
    requires WellFormed(l) && g in l.grants
    ensures IsGrantChainLive(g, l.grants, now) <==> g.LocallyLive(now)
  {
    var i :| 0 <= i < |l.grants| && l.grants[i] == g;
    WalkIsLocal(l.grants, i, now, {});
  }

  /** A refusal that names revocation or expiry names what actually happened. */
  lemma DenialRulesTellTheTruth(l: Ledger, principal: Id, scope: Scope, target: string, now: Time)
    requires WellFormed(l)
    ensures var (grant, rule) := ActiveGrant(l.grants, principal, scope, target, now);
            var matching := Matching(l.grants, principal, scope, target);
            && (grant.Some? <==> exists g :: g in matching && g.LocallyLive(now))
            && (grant.Some? ==> grant.value in matching && grant.value.LocallyLive(now))
            && (rule == Revoked013 <==> matching != [] && forall g | g in matching :: g.revokedAt.Some?)
            && (rule == Expired012 <==> && (exists g :: g in matching && g.Unrevoked())
                                        && (forall g | g in matching && g.Unrevoked() :: g.Expired(now)))
  {
    var matching := Matching(l.grants, principal, scope, target);
    forall g | g in matching
      ensures IsGrantChainLive(g, l.grants, now) <==> g.LocallyLive(now)
    {
      ChainWalkIsLocalTest(l, g, now);
    }
    if matching != [] {
      assert matching[0] in matching;
    }
  }

  /** A resource is readable exactly when it belongs to the owner of the agent and some grant
      for it is neither revoked nor expired. */
  lemma ResourceNeedsOwnerAndLiveGrant(l: Ledger, principal: Id, owner: Id, resource: MockResource, now: Time)
    requires WellFormed(l)
    ensures var d := EvaluateResourceAccess(principal, owner, resource, l.grants, now);
            && (d.allowed <==> && resource.ownerId == owner
                               && exists g :: && g in l.grants && Matches(g, principal, ResourceRead, resource.id)
                                              && g.LocallyLive(now))
            && (d.rule == Owner010 <==> resource.ownerId != owner)
  {
    DenialRulesTellTheTruth(l, principal, ResourceRead, resource.id, now);
    var matching := Matching(l.grants, principal, ResourceRead, resource.id);
    assert forall g :: g in matching <==> g in l.grants && Matches(g, principal, ResourceRead, resource.id);
  }

  /** In an ill-formed ledger the expiry rule can lie: the child never expires, but its
      parent was revoked without it. */
  lemma DenialRuleCanLie()
    ensures exists gs: seq<Grant>, now: Time ::
              && UniqueIds(gs)
              && EvaluateEgress(12, "example.com", gs, now).rule == Expired012
              && (forall g | g in Matching(gs, 12, NetworkEgress, "example.com") :: g.LocallyLive(now))
  {
    var s := Shape(NetworkEgress, "example.com", None);
    var parent := Grant(0, 11, 1, s, 0, Some(5), None, None);
    var child := Grant(1, 12, 11, s, 0, None, None, Some(0));
    var gs := [parent, child];
    assert gs[1..] == [child] && gs[1..][1..] == [];
    assert Matching(gs[1..], 12, NetworkEgress, "example.com") == [child];
    assert Matching(gs, 12, NetworkEgress, "example.com") == [child];
    assert FindGrant(gs, 0) == Some(parent);
    assert !IsGrantChainLive(parent, gs, 9, {} + {child.id});
    assert !IsGrantChainLive(child, gs, 9);
    assert FirstLive([child], gs, 9) == None;
    assert EvaluateEgress(12, "example.com", gs, 9).rule == Expired012;
  }

  /** End to end: a live grant hangs from a parentless one issued by a human, and no grant on
      the way is narrower than it in scope, target or lifetime. */
  lemma AuthorityComesFromAHuman(l: Ledger, g: Grant, now: Time) returns (chain: seq<Grant>)
    requires WellFormed(l) && g in l.grants && IsGrantChainLive(g, l.grants, now)
    ensures LiveChain(chain, l.grants, now) && chain[0] == g
    ensures forall i | 0 <= i < |chain| :: chain[i] in l.grants && IsNarrowerThan(g.shape, chain[i].shape)
    ensures IsHuman(l.principals, chain[|chain| - 1].grantedBy)
    ensures forall use | Confers(g.shape, use) :: Confers(chain[|chain| - 1].shape, use)
  {
    chain := LiveVerdictHasChain(g, l.grants, now, {});
    NarrowerIsInclusion(g.shape, chain[|chain| - 1].shape);
  }

  // --- Every step keeps the invariant ------------------------------------

  lemma EvolvesTransitive(a: seq<Grant>, b: seq<Grant>, c: seq<Grant>)
    requires Evolves(a, b) && Evolves(b, c)
    ensures Evolves(a, c)
  {
  }

  /** What an accepted request guarantees about the grant it adds. */
  lemma IssuedGrant(l: Ledger, newId: Id, now: Time, request: GrantRequest)
    requires GrantFor(l, newId, now, request).Ok?
    ensures var g := GrantFor(l, newId, now, request).value;
            && g.id == newId && g.Unrevoked() && '*' !in g.shape.target
            && (g.parent.None? ==> IsHuman(l.principals, g.grantedBy))
            && (g.parent.Some? ==> exists p :: p in l.grants && g.parent == Some(p.id) && LinkedTo(g, p) && p.Unrevoked())
            && (var account := AccountOf(l.accounts, g.principalId); account.Some? ==> !account.value.blocked)
  {
    var actor := FindPrincipal(l.principals, request.grantedBy).value;
    if actor.kind.Human? {
      assert IsHuman(l.principals, request.grantedBy);
    } else {
      var held := HeldBy(l.grants, request.grantedBy, now);
      var shape := RequestedShape(now, request);
      var d := AuthorizeGrantRequest(actor.kind, request.grantedBy, shape, request.principalId, held);
      var p :| p in held && p.id == d.parent.value && IsNarrowerThan(shape, p.shape);
      assert p.Unrevoked();
    }
  }

  lemma PushKeepsForest(gs: seq<Grant>, g: Grant)
    requires UniqueIds(gs) && Forest(gs) && g.id !in IdsOf(gs)
    requires g.parent.Some? ==> exists p :: p in gs && g.parent == Some(p.id) && LinkedTo(g, p) && p.Unrevoked()
    ensures UniqueIds(gs + [g]) && Forest(gs + [g])
  {
    var hs := gs + [g];
    forall i, j | 0 <= i < j < |hs|
      ensures hs[i].id != hs[j].id
    {
      assert gs[i] in gs;
    }
    forall i | 0 <= i < |hs| && hs[i].parent.Some?
      ensures exists j | 0 <= j < i :: CarvedFrom(hs, i, j)
    {
      if i < |gs| {
        var j :| 0 <= j < i && CarvedFrom(gs, i, j);
        assert CarvedFrom(hs, i, j);
      } else {
        var p :| p in gs && g.parent == Some(p.id) && LinkedTo(g, p) && p.Unrevoked();
        var j :| 0 <= j < |gs| && gs[j] == p;
        assert CarvedFrom(hs, i, j);
      }
    }
  }

  lemma IssueKeeps(l: Ledger, newId: Id, now: Time, request: GrantRequest)
    requires WellFormed(l) && newId !in IdsOf(l.grants)
    ensures WellFormed(Apply(l, Issue(newId, now, request)))
    ensures Evolves(l.grants, Apply(l, Issue(newId, now, request)).grants)
  {
    if GrantFor(l, newId, now, request).Ok? {
      IssuedGrant(l, newId, now, request);
      var g := GrantFor(l, newId, now, request).value;
      PushKeepsForest(l.grants, g);
      forall a | a in l.accounts && a.blocked
        ensures NoUnrevoked(l.grants + [g], a.principalId)
      {
        AccountOfDistinct(l.accounts, a);
        assert NoUnrevoked(l.grants, a.principalId);
      }
    }
  }

  lemma {:induction false} AccountOfDistinct(accounts: seq<Account>, a: Account)
    requires DistinctAccounts(accounts) && a in accounts
    ensures AccountOf(accounts, a.principalId) == Some(a)
  {
    if accounts[0] != a {
      var i :| 0 < i < |accounts| && accounts[i] == a;
      assert accounts[1..][i - 1] == a;
      AccountOfDistinct(accounts[1..], a);
    }
  }

  /** Any stamping that is closed downward keeps the forest. */
  lemma StampingKeepsForest(gs: seq<Grant>, hs: seq<Grant>, at: Time, actor: Option<Id>)
    requires UniqueIds(gs) && Forest(gs) && |gs| == |hs|
    requires forall i | 0 <= i < |gs| :: hs[i] == gs[i] || hs[i] == Stamp(gs[i], at, actor)
    requires forall i, j | 0 <= i < |gs| && 0 <= j < |gs| && gs[i].parent == Some(gs[j].id) && hs[j].revokedAt.Some? ::
               hs[i].revokedAt.Some?
    ensures UniqueIds(hs) && Forest(hs) && Evolves(gs, hs)
  {
    forall i | 0 <= i < |hs| && hs[i].parent.Some?
      ensures exists j | 0 <= j < i :: CarvedFrom(hs, i, j)
    {
      var j :| 0 <= j < i && CarvedFrom(gs, i, j);
      assert CarvedFrom(hs, i, j);
    }
  }

  lemma StampedKeepsRest(l: Ledger, hs: seq<Grant>)
    requires WellFormed(l) && |hs| == |l.grants| && Evolves(l.grants, hs)
    ensures RootsAreHuman(l.(grants := hs)) && ConcreteTargets(hs)
    ensures BlockedHoldNothing(l.(grants := hs))
    ensures forall p | NoUnrevoked(l.grants, p) :: NoUnrevoked(hs, p)
  {
    forall h | h in hs
      ensures exists g :: && g in l.grants && h == g.(revokedAt := h.revokedAt, revokedBy := h.revokedBy)
                          && (g.revokedAt.Some? ==> h == g)
    {
      var i :| 0 <= i < |hs| && hs[i] == h;
      assert l.grants[i] in l.grants;
    }
  }

  lemma RevokeKeeps(l: Ledger, id: Id, at: Time, actor: Id)
    requires WellFormed(l)
    ensures WellFormed(Apply(l, Revoke(id, at, actor)))
    ensures Evolves(l.grants, Apply(l, Revoke(id, at, actor)).grants)
  {
    if id in IdsOf(l.grants) {
      var gs := l.grants;
      var hs := Revocation(gs, true, id, at, Some(actor));
      ForestClosesDownward(gs);
      forall i, j | 0 <= i < |gs| && 0 <= j < |gs| && gs[i].parent == Some(gs[j].id) && hs[j].revokedAt.Some?
        ensures hs[i].revokedAt.Some?
      {
        if gs[i].Unrevoked() && gs[j].Unrevoked() {
          assert ChildOf(gs, true, gs[j].id, gs[i].id);
          ChildDescends(gs, true, id, gs[j].id, gs[i].id);
        }
      }
      StampingKeepsForest(gs, hs, at, Some(actor));
      StampedKeepsRest(l, hs);
    }
  }

  lemma TerminateKeeps(l: Ledger, agentId: Id, at: Time)
    requires WellFormed(l)
    ensures WellFormed(Apply(l, Terminate(agentId, at)))
    ensures Evolves(l.grants, Apply(l, Terminate(agentId, at)).grants)
  {
    var account := AccountById(l.accounts, agentId);
    if account.Some? {
      var principal := account.value.principalId;
      var gs := l.grants;
      var roots := RootsOf(gs, principal);
      var hs := MassRevocation(gs, roots, at);
      ForestClosesDownward(gs);
      forall i, j | 0 <= i < |gs| && 0 <= j < |gs| && gs[i].parent == Some(gs[j].id) && hs[j].revokedAt.Some?
        ensures hs[i].revokedAt.Some?
      {
        if gs[i].Unrevoked() && gs[j].Unrevoked() {
          var root :| root in roots && Descends(gs, false, root, gs[j].id);
          assert ChildOf(gs, false, gs[j].id, gs[i].id);
          ChildDescends(gs, false, root, gs[j].id, gs[i].id);
        }
      }
      StampingKeepsForest(gs, hs, at, None);
      StampedKeepsRest(l, hs);
      forall i | 0 <= i < |hs| && hs[i].principalId == principal
        ensures hs[i].revokedAt.Some?
      {
        if gs[i].Unrevoked() {
          assert gs[i] in gs;
          RootDescends(gs, false, gs[i].id);
        }
      }
      BlockedAccounts(l.accounts, agentId, true);
      AccountByIdDistinct(l.accounts, account.value);
    }
  }

  lemma {:induction false} BlockedAt(accounts: seq<Account>, agentId: Id, blocked: bool, i: nat)
    requires DistinctAccounts(accounts) && i < |accounts|
    ensures BlockAccount(accounts, agentId, blocked)[i] ==
            if accounts[i].agentId == agentId then accounts[i].(blocked := blocked) else accounts[i]
  {
    if accounts[0].agentId != agentId && i > 0 {
      BlockedAt(accounts[1..], agentId, blocked, i - 1);
    }
  }

  /** Blocking changes the one account and nothing else. */
  lemma BlockedAccounts(accounts: seq<Account>, agentId: Id, blocked: bool)
    requires DistinctAccounts(accounts)
    ensures DistinctAccounts(BlockAccount(accounts, agentId, blocked))
    ensures forall a :: a in BlockAccount(accounts, agentId, blocked) <==>
              || (a in accounts && a.agentId != agentId)
              || (exists b :: b in accounts && b.agentId == agentId && a == b.(blocked := blocked))
  {
    var after := BlockAccount(accounts, agentId, blocked);
    forall i | 0 <= i < |accounts|
      ensures after[i] == if accounts[i].agentId == agentId then accounts[i].(blocked := blocked) else accounts[i]
    {
      BlockedAt(accounts, agentId, blocked, i);
    }
    forall a | a in accounts
      ensures (if a.agentId == agentId then a.(blocked := blocked) else a) in after
    {
      var i :| 0 <= i < |accounts| && accounts[i] == a;
      assert after[i] in after;
    }
    forall a | a in after
      ensures (a in accounts && a.agentId != agentId) || exists b :: b in accounts && b.agentId == agentId && a == b.(blocked := blocked)
    {
      var i :| 0 <= i < |accounts| && after[i] == a;
      assert accounts[i] in accounts;
    }
  }

  lemma AccountByIdDistinct(accounts: seq<Account>, a: Account)
    requires DistinctAccounts(accounts) && a in accounts
    ensures forall b | b in accounts && b.agentId == a.agentId :: b == a
  {
  }

  lemma {:induction false} DropKeepsDistinct(accounts: seq<Account>, agentId: Id)
    requires DistinctAccounts(accounts)
    ensures DistinctAccounts(DropAccount(accounts, agentId))
  {
    if accounts != [] {
      DropKeepsDistinct(accounts[1..], agentId);
      assert forall a | a in accounts[1..] :: a.agentId != accounts[0].agentId && a.principalId != accounts[0].principalId;
    }
  }

  lemma StepKeeps(l: Ledger, step: Step)
    requires WellFormed(l) && Fresh(l, step)
    ensures WellFormed(Apply(l, step))
    ensures Evolves(l.grants, Apply(l, step).grants)
  {
    match step
    case AddAgent(agentId, principalId) =>
      var l' := Apply(l, step);
      forall i, j | 0 <= i < j < |l'.accounts|
        ensures l'.accounts[i].agentId != l'.accounts[j].agentId && l'.accounts[i].principalId != l'.accounts[j].principalId
      {
        assert i < |l.accounts| ==> l.accounts[i] in l.accounts;
      }
    case Issue(newId, now, request) => IssueKeeps(l, newId, now, request);
    case Revoke(id, at, actor) => RevokeKeeps(l, id, at, actor);
    case Terminate(agentId, at) => TerminateKeeps(l, agentId, at);
    case Start(agentId) => BlockedAccounts(l.accounts, agentId, false);
    case Delete(agentId) => DropKeepsDistinct(l.accounts, agentId);
    case Remember(_) =>
  }

  // --- Facts about whole runs --------------------------------------------

  /** Every ledger of every run is well formed, and the grant list only evolves. */
  lemma {:induction false} RunKeeps(trace: seq<Ledger>, steps: seq<Step>, i: nat, j: nat)
    requires IsRun(trace, steps) && WellFormed(trace[0])
    requires i <= j < |trace|
    ensures WellFormed(trace[i]) && WellFormed(trace[j]) && Evolves(trace[i].grants, trace[j].grants)
    decreases j
  {
    hide Apply, Fresh, WellFormed;
    if j > 0 {
      if i == j {
        RunKeeps(trace, steps, i - 1, j - 1);
        StepKeeps(trace[j - 1], steps[j - 1]);
      } else {
        RunKeeps(trace, steps, i, j - 1);
        StepKeeps(trace[j - 1], steps[j - 1]);
        EvolvesTransitive(trace[i].grants, trace[j - 1].grants, trace[j].grants);
      }
    }
  }

  /** No two memories ever share an id, so the ids a revoke step quarantines are distinct. */
  lemma {:induction false} MemoriesStayDistinct(trace: seq<Ledger>, steps: seq<Step>, i: nat, agentId: Id)
    requires IsRun(trace, steps) && DistinctMemories(trace[0].memories) && i < |trace|
    ensures DistinctMemories(trace[i].memories) && NoDuplicates(InCirculation(trace[i].memories, agentId))
  {
    hide InCirculation;
    if i > 0 {
      MemoriesStayDistinct(trace, steps, i - 1, agentId);
      MemoriesMove(trace[i - 1], steps[i - 1]);
    }
    InCirculationDistinct(trace[i].memories, agentId);
  }

  lemma MemoriesMove(l: Ledger, step: Step)
    requires DistinctMemories(l.memories) && Fresh(l, step)
    ensures DistinctMemories(Apply(l, step).memories)
  {
    if step.Remember? {
      assert forall i | 0 <= i < |l.memories| :: l.memories[i] in l.memories;
    }
  }

  lemma EmptyLedgerWellFormed(principals: seq<Principal>, memories: seq<Memory>)
    ensures WellFormed(Ledger(principals, [], [], memories))
  {
  }

  /** Liveness only falls: once a grant is not live it is never live again, whatever is issued,
      revoked or restarted meanwhile, at that or any later time. */
  lemma LivenessOnlyFalls(trace: seq<Ledger>, steps: seq<Step>, i: nat, j: nat, g: Grant, h: Grant, now: Time, later: Time)
    requires IsRun(trace, steps) && WellFormed(trace[0])
    requires i <= j < |trace| && now <= later
    requires g in trace[i].grants && h in trace[j].grants && g.id == h.id
    requires !IsGrantChainLive(g, trace[i].grants, now)
    ensures !IsGrantChainLive(h, trace[j].grants, later)
  {
    RunKeeps(trace, steps, i, j);
    ChainWalkIsLocalTest(trace[i], g, now);
    ChainWalkIsLocalTest(trace[j], h, later);
    var m :| 0 <= m < |trace[i].grants| && trace[i].grants[m] == g;
    var n :| 0 <= n < |trace[j].grants| && trace[j].grants[n] == h;
    assert trace[j].grants[m].id == g.id;
    assert m == n;
  }

  /** First stamps are never rewritten, and in every reachable ledger the operator's walk and
      termination's walk from the same grant stamp exactly the same grants. */
  lemma RevocationIsStableAndUniform(trace: seq<Ledger>, steps: seq<Step>, i: nat, j: nat, root: Id, at: Time, actor: Option<Id>)
    requires IsRun(trace, steps) && WellFormed(trace[0]) && i <= j < |trace|
    ensures forall g | g in trace[i].grants && g.revokedAt.Some? :: g in trace[j].grants
    ensures RevokedDownward(trace[i].grants)
    ensures Revocation(trace[i].grants, true, root, at, actor) == Revocation(trace[i].grants, false, root, at, actor)
  {
    RunKeeps(trace, steps, i, j);
    var gs := trace[i].grants;
    forall g | g in gs && g.revokedAt.Some?
      ensures g in trace[j].grants
    {
      var m :| 0 <= m < |gs| && gs[m] == g;
      assert trace[j].grants[m] == g;
    }
    ForestClosesDownward(gs);
    forall m | 0 <= m < |gs|
      ensures Revocation(gs, true, root, at, actor)[m] == Revocation(gs, false, root, at, actor)[m]
    {
      if gs[m].Unrevoked() {
        CascadesAgree(gs, root, m);
      }
    }
  }

  /** The agent exists and is barred from receiving authority. */
  ghost predicate Barred(l: Ledger, agentId: Id, principal: Id) {
    Account(agentId, principal, true) in l.accounts
  }

  lemma BarredHoldsNothing(l: Ledger, agentId: Id, principal: Id)
    requires WellFormed(l) && Barred(l, agentId, principal)
    ensures NoUnrevoked(l.grants, principal)
  {
  }

  lemma StepKeepsBarred(l: Ledger, step: Step, agentId: Id, principal: Id)
    requires WellFormed(l) && Fresh(l, step) && Barred(l, agentId, principal)
    requires step != Start(agentId) && step != Delete(agentId)
    ensures Barred(Apply(l, step), agentId, principal)
  {
    match step
    case Terminate(other, _) => BlockedAccounts(l.accounts, other, true);
    case Start(other) => BlockedAccounts(l.accounts, other, false);
    case _ =>
  }

  lemma TerminateBars(l: Ledger, agentId: Id, at: Time)
    requires WellFormed(l) && HasAccount(l.accounts, agentId)
    ensures Barred(Apply(l, Terminate(agentId, at)), agentId, AccountById(l.accounts, agentId).value.principalId)
  {
    BlockBars(l.accounts, agentId);
  }

  lemma BlockBars(accounts: seq<Account>, agentId: Id)
    requires DistinctAccounts(accounts) && HasAccount(accounts, agentId)
    ensures Account(agentId, AccountById(accounts, agentId).value.principalId, true) in BlockAccount(accounts, agentId, true)
  {
    BlockedAccounts(accounts, agentId, true);
    var a := AccountById(accounts, agentId).value;
    assert Account(agentId, a.principalId, true) == a.(blocked := true);
  }

  lemma {:induction false} StaysBarred(trace: seq<Ledger>, steps: seq<Step>, k: nat, j: nat, agentId: Id, principal: Id)
    requires IsRun(trace, steps) && WellFormed(trace[0])
    requires k <= j < |trace| && Barred(trace[k], agentId, principal)
    requires forall m | k <= m < j :: steps[m] != Start(agentId) && steps[m] != Delete(agentId)
    ensures Barred(trace[j], agentId, principal)
    decreases j
  {
    hide Apply, Fresh, WellFormed, Barred;
    if k < j {
      StaysBarred(trace, steps, k, j - 1, agentId, principal);
      RunKeeps(trace, steps, j - 1, j);
      StepKeepsBarred(trace[j - 1], steps[j - 1], agentId, principal);
    }
  }

  /** From termination's revoke commit on, in every later ledger until the agent is started
      or deleted, its principal holds no unrevoked grant. */
  lemma TerminatedHoldsNothing(trace: seq<Ledger>, steps: seq<Step>, k: nat, j: nat, agentId: Id, at: Time)
    requires IsRun(trace, steps) && WellFormed(trace[0])
    requires k < j < |trace| && steps[k] == Terminate(agentId, at) && HasAccount(trace[k].accounts, agentId)
    requires forall m | k < m < j :: steps[m] != Start(agentId) && steps[m] != Delete(agentId)
    ensures NoUnrevoked(trace[j].grants, AccountById(trace[k].accounts, agentId).value.principalId)
  {
    var principal := AccountById(trace[k].accounts, agentId).value.principalId;
    RunKeeps(trace, steps, k, j);
    TerminateBars(trace[k], agentId, at);
    assert trace[k + 1] == Apply(trace[k], steps[k]);
    StaysBarred(trace, steps, k + 1, j, agentId, principal);
    BarredHoldsNothing(trace[j], agentId, principal);
  }
}
