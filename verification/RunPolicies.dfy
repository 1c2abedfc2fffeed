/** The authorisation evaluators (run-policies.ts): is a grant's whole delegation chain
    live, and which rule id explains a refusal. */
module RunPolicies {
  import opened Types
  import opened Authority

  function IdsOf(grants: seq<Grant>): set<Id> {
    set g | g in grants :: g.id
  }

  /** First grant in order carrying the id, as a linear search finds it. */
  function FindGrant(grants: seq<Grant>, id: Id): (found: Option<Grant>)
    ensures found.Some? ==> found.value in grants && found.value.id == id
    ensures found.None? <==> id !in IdsOf(grants)
  {
    if grants == [] then None
    else if grants[0].id == id then Some(grants[0])
    else
      assert IdsOf(grants) == {grants[0].id} + IdsOf(grants[1..]);
      FindGrant(grants[1..], id)
  }

  /** A delegated grant must come from its grantor's own grant and be no broader. */
  predicate LinkedTo(child: Grant, parent: Grant) {
    parent.principalId == child.grantedBy && IsNarrowerThan(child.shape, parent.shape)
  }

  /** Recursive walk up the delegation chain.  Terminates on every list, cyclic and
      dangling ones included, because each hop adds a listed id to `visiting`. */
  predicate IsGrantChainLive(g: Grant, grants: seq<Grant>, now: Time, visiting: set<Id> := {})
    decreases (IdsOf(grants) + {g.id}) - visiting
  {
    if g.id in visiting then false
    else if !g.LocallyLive(now) then false
    else if g.parent.None? then true
    else
      var parent := FindGrant(grants, g.parent.value);
      if parent.None? || !LinkedTo(g, parent.value) then false
      else
        assert parent.value.id in IdsOf(grants);
        assert g.id in (IdsOf(grants) + {g.id}) - visiting;
        IsGrantChainLive(parent.value, grants, now, visiting + {g.id})
  }

  // --- Denial rule ids ---------------------------------------------------

  datatype Rule = Owner010 | Grant011 | Expired012 | Revoked013 | Egress020

  datatype PolicyDecision = PolicyDecision(allowed: bool, rule: Rule, grantId: Option<Id>)

  datatype MockResource = MockResource(id: string, ownerId: Id)

  predicate Matches(g: Grant, principal: Id, scope: Scope, target: string) {
    g.principalId == principal && g.shape.scope == scope && g.shape.target == target
  }

  function Matching(grants: seq<Grant>, principal: Id, scope: Scope, target: string): (m: seq<Grant>)
    ensures forall g :: g in m <==> g in grants && Matches(g, principal, scope, target)
  {
    if grants == [] then []
    else
      var rest := Matching(grants[1..], principal, scope, target);
      if Matches(grants[0], principal, scope, target) then [grants[0]] + rest else rest
  }

  function FirstLive(candidates: seq<Grant>, grants: seq<Grant>, now: Time): (found: Option<Grant>)
    ensures found.Some? ==> found.value in candidates && IsGrantChainLive(found.value, grants, now)
    ensures found.None? <==> forall g | g in candidates :: !IsGrantChainLive(g, grants, now)
  {
    if candidates == [] then None
    else if IsGrantChainLive(candidates[0], grants, now) then Some(candidates[0])
    else FirstLive(candidates[1..], grants, now)
  }

  function ActiveGrant(grants: seq<Grant>, principal: Id, scope: Scope, target: string, now: Time)
    : (r: (Option<Grant>, Rule))
  {
    var noGrant := if scope == NetworkEgress then Egress020 else Grant011;
    var matching := Matching(grants, principal, scope, target);
    if matching == [] then (None, noGrant)
    else
      var live := FirstLive(matching, grants, now);
      if live.Some? then (live, noGrant)
      else if forall g | g in matching :: g.revokedAt.Some? then (None, Revoked013)
      else (None, Expired012)
  }

  function EvaluateResourceAccess(principal: Id, agentOwner: Id, resource: MockResource, grants: seq<Grant>, now: Time)
    : PolicyDecision
  {
    if resource.ownerId != agentOwner then PolicyDecision(false, Owner010, None)
    else
      var (grant, rule) := ActiveGrant(grants, principal, ResourceRead, resource.id, now);
      if grant.Some? then PolicyDecision(true, Grant011, Some(grant.value.id))
      else PolicyDecision(false, rule, None)
  }

  function EvaluateEgress(principal: Id, host: string, grants: seq<Grant>, now: Time): PolicyDecision {
    var (grant, rule) := ActiveGrant(grants, principal, NetworkEgress, host, now);
    if grant.Some? then PolicyDecision(true, Egress020, Some(grant.value.id))
    else PolicyDecision(false, rule, None)
  }

  // --- The chain behind a live verdict -----------------------------------

  /** A finite walk from a grant to a parentless one, every hop linked and live. */
  ghost predicate LiveChain(chain: seq<Grant>, grants: seq<Grant>, now: Time) {
    && |chain| > 0
    && (forall i | 0 <= i < |chain| :: chain[i].LocallyLive(now))
    && (forall i | 0 <= i < |chain| - 1 ::
          && chain[i].parent.Some?
          && FindGrant(grants, chain[i].parent.value) == Some(chain[i + 1])
          && LinkedTo(chain[i], chain[i + 1]))
    && chain[|chain| - 1].parent.None?
  }

  ghost predicate DistinctIds(chain: seq<Grant>) {
    forall i, j | 0 <= i < j < |chain| :: chain[i].id != chain[j].id
  }

  /** One more hop in front of a walk. */
  lemma HopOnto(g: Grant, rest: seq<Grant>, grants: seq<Grant>, now: Time)
    requires g.LocallyLive(now) && g.parent.Some?
    requires LiveChain(rest, grants, now) && DistinctIds(rest) && forall i | 0 <= i < |rest| :: rest[i].id != g.id
    requires FindGrant(grants, g.parent.value) == Some(rest[0]) && LinkedTo(g, rest[0])
    ensures LiveChain([g] + rest, grants, now) && DistinctIds([g] + rest)
  {
    hide FindGrant, LinkedTo;
    var chain := [g] + rest;
    forall i | 0 <= i < |chain| - 1
      ensures chain[i].parent.Some? && FindGrant(grants, chain[i].parent.value) == Some(chain[i + 1]) && LinkedTo(chain[i], chain[i + 1])
    {
      if i > 0 {
        assert chain[i] == rest[i - 1] && chain[i + 1] == rest[i];
      }
    }
  }

  /** The hops of a walk that said yes. */
  lemma {:induction false} WalkTaken(g: Grant, grants: seq<Grant>, now: Time, visiting: set<Id>)
    returns (chain: seq<Grant>)
    requires IsGrantChainLive(g, grants, now, visiting)
    ensures LiveChain(chain, grants, now) && chain[0] == g && DistinctIds(chain)
    ensures forall i | 0 <= i < |chain| :: chain[i].id !in visiting
    decreases (IdsOf(grants) + {g.id}) - visiting
  {
    hide LinkedTo;
    if g.parent.None? {
      chain := [g];
    } else {
      var parent := FindGrant(grants, g.parent.value).value;
      assert parent.id in IdsOf(grants);
      assert g.id in (IdsOf(grants) + {g.id}) - visiting;
      var rest := WalkTaken(parent, grants, now, visiting + {g.id});
      HopOnto(g, rest, grants, now);
      chain := [g] + rest;
    }
  }

  lemma {:induction false} BreadthGrows(chain: seq<Grant>, grants: seq<Grant>, now: Time, i: nat)
    requires LiveChain(chain, grants, now) && i < |chain|
    ensures IsNarrowerThan(chain[0].shape, chain[i].shape)
    ensures i > 0 ==> chain[i] in grants
  {
    hide ScopeIsNarrower, TargetCovers, ExpiryWithin;
    if i == 0 {
      NarrowerIsPartialOrder(chain[0].shape, chain[0].shape, chain[0].shape);
    } else {
      BreadthGrows(chain, grants, now, i - 1);
      assert FindGrant(grants, chain[i - 1].parent.value) == Some(chain[i]) && LinkedTo(chain[i - 1], chain[i]);
      NarrowerIsPartialOrder(chain[0].shape, chain[i - 1].shape, chain[i].shape);
    }
  }

  /** On any grant list at all: a live verdict is witnessed by such a walk, and every grant
      on it is at least as broad as the one asked about. */
  lemma LiveVerdictHasChain(g: Grant, grants: seq<Grant>, now: Time, visiting: set<Id>)
    returns (chain: seq<Grant>)
    requires IsGrantChainLive(g, grants, now, visiting)
    ensures LiveChain(chain, grants, now) && chain[0] == g && DistinctIds(chain)
    ensures forall i | 0 <= i < |chain| :: IsNarrowerThan(g.shape, chain[i].shape)
    ensures forall i | 0 < i < |chain| :: chain[i] in grants
  {
    hide IsNarrowerThan, IsGrantChainLive;
    chain := WalkTaken(g, grants, now, visiting);
    forall i | 0 <= i < |chain|
      ensures IsNarrowerThan(g.shape, chain[i].shape) && (i > 0 ==> chain[i] in grants)
    {
      BreadthGrows(chain, grants, now, i);
    }
  }

  lemma {:induction false} ChainWalks(chain: seq<Grant>, grants: seq<Grant>, now: Time, i: nat)
    requires LiveChain(chain, grants, now) && DistinctIds(chain) && i < |chain|
    ensures IsGrantChainLive(chain[i], grants, now, IdsOf(chain[..i]))
    decreases |chain| - i
  {
    hide LinkedTo;
    if i + 1 < |chain| {
      ChainWalks(chain, grants, now, i + 1);
      assert chain[..i + 1] == chain[..i] + [chain[i]];
      assert IdsOf(chain[..i + 1]) == IdsOf(chain[..i]) + {chain[i].id};
    }
  }

  /** On every grant list, cyclic, dangling and repeating ones included, and for every grant,
      listed or not: the walk says yes exactly when a finite linked walk of live grants, no two
      under one id, leads to a parentless one. */
  lemma LiveExactlyWhenChained(g: Grant, grants: seq<Grant>, now: Time)
    ensures IsGrantChainLive(g, grants, now) <==>
            exists chain: seq<Grant> :: LiveChain(chain, grants, now) && DistinctIds(chain) && chain[0] == g
  {
    if IsGrantChainLive(g, grants, now) {
      var chain := WalkTaken(g, grants, now, {});
    }
    if chain: seq<Grant> :| LiveChain(chain, grants, now) && DistinctIds(chain) && chain[0] == g {
      ChainWalks(chain, grants, now, 0);
      assert IdsOf(chain[..0]) == {};
    }
  }

  // --- Walks from the first grant under an id never repeat ----------------

  /** The walk from a grant is determined, so two equal positions have equal futures. */
  lemma {:induction false} SameFuture(chain: seq<Grant>, grants: seq<Grant>, now: Time, i: nat, j: nat, t: nat)
    requires LiveChain(chain, grants, now)
    requires i < j && j + t < |chain| && chain[i] == chain[j]
    ensures chain[i + t] == chain[j + t]
  {
    if t > 0 {
      SameFuture(chain, grants, now, i, j, t - 1);
    }
  }

  lemma NoRepeats(chain: seq<Grant>, grants: seq<Grant>, now: Time, i: nat, j: nat)
    requires LiveChain(chain, grants, now) && FindGrant(grants, chain[0].id) == Some(chain[0])
    requires i < j < |chain|
    ensures chain[i].id != chain[j].id
  {
    hide LinkedTo;
    if chain[i].id == chain[j].id {
      assert i > 0 ==> FindGrant(grants, chain[i - 1].parent.value) == Some(chain[i]);
      assert FindGrant(grants, chain[j - 1].parent.value) == Some(chain[j]);
      FoundAgain(grants, chain[j - 1].parent.value);
      if i > 0 {
        FoundAgain(grants, chain[i - 1].parent.value);
      }
      SameFuture(chain, grants, now, i, j, |chain| - 1 - j);
      assert false;
    }
  }

  lemma FoundAgain(grants: seq<Grant>, id: Id)
    requires FindGrant(grants, id).Some?
    ensures FindGrant(grants, FindGrant(grants, id).value.id) == FindGrant(grants, id)
  {
  }

  /** For the first grant listed under its id any linked walk of live grants will do. */
  lemma FirstListedIsLiveWhenChained(g: Grant, grants: seq<Grant>, now: Time)
    requires FindGrant(grants, g.id) == Some(g)
    ensures IsGrantChainLive(g, grants, now) <==> exists chain: seq<Grant> :: LiveChain(chain, grants, now) && chain[0] == g
  {
    LiveExactlyWhenChained(g, grants, now);
    if chain: seq<Grant> :| LiveChain(chain, grants, now) && chain[0] == g {
      forall i, j | 0 <= i < j < |chain|
        ensures chain[i].id != chain[j].id
      {
        NoRepeats(chain, grants, now, i, j);
      }
    }
  }
}
