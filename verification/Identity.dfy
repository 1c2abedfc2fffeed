/** Grants between principals: creation under attenuation, transitive revocation
    (identity.ts) and the authority half of termination (terminator.ts). */
module Identity {
  import opened Types
  import opened Authority
  import opened RunPolicies
  import opened GrantGraph

  /** An agent's row as far as authority is concerned. */
  datatype Account = Account(agentId: Id, principalId: Id, blocked: bool)

  /** A remembered belief; only whether it is still in circulation matters here. */
  datatype Memory = Memory(id: Id, agentId: Id, quarantinedAt: Option<Time>)

  datatype Ledger = Ledger(
    principals: seq<Principal>,
    accounts: seq<Account>,
    grants: seq<Grant>,
    memories: seq<Memory>)

  datatype Failure =
    | WildcardTarget
    | UnknownPrincipal
    | UnknownGrantor
    | AuthorityBlocked
    | Denied(rule: Authority.Rule)
    | UnknownGrant
    | AgentDisappeared

  datatype Result<+T> = Ok(value: T) | Err(failure: Failure)

  datatype GrantRequest = GrantRequest(principalId: Id, grantedBy: Id, scope: Scope, target: string, ttlMinutes: Option<int>)

  function FindPrincipal(ps: seq<Principal>, id: Id): (found: Option<Principal>)
    ensures found.Some? ==> found.value in ps && found.value.id == id
    ensures found.None? <==> forall p | p in ps :: p.id != id
  {
    if ps == [] then None
    else if ps[0].id == id then Some(ps[0])
    else FindPrincipal(ps[1..], id)
  }

  /** First account, in order, of the given principal. */
  function AccountOf(accounts: seq<Account>, principalId: Id): (found: Option<Account>)
    ensures found.Some? ==> found.value in accounts && found.value.principalId == principalId
    ensures found.None? <==> forall a | a in accounts :: a.principalId != principalId
  {
    if accounts == [] then None
    else if accounts[0].principalId == principalId then Some(accounts[0])
    else AccountOf(accounts[1..], principalId)
  }

  /** A zero lifetime is treated like an absent one: no expiry. */
  function ExpiryOf(now: Time, ttlMinutes: Option<int>): Option<Time> {
    if ttlMinutes.Some? && ttlMinutes.value != 0 then Some(now + ttlMinutes.value * 60000) else None
  }

  function RequestedShape(now: Time, request: GrantRequest): Shape {
    Shape(request.scope, request.target, ExpiryOf(now, request.ttlMinutes))
  }

  function HeldBy(grants: seq<Grant>, principal: Id, now: Time): (held: seq<Grant>)
    ensures forall g :: g in held <==> g in grants && g.principalId == principal && IsGrantChainLive(g, grants, now)
  {
    HeldAmong(grants, grants, principal, now)
  }

  function HeldAmong(candidates: seq<Grant>, grants: seq<Grant>, principal: Id, now: Time): (held: seq<Grant>)
    ensures forall g :: g in held <==> g in candidates && g.principalId == principal && IsGrantChainLive(g, grants, now)
  {
    if candidates == [] then []
    else
      var rest := HeldAmong(candidates[1..], grants, principal, now);
      if candidates[0].principalId == principal && IsGrantChainLive(candidates[0], grants, now)
      then [candidates[0]] + rest
      else rest
  }

  /** The grant a request would add to the ledger, or why it is refused.  `now` is the
      instant the call was made, which may be long before its commit. */
  function GrantFor(l: Ledger, newId: Id, now: Time, request: GrantRequest): Result<Grant> {
    if '*' in request.target then Err(WildcardTarget)
    else
      var beneficiary := FindPrincipal(l.principals, request.principalId);
      if beneficiary.None? then Err(UnknownPrincipal)
      else
        var actor := FindPrincipal(l.principals, request.grantedBy);
        if actor.None? then Err(UnknownGrantor)
        else if actor.value.kind.AgentKind? && !beneficiary.value.kind.AgentKind? then Err(Denied(Narrowing032))
        else
          var account := AccountOf(l.accounts, request.principalId);
          if account.Some? && account.value.blocked then Err(AuthorityBlocked)
          else
            var shape := RequestedShape(now, request);
            var held := if actor.value.kind.AgentKind? then HeldBy(l.grants, request.grantedBy, now) else [];
            var decision := AuthorizeGrantRequest(actor.value.kind, request.grantedBy, shape, request.principalId, held);
            if !decision.allowed then Err(Denied(decision.rule))
            else Ok(Grant(newId, request.principalId, request.grantedBy, shape, now, None, None, decision.parent))
  }

  /** What one revocation does to the grant list. */
  ghost function Revocation(gs: seq<Grant>, unrevokedOnly: bool, root: Id, at: Time, actor: Option<Id>): (r: seq<Grant>)
    ensures |r| == |gs|
  {
    seq(|gs|, i requires 0 <= i < |gs| =>
      if Descends(gs, unrevokedOnly, root, gs[i].id) then Stamp(gs[i], at, actor) else gs[i])
  }

  lemma StampAllIsRevocation(gs: seq<Grant>, unrevokedOnly: bool, root: Id, ids: set<Id>, at: Time, actor: Option<Id>)
    requires forall id :: id in ids <==> Descends(gs, unrevokedOnly, root, id)
    ensures StampAll(gs, ids, at, actor) == Revocation(gs, unrevokedOnly, root, at, actor)
  {
  }

  /** What termination does to the grant list: everything below any of the roots goes. */
  ghost function MassRevocation(gs: seq<Grant>, roots: set<Id>, at: Time): (r: seq<Grant>)
    ensures |r| == |gs|
  {
    seq(|gs|, i requires 0 <= i < |gs| =>
      if DescendsFromAny(gs, roots, gs[i].id) then Stamp(gs[i], at, None) else gs[i])
  }

  function RootsOf(gs: seq<Grant>, principal: Id): set<Id> {
    set g | g in gs && g.principalId == principal && g.Unrevoked() :: g.id
  }

  function BlockAccount(accounts: seq<Account>, agentId: Id, blocked: bool): (r: seq<Account>)
    ensures |r| == |accounts|
    ensures forall i | 0 <= i < |accounts| ::
              r[i].agentId == accounts[i].agentId && r[i].principalId == accounts[i].principalId
  {
    if accounts == [] then []
    else if accounts[0].agentId == agentId then [accounts[0].(blocked := blocked)] + accounts[1..]
    else [accounts[0]] + BlockAccount(accounts[1..], agentId, blocked)
  }

  function QuarantineMemory(m: Memory, agentId: Id, at: Time): Memory {
    if m.agentId == agentId && m.quarantinedAt.None? then m.(quarantinedAt := Some(at)) else m
  }

  function QuarantineAll(ms: seq<Memory>, agentId: Id, at: Time): seq<Memory> {
    seq(|ms|, i requires 0 <= i < |ms| => QuarantineMemory(ms[i], agentId, at))
  }

  /** The ledger after the commit of termination's revoke step. */
  ghost function RevokedAndBlocked(l: Ledger, agentId: Id, principalId: Id, at: Time): Ledger {
    Ledger(
      l.principals,
      BlockAccount(l.accounts, agentId, true),
      MassRevocation(l.grants, RootsOf(l.grants, principalId), at),
      QuarantineAll(l.memories, agentId, at))
  }

  predicate HasAccount(accounts: seq<Account>, agentId: Id) {
    exists a | a in accounts :: a.agentId == agentId
  }

  // --- The store callbacks, as they run ----------------------------------

  class GrantDatabase {
    var principals: seq<Principal>
    var accounts: seq<Account>
    var grants: seq<Grant>
    var memories: seq<Memory>

    ghost function Contents(): Ledger
      reads this
    {
      Ledger(principals, accounts, grants, memories)
    }

    constructor (l: Ledger)
      ensures Contents() == l
    {
      principals, accounts, grants, memories := l.principals, l.accounts, l.grants, l.memories;
    }

    /** The commit of `createGrant`: one push, or nothing at all. */
    method CreateGrant(newId: Id, now: Time, request: GrantRequest) returns (r: Result<Grant>)
      modifies this`grants
      ensures r == GrantFor(old(Contents()), newId, now, request)
      ensures grants == if r.Ok? then old(grants) + [r.value] else old(grants)
    {
      if '*' in request.target { return Err(WildcardTarget); }
      var beneficiary := FindPrincipal(principals, request.principalId);
      if beneficiary.None? { return Err(UnknownPrincipal); }
      var actor := FindPrincipal(principals, request.grantedBy);
      if actor.None? { return Err(UnknownGrantor); }
      if actor.value.kind.AgentKind? && !beneficiary.value.kind.AgentKind? { return Err(Denied(Narrowing032)); }
      var account := AccountOf(accounts, request.principalId);
      if account.Some? && account.value.blocked { return Err(AuthorityBlocked); }
      var shape := RequestedShape(now, request);
      var held := if actor.value.kind.AgentKind? then HeldBy(grants, request.grantedBy, now) else [];
      var decision := AuthorizeGrantRequest(actor.value.kind, request.grantedBy, shape, request.principalId, held);
      if !decision.allowed { return Err(Denied(decision.rule)); }
      var grant := Grant(newId, request.principalId, request.grantedBy, shape, now, None, None, decision.parent);
      grants := grants + [grant];
      r := Ok(grant);
    }

    /** Grows a set by passes over the list until a pass adds nothing. */
    method Reach(unrevokedOnly: bool, root: Id) returns (reached: set<Id>)
      ensures forall id :: id in reached <==> Descends(grants, unrevokedOnly, root, id)
    {
      reached := {root};
      RootDescends(grants, unrevokedOnly, root);
      var changed := true;
      while changed
        invariant root in reached
        invariant forall id | id in reached :: Descends(grants, unrevokedOnly, root, id)
        invariant !changed ==> ClosedUnder(grants, unrevokedOnly, reached)
        decreases IdsOf(grants) - reached, changed
      {
        changed := false;
        ghost var before := reached;
        for i := 0 to |grants|
          invariant before <= reached
          invariant forall id | id in reached :: Descends(grants, unrevokedOnly, root, id)
          invariant changed ==> exists id :: id in reached && id !in before && id in IdsOf(grants)
          invariant !changed ==> reached == before
          invariant !changed ==> ClosedUnder(grants[..i], unrevokedOnly, reached)
        {
          var g := grants[i];
          if (!unrevokedOnly || g.Unrevoked()) && g.parent.Some? && g.parent.value in reached && g.id !in reached {
            assert ChildOf(grants, unrevokedOnly, g.parent.value, g.id);
            ChildDescends(grants, unrevokedOnly, root, g.parent.value, g.id);
            assert g.id in IdsOf(grants);
            reached := reached + {g.id};
            changed := true;
          }
        }
        assert grants[..|grants|] == grants;
        if changed {
          ghost var id :| id in reached && id !in before && id in IdsOf(grants);
          assert id in IdsOf(grants) - before;
        }
      }
      ClosedSetIsReachability(grants, unrevokedOnly, root, reached);
    }

    /** One pass that stamps every unrevoked grant in the set, in list order. */
    method StampPass(ids: set<Id>, at: Time, actor: Option<Id>) returns (stamped: seq<Grant>)
      modifies this`grants
      ensures grants == StampAll(old(grants), ids, at, actor)
      ensures stamped == NewlyStamped(old(grants), ids, at, actor)
    {
      stamped := [];
      ghost var gs := grants;
      for i := 0 to |grants|
        invariant |grants| == |gs|
        invariant forall k | 0 <= k < i :: grants[k] == StampIf(gs[k], ids, at, actor)
        invariant forall k | i <= k < |gs| :: grants[k] == gs[k]
        invariant stamped == NewlyStamped(gs[..i], ids, at, actor)
      {
        assert gs[..i + 1] == gs[..i] + [gs[i]];
        NewlyStampedSnoc(gs[..i], gs[i], ids, at, actor);
        if grants[i].id in ids && grants[i].Unrevoked() {
          grants := grants[i := grants[i].(revokedAt := Some(at), revokedBy := actor)];
          stamped := stamped + [grants[i]];
        }
      }
      assert gs[..|gs|] == gs;
      assert grants == StampAll(gs, ids, at, actor);
    }

    /** The operator's revocation of one grant and every live copy carved from it. */
    method RevokeGrant(id: Id, at: Time, actor: Id) returns (r: Result<Grant>, cascaded: seq<Grant>)
      modifies this`grants
      ensures r.Err? <==> id !in IdsOf(old(grants))
      ensures r.Err? ==> r.failure == UnknownGrant && grants == old(grants) && cascaded == []
      ensures r.Ok? ==> grants == Revocation(old(grants), true, id, at, Some(actor))
      ensures r.Ok? ==> Some(r.value) == FindGrant(grants, id)
      ensures r.Ok? ==> forall g | g in cascaded ::
                  g.id != id && exists h :: h in old(grants) && h.Unrevoked() && Descends(old(grants), true, id, h.id) && g == Stamp(h, at, Some(actor))
      ensures r.Ok? ==> forall h | h in old(grants) && h.Unrevoked() && Descends(old(grants), true, id, h.id) && h.id != id ::
                  Stamp(h, at, Some(actor)) in cascaded
    {
      var stored := FindGrant(grants, id);
      if stored.None? { return Err(UnknownGrant), []; }
      var toRevoke := Reach(true, id);
      StampAllIsRevocation(grants, true, id, toRevoke, at, Some(actor));
      SameIds(grants, StampAll(grants, toRevoke, at, Some(actor)));
      var revoked := StampPass(toRevoke, at, Some(actor));
      cascaded := [];
      for i := 0 to |revoked|
        invariant forall g :: g in cascaded <==> g in revoked[..i] && g.id != id
      {
        assert revoked[..i + 1] == revoked[..i] + [revoked[i]];
        if revoked[i].id != id {
          cascaded := cascaded + [revoked[i]];
        }
      }
      assert revoked[..|revoked|] == revoked;
      r := Ok(FindGrant(grants, id).value);
    }

    /** Termination's cascade from one root over all grants; the actor is left unset. */
    method CascadeGrantRevocation(root: Id, at: Time) returns (revoked: seq<Id>)
      modifies this`grants
      ensures grants == Revocation(old(grants), false, root, at, None)
      ensures forall id :: id in revoked <==>
                  exists g :: g in old(grants) && g.id == id && g.Unrevoked() && Descends(old(grants), false, root, id)
      ensures UniqueIds(old(grants)) ==> NoDuplicates(revoked)
    {
      var descendants := Reach(false, root);
      StampAllIsRevocation(grants, false, root, descendants, at, None);
      ghost var gs := grants;
      var stamped := StampPass(descendants, at, None);
      if UniqueIds(gs) {
        NewlyStampedUnique(gs, descendants, at, None);
      }
      revoked := GrantIds(stamped);
      forall id
        ensures id in revoked <==> exists g :: g in gs && g.id == id && g.Unrevoked() && Descends(gs, false, root, id)
      {
        if id in revoked {
          var i :| 0 <= i < |stamped| && revoked[i] == id;
          assert stamped[i] in stamped;
        }
        if g :| g in gs && g.id == id && g.Unrevoked() && Descends(gs, false, root, id) {
          assert Stamp(g, at, None) in stamped;
          var i :| 0 <= i < |stamped| && stamped[i] == Stamp(g, at, None);
          assert revoked[i] == id;
        }
      }
    }

    /** The single commit of termination's revoke step: block the account, revoke everything
        below the principal's unrevoked grants, take its memories out of circulation. */
    method RevokeAndBlock(agentId: Id, principalId: Id, at: Time) returns (r: Result<(seq<Id>, seq<Id>)>)
      modifies this`accounts, this`grants, this`memories
      ensures r.Err? <==> !HasAccount(old(accounts), agentId)
      ensures r.Err? ==> r.failure == AgentDisappeared && Contents() == old(Contents())
      ensures r.Ok? ==> Contents() == RevokedAndBlocked(old(Contents()), agentId, principalId, at)
      ensures r.Ok? ==> NoDuplicates(r.value.0)
      ensures r.Ok? ==> forall id :: id in r.value.0 <==>
                  exists g :: && g in old(grants) && g.id == id && g.Unrevoked()
                              && DescendsFromAny(old(grants), RootsOf(old(grants), principalId), id)
      ensures r.Ok? ==> r.value.1 == InCirculation(old(memories), agentId)
      ensures r.Ok? && DistinctMemories(old(memories)) ==> NoDuplicates(r.value.1)
    {
      if !HasAccount(accounts, agentId) { return Err(AgentDisappeared); }
      accounts := BlockAccount(accounts, agentId, true);
      var stamped := RevokeBelow(UnrevokedIdsOf(grants, principalId), at);
      var quarantined := QuarantineMemories(agentId, at);
      if DistinctMemories(old(memories)) {
        InCirculationDistinct(old(memories), agentId);
      }
      r := Ok((stamped, quarantined));
    }

    /** Cascades from each root in turn, collecting every id stamped once. */
    method RevokeBelow(roots: seq<Id>, at: Time) returns (stamped: seq<Id>)
      modifies this`grants
      ensures grants == MassRevocation(old(grants), Elements(roots), at)
      ensures NoDuplicates(stamped)
      ensures forall id :: id in stamped <==> StampedBy(old(grants), Elements(roots), id)
    {
      ghost var gs := grants;
      stamped := [];
      assert grants == MassRevocation(gs, {}, at);
      for i := 0 to |roots|
        invariant grants == MassRevocation(gs, Elements(roots[..i]), at)
        invariant NoDuplicates(stamped)
        invariant forall id :: id in stamped <==> StampedBy(gs, Elements(roots[..i]), id)
      {
        var ids := CascadeGrantRevocation(roots[i], at);
        CascadeAfterMass(gs, Elements(roots[..i]), roots[i], at);
        assert Elements(roots[..i + 1]) == Elements(roots[..i]) + {roots[i]};
        stamped := AddAll(stamped, ids);
      }
      assert roots[..|roots|] == roots;
    }

    method QuarantineMemories(agentId: Id, at: Time) returns (quarantined: seq<Id>)
      modifies this`memories
      ensures memories == QuarantineAll(old(memories), agentId, at)
      ensures quarantined == InCirculation(old(memories), agentId)
    {
      quarantined := [];
      ghost var ms := memories;
      for i := 0 to |memories|
        invariant |memories| == |ms|
        invariant forall k | 0 <= k < i :: memories[k] == QuarantineMemory(ms[k], agentId, at)
        invariant forall k | i <= k < |ms| :: memories[k] == ms[k]
        invariant quarantined == InCirculation(ms[..i], agentId)
      {
        assert ms[..i + 1] == ms[..i] + [ms[i]];
        InCirculationSnoc(ms[..i], ms[i], agentId);
        if memories[i].agentId == agentId && memories[i].quarantinedAt.None? {
          memories := memories[i := memories[i].(quarantinedAt := Some(at))];
          quarantined := quarantined + [memories[i].id];
        }
      }
      assert ms[..|ms|] == ms;
      assert memories == QuarantineAll(ms, agentId, at);
    }
  }

  /** Inserts into an insertion-ordered set kept as a list. */
  method AddAll(base: seq<Id>, ids: seq<Id>) returns (r: seq<Id>)
    requires NoDuplicates(base)
    ensures NoDuplicates(r)
    ensures forall id :: id in r <==> id in base || id in ids
  {
    r := base;
    for j := 0 to |ids|
      invariant NoDuplicates(r)
      invariant forall id :: id in r <==> id in base || id in ids[..j]
    {
      assert ids[..j + 1] == ids[..j] + [ids[j]];
      if ids[j] !in r {
        r := r + [ids[j]];
      }
    }
    assert ids[..|ids|] == ids;
  }

  /** Ids of the agent's memories still in circulation, in order. */
  function InCirculation(ms: seq<Memory>, agentId: Id): (r: seq<Id>)
    ensures forall id :: id in r <==> exists m :: m in ms && m.id == id && m.agentId == agentId && m.quarantinedAt.None?
  {
    if ms == [] then []
    else if ms[0].agentId == agentId && ms[0].quarantinedAt.None? then [ms[0].id] + InCirculation(ms[1..], agentId)
    else InCirculation(ms[1..], agentId)
  }

  ghost predicate DistinctMemories(ms: seq<Memory>) {
    forall i, j | 0 <= i < j < |ms| :: ms[i].id != ms[j].id
  }

  lemma {:induction false} InCirculationDistinct(ms: seq<Memory>, agentId: Id)
    requires DistinctMemories(ms)
    ensures NoDuplicates(InCirculation(ms, agentId))
  {
    if ms != [] {
      InCirculationDistinct(ms[1..], agentId);
      assert ms[0].id !in InCirculation(ms[1..], agentId);
    }
  }

  lemma {:induction false} InCirculationSnoc(ms: seq<Memory>, m: Memory, agentId: Id)
    ensures InCirculation(ms + [m], agentId) ==
            InCirculation(ms, agentId) + (if m.agentId == agentId && m.quarantinedAt.None? then [m.id] else [])
  {
    if ms == [] {
      assert ms + [m] == [m];
    } else {
      assert (ms + [m])[1..] == ms[1..] + [m];
      InCirculationSnoc(ms[1..], m, agentId);
    }
  }

  function UnrevokedIdsOf(gs: seq<Grant>, principal: Id): (r: seq<Id>)
    ensures Elements(r) == RootsOf(gs, principal)
  {
    if gs == [] then []
    else
      assert gs == [gs[0]] + gs[1..];
      assert RootsOf(gs, principal) ==
             (if gs[0].principalId == principal && gs[0].Unrevoked() then {gs[0].id} else {}) + RootsOf(gs[1..], principal);
      if gs[0].principalId == principal && gs[0].Unrevoked() then [gs[0].id] + UnrevokedIdsOf(gs[1..], principal)
      else UnrevokedIdsOf(gs[1..], principal)
  }

  ghost function Elements(s: seq<Id>): set<Id> {
    set x | x in s
  }

  ghost predicate StampedBy(gs: seq<Grant>, roots: set<Id>, id: Id) {
    exists g :: g in gs && g.id == id && g.Unrevoked() && DescendsFromAny(gs, roots, id)
  }

  /** Cascading from one more root on an already partly stamped list. */
  lemma CascadeAfterMass(gs: seq<Grant>, roots: set<Id>, root: Id, at: Time)
    ensures Revocation(MassRevocation(gs, roots, at), false, root, at, None) == MassRevocation(gs, roots + {root}, at)
    ensures forall id :: StampedBy(gs, roots + {root}, id) <==>
              || StampedBy(gs, roots, id)
              || exists g :: && g in MassRevocation(gs, roots, at) && g.id == id && g.Unrevoked()
                             && Descends(MassRevocation(gs, roots, at), false, root, id)
  {
    var mid := MassRevocation(gs, roots, at);
    forall id
      ensures Descends(gs, false, root, id) <==> Descends(mid, false, root, id)
    {
      SameLinksSamePaths(gs, mid, root, id);
      SameLinksSamePaths(mid, gs, root, id);
    }
    forall id
      ensures DescendsFromAny(gs, roots + {root}, id) <==> DescendsFromAny(gs, roots, id) || Descends(gs, false, root, id)
    {
    }
    forall id
      ensures StampedBy(gs, roots + {root}, id) <==>
              || StampedBy(gs, roots, id)
              || exists g :: g in mid && g.id == id && g.Unrevoked() && Descends(mid, false, root, id)
    {
      if g :| g in gs && g.id == id && g.Unrevoked() && DescendsFromAny(gs, roots + {root}, id) && !DescendsFromAny(gs, roots, id) {
        var i :| 0 <= i < |gs| && gs[i] == g;
        assert mid[i] == g;
      }
      if g :| g in mid && g.id == id && g.Unrevoked() && Descends(mid, false, root, id) {
        var i :| 0 <= i < |mid| && mid[i] == g;
        assert gs[i] == g;
      }
    }
  }

  lemma SameIds(gs: seq<Grant>, hs: seq<Grant>)
    requires |gs| == |hs| && forall i | 0 <= i < |gs| :: gs[i].id == hs[i].id
    ensures IdsOf(gs) == IdsOf(hs)
  {
    forall id | id in IdsOf(gs)
      ensures id in IdsOf(hs)
    {
      var i :| 0 <= i < |gs| && gs[i].id == id;
      assert hs[i] in hs;
    }
    forall id | id in IdsOf(hs)
      ensures id in IdsOf(gs)
    {
      var i :| 0 <= i < |hs| && hs[i].id == id;
      assert gs[i] in gs;
    }
  }
}
