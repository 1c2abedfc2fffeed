/** In every interleaving of authorisation, resolution, connection, failure, close and drain
    events: a drain is final for what began before it and harmless for what begins after. */
module EgressProxyProofs {
  import opened Types
  import opened EgressProxy

  predicate Present(e: EndState) { e == Open || e == Destroyed }

  ghost predicate SetsOwned(s: State) {
    && (forall p | p in s.live :: s.live[p] in s.sets)
    && (forall p, q | p in s.live && q in s.live && p != q :: s.live[p] != s.live[q])
    && (forall id | id in s.sets :: id < s.nextSet)
  }

  /** The connection belongs to the principal's present generation. */
  predicate Belongs(s: State, conn: Id, p: Id) {
    conn in s.conns && s.conns[conn].principal == Some(p) && !Stale(s, s.conns[conn])
  }

  /** What a current set holds: registered, not yet closed ends of present-generation connections. */
  ghost predicate MembersAreCurrent(s: State) {
    forall p, x | p in s.live && x in Members(s, p) ::
      && Belongs(s, x.conn, p)
      && s.conns[x.conn].Tracked(x.role)
      && Present(s.conns[x.conn].End(x.role))
      && s.live[p] in HandlersOf(s, x)
  }

  /** Conversely every such end is held, except those still about to be registered. */
  ghost predicate CurrentAreMembers(s: State, except: set<Closable>) {
    forall x: Closable, p | x !in except && Belongs(s, x.conn, p)
                            && s.conns[x.conn].Tracked(x.role) && Present(s.conns[x.conn].End(x.role)) ::
      p in s.live && x in Members(s, p)
  }

  /** Close handlers never refer to a set that has since become another generation's. */
  ghost predicate HandlersAreOwn(s: State) {
    forall x: Closable, id | x in s.handlers && id in s.handlers[x] ::
      id < s.nextSet && x.conn in s.conns && forall p | p in s.live && s.live[p] == id :: Belongs(s, x.conn, p)
  }

  ghost predicate ConnSane(s: State, c: Conn) {
    && (c.kind == Tunnel ==> c.response == NotCreated)
    && (c.phase == Authorizing || c.phase == Resolving ==> c.upstream == NotCreated)
    && (c.phase == Connecting ==> c.kind == Tunnel)
    && (c.phase == Piping || c.phase == Connecting || c.phase == Resolving ==> c.principal.Some?)
    && (c.principal.Some? ==> c.generation <= Generation(s.generations, c.principal.value))
    && (Stale(s, c) ==> c.inbound != Open && c.response != Open && (c.phase == Piping ==> c.upstream != Open))
  }

  ghost predicate ConnsSane(s: State) {
    forall conn | conn in s.conns :: ConnSane(s, s.conns[conn])
  }

  ghost predicate Inv(s: State, except: set<Closable>) {
    && SetsOwned(s)
    && MembersAreCurrent(s)
    && CurrentAreMembers(s, except)
    && HandlersAreOwn(s)
    && ConnsSane(s)
  }

  lemma TrackMembers(s: State, p: Id, x: Closable)
    requires SetsOwned(s)
    ensures SetsOwned(Track(s, p, x)) && p in Track(s, p, x).live && Members(Track(s, p, x), p) == Members(s, p) + {x}
    ensures forall q | q in s.live && q != p :: Members(Track(s, p, x), q) == Members(s, q)
  {
  }

  lemma TrackLinks(s: State, p: Id, x: Closable)
    ensures var s' := Track(s, p, x);
            && s'.conns == s.conns && s'.generations == s.generations && p in s'.live && s'.live[p] in HandlersOf(s', x)
            && (forall q | q in s'.live && q != p :: q in s.live)
            && (forall q | q in s.live :: q in s'.live && s'.live[q] == s.live[q])
            && (forall y :: HandlersOf(s, y) <= HandlersOf(s', y))
  {
  }

  lemma TrackKeepsMembers(s: State, p: Id, x: Closable)
    requires SetsOwned(s) && MembersAreCurrent(s) && Belongs(s, x.conn, p)
    requires s.conns[x.conn].Tracked(x.role) && Present(s.conns[x.conn].End(x.role))
    ensures MembersAreCurrent(Track(s, p, x))
  {
    hide Track;
    TrackMembers(s, p, x);
    TrackLinks(s, p, x);
    var s' := Track(s, p, x);
    forall q, y | q in s'.live && y in Members(s', q)
      ensures && Belongs(s', y.conn, q) && s'.conns[y.conn].Tracked(y.role)
              && Present(s'.conns[y.conn].End(y.role)) && s'.live[q] in HandlersOf(s', y)
    {
      if q != p || y != x {
        assert y in Members(s, q);
        assert Belongs(s, y.conn, q);
      }
    }
  }

  lemma TrackKeepsRecords(s: State, p: Id, x: Closable)
    requires ConnsSane(s)
    ensures ConnsSane(Track(s, p, x))
  {
    forall conn | conn in s.conns
      ensures ConnSane(Track(s, p, x), s.conns[conn])
    {
      assert ConnSane(s, s.conns[conn]);
    }
  }

  lemma TrackKeeps(s: State, p: Id, x: Closable, except: set<Closable>)
    requires Inv(s, except) && Belongs(s, x.conn, p)
    requires s.conns[x.conn].Tracked(x.role) && Present(s.conns[x.conn].End(x.role))
    ensures Inv(Track(s, p, x), except - {x})
  {
    hide Track, SetsOwned, MembersAreCurrent, CurrentAreMembers, HandlersAreOwn, ConnsSane;
    TrackMembers(s, p, x);
    TrackKeepsMembers(s, p, x);
    TrackCurrent(s, p, x, except);
    TrackHandlers(s, p, x, except);
    TrackKeepsRecords(s, p, x);
  }

  lemma TrackCurrent(s: State, p: Id, x: Closable, except: set<Closable>)
    requires SetsOwned(s) && CurrentAreMembers(s, except) && Belongs(s, x.conn, p)
    ensures CurrentAreMembers(Track(s, p, x), except - {x})
  {
    TrackMembers(s, p, x);
    var s' := Track(s, p, x);
    forall y: Closable, q | y !in except - {x} && Belongs(s', y.conn, q)
                            && s'.conns[y.conn].Tracked(y.role) && Present(s'.conns[y.conn].End(y.role))
      ensures q in s'.live && y in Members(s', q)
    {
      assert Belongs(s, y.conn, q);
    }
  }

  lemma TrackHandlers(s: State, p: Id, x: Closable, except: set<Closable>)
    requires Inv(s, except) && Belongs(s, x.conn, p)
    ensures HandlersAreOwn(Track(s, p, x))
  {
    var s' := Track(s, p, x);
    forall y: Closable, id | y in s'.handlers && id in s'.handlers[y]
      ensures id < s'.nextSet && y.conn in s'.conns && forall q | q in s'.live && s'.live[q] == id :: Belongs(s', y.conn, q)
    {
      if y in s.handlers && id in s.handlers[y] {
        assert id < s.nextSet;
      }
    }
  }

  /** `s'` differs from `s` only in connection records, and no end stops being what the
      tracking tables say it is; ends in `more` may newly need registering. */
  ghost predicate SameTables(s: State, s': State) {
    && s'.generations == s.generations && s'.live == s.live && s'.sets == s.sets
    && s'.handlers == s.handlers && s'.nextSet == s.nextSet && s.conns.Keys <= s'.conns.Keys
  }

  predicate SameOwner(a: Conn, b: Conn) {
    a.principal == b.principal && a.generation == b.generation
  }

  predicate Registered(c: Conn, role: Role) {
    c.Tracked(role) && Present(c.End(role))
  }

  lemma RecordsKeep(s: State, s': State, except: set<Closable>, except': set<Closable>)
    requires Inv(s, except) && SameTables(s, s') && ConnsSane(s') && except <= except'
    requires forall conn | conn in s.conns :: SameOwner(s.conns[conn], s'.conns[conn])
    requires forall conn, role | conn in s.conns && Registered(s.conns[conn], role) :: Registered(s'.conns[conn], role)
    requires forall conn, role | conn in s'.conns && Registered(s'.conns[conn], role) && Closable(conn, role) !in except' ::
               conn in s.conns && Registered(s.conns[conn], role)
    ensures Inv(s', except')
  {
    forall conn, q | conn in s.conns
      ensures Belongs(s', conn, q) <==> Belongs(s, conn, q)
    {
      assert SameOwner(s.conns[conn], s'.conns[conn]);
    }
    forall y: Closable, q | y !in except' && Belongs(s', y.conn, q) && s'.conns[y.conn].Tracked(y.role) && Present(s'.conns[y.conn].End(y.role))
      ensures q in s'.live && y in Members(s', q)
    {
      assert y == Closable(y.conn, y.role);
      assert Registered(s'.conns[y.conn], y.role);
      assert Belongs(s, y.conn, q);
    }
    forall q, y | q in s'.live && y in Members(s', q)
      ensures && Belongs(s', y.conn, q) && s'.conns[y.conn].Tracked(y.role)
              && Present(s'.conns[y.conn].End(y.role)) && s'.live[q] in HandlersOf(s', y)
    {
      assert y in Members(s, q);
      assert Registered(s.conns[y.conn], y.role);
    }
    HandlersKept(s, s');
  }

  lemma HandlersKept(s: State, s': State)
    requires HandlersAreOwn(s) && s.conns.Keys <= s'.conns.Keys
    requires s'.handlers == s.handlers && s'.nextSet == s.nextSet
    requires forall q | q in s'.live :: q in s.live && s'.live[q] == s.live[q]
    requires forall conn, q | conn in s.conns && q in s'.live && Belongs(s, conn, q) :: Belongs(s', conn, q)
    ensures HandlersAreOwn(s')
  {
    forall y: Closable, id | y in s'.handlers && id in s'.handlers[y]
      ensures id < s'.nextSet && y.conn in s'.conns && forall q | q in s'.live && s'.live[q] == id :: Belongs(s', y.conn, q)
    {
      assert y in s.handlers && id in s.handlers[y];
      forall q | q in s'.live && s'.live[q] == id
        ensures Belongs(s', y.conn, q)
      {
        assert Belongs(s, y.conn, q);
      }
    }
  }

  /** Changing one connection's record. */
  lemma PutKeeps(s: State, conn: Id, c: Conn, more: set<Closable>)
    requires Inv(s, {}) && conn in s.conns
    requires SameOwner(s.conns[conn], c) && ConnSane(s, c)
    requires forall role | Registered(s.conns[conn], role) :: Registered(c, role)
    requires forall role | Registered(c, role) && Closable(conn, role) !in more :: Registered(s.conns[conn], role)
    ensures Inv(Put(s, conn, c), more)
  {
    var s' := Put(s, conn, c);
    forall other | other in s'.conns
      ensures ConnSane(s', s'.conns[other])
    {
      assert other in s.conns;
    }
    RecordsKeep(s, s', {}, more);
  }

  lemma TrackTwo(s: State, p: Id, x: Closable, y: Closable, except: set<Closable>)
    requires Inv(s, except) && Belongs(s, x.conn, p) && y.conn == x.conn && except <= {x, y}
    requires Registered(s.conns[x.conn], x.role) && Registered(s.conns[y.conn], y.role)
    ensures Inv(TrackIf(s, Some(p), [x, y]), {})
  {
    TrackKeeps(s, p, x, except);
    TrackKeeps(Track(s, p, x), p, y, except - {x});
    assert except - {x} - {y} == {};
    TrackIfTwo(s, p, x, y);
  }

  lemma TrackIfOne(s: State, p: Id, x: Closable)
    ensures TrackIf(s, Some(p), [x]) == Track(s, p, x)
  {
    var next := Track(s, p, x);
    assert [x][1..] == [];
    assert TrackIf(next, Some(p), []) == next;
  }

  lemma TrackIfTwo(s: State, p: Id, x: Closable, y: Closable)
    ensures TrackIf(s, Some(p), [x, y]) == Track(Track(s, p, x), p, y)
  {
    var next := Track(s, p, x);
    TrackIfOne(next, p, y);
    assert [x, y][1..] == [y];
    assert TrackIf(s, Some(p), [x, y]) == TrackIf(next, Some(p), [y]);
  }

  // --- Every event keeps the invariant -----------------------------------

  lemma BeginPut(s: State, conn: Id, kind: Kind, principal: Option<Id>, except: set<Closable>)
    requires Inv(s, {}) && conn !in s.conns
    requires principal.Some? ==> Closable(conn, Inbound) in except && (kind == Http ==> Closable(conn, Response) in except)
    ensures Inv(Put(s, conn, NewConn(s.generations, kind, principal)), except)
  {
    var s' := Put(s, conn, NewConn(s.generations, kind, principal));
    forall other | other in s'.conns
      ensures ConnSane(s', s'.conns[other])
    {
      assert other in s.conns ==> ConnSane(s, s.conns[other]);
    }
    RecordsKeep(s, s', {}, except);
  }

  lemma BeginKeeps(s: State, conn: Id, kind: Kind, principal: Option<Id>)
    requires Inv(s, {}) && conn !in s.conns
    ensures Inv(OnBegin(s, conn, kind, principal), {})
  {
    var s' := Put(s, conn, NewConn(s.generations, kind, principal));
    var a, b := Closable(conn, Inbound), Closable(conn, Response);
    if principal.None? {
      BeginPut(s, conn, kind, principal, {});
    } else if kind == Http {
      BeginPut(s, conn, kind, principal, {a, b});
      TrackTwo(s', principal.value, a, b, {a, b});
    } else {
      BeginPut(s, conn, kind, principal, {a});
      TrackKeeps(s', principal.value, a, {a});
      assert {a} - {a} == {};
      TrackIfOne(s', principal.value, a);
    }
  }

  lemma DecidedKeeps(s: State, conn: Id, allowed: bool)
    requires Inv(s, {}) && Enabled(s, Decided(conn, allowed))
    ensures Inv(OnDecided(s, conn, allowed), {})
  {
    var c := s.conns[conn];
    assert ConnSane(s, c);
    PutKeeps(s, conn, AfterDecision(c, Stale(s, c), allowed), {});
  }

  lemma ResolvedConn(s: State, c: Conn, reachable: bool)
    requires ConnSane(s, c) && c.phase == Resolving
    ensures var c' := AfterResolution(c, Stale(s, c), reachable);
            && SameOwner(c, c') && ConnSane(s, c')
            && (forall role | Registered(c, role) :: Registered(c', role))
            && (forall role | Registered(c', role) :: Registered(c, role) || (role == Upstream && c'.phase == Piping))
            && (c'.phase == Piping ==> c'.principal.Some? && !Stale(s, c') && Registered(c', Upstream) && Registered(c', Response))
  {
  }

  lemma ResolvedKeeps(s: State, conn: Id, reachable: bool)
    requires Inv(s, {}) && Enabled(s, Resolved(conn, reachable))
    ensures Inv(OnResolved(s, conn, reachable), {})
  {
    var c := s.conns[conn];
    assert ConnSane(s, c);
    ResolvedConn(s, c, reachable);
    var c' := AfterResolution(c, Stale(s, c), reachable);
    var up, down := Closable(conn, Upstream), Closable(conn, Response);
    if c'.phase == Piping {
      PutKeeps(s, conn, c', {up});
      assert Belongs(Put(s, conn, c'), conn, c'.principal.value);
      TrackTwo(Put(s, conn, c'), c'.principal.value, up, down, {up});
    } else {
      PutKeeps(s, conn, c', {});
    }
  }

  lemma ConnectedKeeps(s: State, conn: Id)
    requires Inv(s, {}) && Enabled(s, Connected(conn))
    ensures Inv(OnConnected(s, conn), {})
  {
    var c := s.conns[conn];
    assert ConnSane(s, c);
    var c' := AfterConnect(c, Stale(s, c));
    var inner, up := Closable(conn, Inbound), Closable(conn, Upstream);
    if c'.phase == Piping {
      PutKeeps(s, conn, c', {up});
      assert Belongs(Put(s, conn, c'), conn, c'.principal.value);
      TrackTwo(Put(s, conn, c'), c'.principal.value, inner, up, {up});
    } else {
      PutKeeps(s, conn, c', {});
    }
  }

  lemma FailedKeeps(s: State, conn: Id, role: Role)
    requires Inv(s, {}) && Enabled(s, Failed(conn, role))
    ensures Inv(Put(s, conn, s.conns[conn].Destroy(role)), {})
  {
    assert ConnSane(s, s.conns[conn]);
    PutKeeps(s, conn, s.conns[conn].Destroy(role), {});
  }

  // --- Close events ------------------------------------------------------

  lemma ClosedConn(s: State, c: Conn, role: Role)
    requires ConnSane(s, c) && Present(c.End(role))
    ensures var c' := AfterClose(c, role);
            && SameOwner(c, c') && ConnSane(s, c')
            && (forall r :: Registered(c', r) <==> Registered(c, r) && r != role)
            && (forall r :: c'.Tracked(r) <==> c.Tracked(r))
  {
  }

  /** As `MembersAreCurrent`, but one end may already be closed without having been forgotten. */
  ghost predicate MembersAreCurrentExcept(s: State, gone: Closable) {
    forall p, x | p in s.live && x in Members(s, p) ::
      && Belongs(s, x.conn, p)
      && s.conns[x.conn].Tracked(x.role)
      && (x != gone ==> Present(s.conns[x.conn].End(x.role)))
      && s.live[p] in HandlersOf(s, x)
  }

  lemma ClosePut(s: State, conn: Id, role: Role)
    requires Inv(s, {}) && Enabled(s, CloseEvent(conn, role))
    ensures var s' := Put(s, conn, AfterClose(s.conns[conn], role));
            && SetsOwned(s') && HandlersAreOwn(s') && MembersAreCurrentExcept(s', Closable(conn, role))
            && CurrentAreMembers(s', {}) && ConnsSane(s')
  {
    var s' := Put(s, conn, AfterClose(s.conns[conn], role));
    assert ConnSane(s, s.conns[conn]);
    ClosedConn(s, s.conns[conn], role);
    forall other, q | other in s.conns
      ensures Belongs(s', other, q) <==> Belongs(s, other, q)
    {
    }
    forall y: Closable, q | Belongs(s', y.conn, q) && s'.conns[y.conn].Tracked(y.role) && Present(s'.conns[y.conn].End(y.role))
      ensures q in s'.live && y in Members(s', q)
    {
      assert Registered(s'.conns[y.conn], y.role);
      assert Registered(s.conns[y.conn], y.role);
      assert Belongs(s, y.conn, q);
    }
    CloseMembers(s, conn, role);
    HandlersKept(s, s');
  }

  lemma CloseMembers(s: State, conn: Id, role: Role)
    requires Inv(s, {}) && Enabled(s, CloseEvent(conn, role))
    ensures MembersAreCurrentExcept(Put(s, conn, AfterClose(s.conns[conn], role)), Closable(conn, role))
  {
    var s' := Put(s, conn, AfterClose(s.conns[conn], role));
    assert ConnSane(s, s.conns[conn]);
    ClosedConn(s, s.conns[conn], role);
    forall q, y | q in s'.live && y in Members(s', q)
      ensures Belongs(s', y.conn, q) && s'.conns[y.conn].Tracked(y.role) && s'.live[q] in HandlersOf(s', y)
      ensures y != Closable(conn, role) ==> Present(s'.conns[y.conn].End(y.role))
    {
      assert y in Members(s, q);
      assert Belongs(s, y.conn, q);
      assert Registered(s.conns[y.conn], y.role);
      if y.conn == conn && y.role == role {
        assert y == Closable(conn, role);
      }
    }
  }

  /** Handlers of one end only ever change the current set of that end's own principal. */
  lemma ForgetIsSafe(s: State, conn: Id, role: Role)
    requires SetsOwned(s) && HandlersAreOwn(s) && MembersAreCurrentExcept(s, Closable(conn, role)) && conn in s.conns
    ensures var x := Closable(conn, role);
            var s' := Forget(s, s.conns[conn].principal, x);
            && (forall q | q in s'.live :: q in s.live && s'.live[q] == s.live[q])
            && (forall q | q in s'.live :: Members(s', q) == Members(s, q) - {x})
            && (forall q | q in s.live && q !in s'.live :: Belongs(s, conn, q) && Members(s, q) - {x} == {})
            && SetsOwned(s')
  {
    var x := Closable(conn, role);
    forall q | q in s.live && s.live[q] in HandlersOf(s, x)
      ensures Belongs(s, conn, q)
    {
      assert x in s.handlers;
    }
    forall q | q in s.live && x in Members(s, q)
      ensures s.live[q] in HandlersOf(s, x)
    {
    }
  }

  lemma ForgetMembers(s: State, s': State, x: Closable)
    requires s'.conns == s.conns && s'.handlers == s.handlers && s'.generations == s.generations
    requires MembersAreCurrentExcept(s, x)
    requires forall q | q in s'.live :: q in s.live && s'.live[q] == s.live[q] && Members(s', q) == Members(s, q) - {x}
    ensures MembersAreCurrent(s')
  {
    forall q, y | q in s'.live && y in Members(s', q)
      ensures && Belongs(s', y.conn, q) && s'.conns[y.conn].Tracked(y.role)
              && Present(s'.conns[y.conn].End(y.role)) && s'.live[q] in HandlersOf(s', y)
    {
      assert y in Members(s, q);
      assert Belongs(s, y.conn, q);
    }
  }

  lemma ForgetCurrent(s: State, s': State, x: Closable)
    requires s'.conns == s.conns && s'.generations == s.generations
    requires CurrentAreMembers(s, {}) && x.conn in s.conns && !Present(s.conns[x.conn].End(x.role))
    requires forall q | q in s'.live :: q in s.live && Members(s', q) == Members(s, q) - {x}
    requires forall q | q in s.live && q !in s'.live :: Members(s, q) - {x} == {}
    ensures CurrentAreMembers(s', {})
  {
    forall y: Closable, q | Belongs(s', y.conn, q) && s'.conns[y.conn].Tracked(y.role) && Present(s'.conns[y.conn].End(y.role))
      ensures q in s'.live && y in Members(s', q)
    {
      assert Belongs(s, y.conn, q);
      assert y in Members(s, q) - {x};
    }
  }

  lemma CloseKeeps(s: State, conn: Id, role: Role)
    requires Inv(s, {}) && Enabled(s, CloseEvent(conn, role))
    ensures Inv(OnClose(s, conn, role), {})
  {
    var x := Closable(conn, role);
    var mid := Put(s, conn, AfterClose(s.conns[conn], role));
    assert ConnSane(s, s.conns[conn]);
    ClosedConn(s, s.conns[conn], role);
    ClosePut(s, conn, role);
    ForgetIsSafe(mid, conn, role);
    var s' := OnClose(s, conn, role);
    assert s' == Forget(mid, mid.conns[conn].principal, x);
    assert AfterClose(s.conns[conn], role).End(role) == Closed;
    ForgetMembers(mid, s', x);
    ForgetCurrent(mid, s', x);
    HandlersKept(mid, s');
  }

  // --- Drain -------------------------------------------------------------

  lemma DrainMembers(s: State, p: Id, conn: Id, role: Role)
    requires Inv(s, {}) && conn in s.conns
    ensures Closable(conn, role) in Members(s, p) <==> Belongs(s, conn, p) && Registered(s.conns[conn], role)
  {
    var x := Closable(conn, role);
    if x in Members(s, p) {
      assert p in s.live;
      assert Belongs(s, x.conn, p);
    }
    if Belongs(s, conn, p) && Registered(s.conns[conn], role) {
      assert Belongs(s, x.conn, p);
    }
  }

  /** Cutting the registered ends of one connection. */
  function CutRegistered(c: Conn): Conn {
    c.(inbound := if Registered(c, Inbound) then Destroyed else c.inbound,
       response := if Registered(c, Response) then Destroyed else c.response,
       upstream := if Registered(c, Upstream) then Destroyed else c.upstream)
  }

  /** A drain cuts every registered end of the principal's present connections and leaves
      every other connection exactly as it was. */
  lemma DrainCutsExactly(s: State, p: Id, conn: Id)
    requires Inv(s, {}) && conn in s.conns
    ensures OnDrain(s, p).conns.Keys == s.conns.Keys
    ensures OnDrain(s, p).conns[conn] == if Belongs(s, conn, p) then CutRegistered(s.conns[conn]) else s.conns[conn]
  {
    DrainMembers(s, p, conn, Inbound);
    DrainMembers(s, p, conn, Response);
    DrainMembers(s, p, conn, Upstream);
  }

  lemma DrainedConn(s: State, p: Id, conn: Id)
    requires Inv(s, {}) && conn in s.conns
    ensures var s' := OnDrain(s, p);
            && SameOwner(s.conns[conn], s'.conns[conn]) && ConnSane(s', s'.conns[conn])
            && (forall q :: Belongs(s', conn, q) <==> Belongs(s, conn, q) && q != p)
            && (forall r :: Registered(s'.conns[conn], r) <==> Registered(s.conns[conn], r))
  {
    DrainCutsExactly(s, p, conn);
    assert ConnSane(s, s.conns[conn]);
  }

  lemma DrainKeepsOneCurrent(s: State, p: Id, y: Closable, q: Id)
    requires Inv(s, {}) && y.conn in s.conns
    requires var s' := OnDrain(s, p);
             Belongs(s', y.conn, q) && s'.conns[y.conn].Tracked(y.role) && Present(s'.conns[y.conn].End(y.role))
    ensures q in OnDrain(s, p).live && y in Members(OnDrain(s, p), q)
  {
    DrainedConn(s, p, y.conn);
    assert Registered(OnDrain(s, p).conns[y.conn], y.role);
    assert Belongs(s, y.conn, q) && Registered(s.conns[y.conn], y.role);
    assert q != p && y in Members(s, q);
  }

  lemma DrainKeepsCurrent(s: State, p: Id)
    requires Inv(s, {})
    ensures CurrentAreMembers(OnDrain(s, p), {})
  {
    hide Inv;
    var s' := OnDrain(s, p);
    forall y: Closable, q | Belongs(s', y.conn, q) && s'.conns[y.conn].Tracked(y.role) && Present(s'.conns[y.conn].End(y.role))
      ensures q in s'.live && y in Members(s', q)
    {
      DrainKeepsOneCurrent(s, p, y, q);
    }
  }

  lemma DrainKeepsOneMember(s: State, p: Id, q: Id, y: Closable)
    requires Inv(s, {}) && q in OnDrain(s, p).live && y in Members(OnDrain(s, p), q)
    ensures y.conn in s.conns && y.conn in OnDrain(s, p).conns
    ensures var s' := OnDrain(s, p);
            && Belongs(s', y.conn, q) && s'.conns[y.conn].Tracked(y.role)
            && Present(s'.conns[y.conn].End(y.role)) && s'.live[q] in HandlersOf(s', y)
  {
    assert y in Members(s, q);
    assert Belongs(s, y.conn, q) && Registered(s.conns[y.conn], y.role);
    DrainedConn(s, p, y.conn);
    assert Registered(OnDrain(s, p).conns[y.conn], y.role);
  }

  lemma DrainKeepsMembers(s: State, p: Id)
    requires Inv(s, {})
    ensures MembersAreCurrent(OnDrain(s, p))
  {
    hide Inv;
    forall q, y | q in OnDrain(s, p).live && y in Members(OnDrain(s, p), q)
      ensures var s' := OnDrain(s, p);
              && Belongs(s', y.conn, q) && s'.conns[y.conn].Tracked(y.role)
              && Present(s'.conns[y.conn].End(y.role)) && s'.live[q] in HandlersOf(s', y)
    {
      DrainKeepsOneMember(s, p, q, y);
    }
  }

  lemma DrainKeepsHandlers(s: State, p: Id)
    requires Inv(s, {})
    ensures HandlersAreOwn(OnDrain(s, p))
  {
    var s' := OnDrain(s, p);
    forall conn, q | conn in s.conns && q in s'.live && Belongs(s, conn, q)
      ensures Belongs(s', conn, q)
    {
      DrainedConn(s, p, conn);
    }
    HandlersKept(s, s');
  }

  lemma DrainKeeps(s: State, p: Id)
    requires Inv(s, {})
    ensures Inv(OnDrain(s, p), {})
  {
    var s' := OnDrain(s, p);
    forall conn | conn in s'.conns
      ensures ConnSane(s', s'.conns[conn])
    {
      DrainedConn(s, p, conn);
    }
    DrainKeepsCurrent(s, p);
    DrainKeepsMembers(s, p);
    DrainKeepsHandlers(s, p);
  }

  lemma StepKeeps(s: State, e: Event)
    requires Inv(s, {}) && Enabled(s, e)
    ensures Inv(Step(s, e), {})
  {
    match e
    case Begin(conn, kind, principal) => BeginKeeps(s, conn, kind, principal);
    case Decided(conn, allowed) => DecidedKeeps(s, conn, allowed);
    case Resolved(conn, reachable) => ResolvedKeeps(s, conn, reachable);
    case Connected(conn) => ConnectedKeeps(s, conn);
    case Failed(conn, role) => FailedKeeps(s, conn, role);
    case CloseEvent(conn, role) => CloseKeeps(s, conn, role);
    case Drain(p) => DrainKeeps(s, p);
  }

  lemma {:induction false} RunKeeps(trace: seq<State>, events: seq<Event>, i: nat)
    requires IsRun(trace, events) && i < |trace|
    ensures Inv(trace[i], {})
  {
    if i > 0 {
      RunKeeps(trace, events, i - 1);
      StepKeeps(trace[i - 1], events[i - 1]);
    }
  }

  // --- Whole runs --------------------------------------------------------

  lemma {:induction false} TrackIfKeepsConns(s: State, principal: Option<Id>, xs: seq<Closable>)
    ensures TrackIf(s, principal, xs).conns == s.conns && TrackIf(s, principal, xs).generations == s.generations
    decreases |xs|
  {
    if principal.Some? && xs != [] {
      TrackIfKeepsConns(Track(s, principal.value, xs[0]), principal, xs[1..]);
    }
  }

  ghost predicate RecordChangesTo(s: State, s': State, conn: Id, c: Conn) {
    && s'.generations == s.generations
    && s'.conns == s.conns[conn := c]
    && (conn in s.conns ==> SameOwner(s.conns[conn], c))
  }

  /** An event that is not a drain changes at most the record of its own connection. */
  lemma OneRecordChanges(s: State, e: Event) returns (c: Conn)
    requires Enabled(s, e) && !e.Drain?
    ensures RecordChangesTo(s, Step(s, e), e.conn, c)
  {
    hide TrackIf;
    match e
    case Begin(conn, kind, principal) =>
      c := NewConn(s.generations, kind, principal);
      TrackIfKeepsConns(Put(s, conn, c), principal,
                        if kind == Http then [Closable(conn, Inbound), Closable(conn, Response)] else [Closable(conn, Inbound)]);
    case Decided(conn, allowed) =>
      c := AfterDecision(s.conns[conn], Stale(s, s.conns[conn]), allowed);
    case Resolved(conn, reachable) =>
      c := AfterResolution(s.conns[conn], Stale(s, s.conns[conn]), reachable);
      TrackIfKeepsConns(Put(s, conn, c), c.principal, [Closable(conn, Upstream), Closable(conn, Response)]);
    case Connected(conn) =>
      c := AfterConnect(s.conns[conn], Stale(s, s.conns[conn]));
      TrackIfKeepsConns(Put(s, conn, c), c.principal, [Closable(conn, Inbound), Closable(conn, Upstream)]);
    case Failed(conn, role) =>
      c := s.conns[conn].Destroy(role);
    case CloseEvent(conn, role) =>
      c := AfterClose(s.conns[conn], role);
  }

  lemma StepKeepsIdentity(s: State, e: Event, conn: Id)
    requires Inv(s, {}) && Enabled(s, e) && conn in s.conns
    ensures conn in Step(s, e).conns && SameOwner(s.conns[conn], Step(s, e).conns[conn])
    ensures forall q :: Generation(Step(s, e).generations, q) >= Generation(s.generations, q)
  {
    if e.Drain? {
      DrainedConn(s, e.who, conn);
    } else {
      var c := OneRecordChanges(s, e);
    }
  }

  lemma {:induction false} IdentityIsKept(trace: seq<State>, events: seq<Event>, i: nat, j: nat, conn: Id, p: Id)
    requires IsRun(trace, events) && i <= j < |trace| && conn in trace[i].conns
    ensures conn in trace[j].conns && SameOwner(trace[i].conns[conn], trace[j].conns[conn])
    ensures Generation(trace[j].generations, p) >= Generation(trace[i].generations, p)
    decreases j
  {
    if i < j {
      IdentityIsKept(trace, events, i, j - 1, conn, p);
      RunKeeps(trace, events, j - 1);
      StepKeepsIdentity(trace[j - 1], events[j - 1], conn);
    }
  }

  /** What a principal had begun before a drain is of an earlier generation ever after. */
  lemma DrainedIsStale(trace: seq<State>, events: seq<Event>, k: nat, j: nat, conn: Id, p: Id)
    requires IsRun(trace, events) && k < j < |trace|
    requires events[k] == Drain(p) && conn in trace[k].conns && trace[k].conns[conn].principal == Some(p)
    ensures conn in trace[j].conns && Stale(trace[j], trace[j].conns[conn])
  {
    RunKeeps(trace, events, k);
    assert ConnSane(trace[k], trace[k].conns[conn]);
    StepKeepsIdentity(trace[k], events[k], conn);
    IdentityIsKept(trace, events, k + 1, j, conn, p);
    assert Generation(trace[k + 1].generations, p) == Generation(trace[k].generations, p) + 1;
  }

  /** A drain is final: whatever the principal had begun before it, at any stage, never pipes
      data again, in any continuation. */
  lemma DrainIsFinal(trace: seq<State>, events: seq<Event>, k: nat, j: nat, conn: Id, p: Id)
    requires IsRun(trace, events) && k < j < |trace|
    requires events[k] == Drain(p) && conn in trace[k].conns && trace[k].conns[conn].principal == Some(p)
    ensures conn in trace[j].conns && !trace[j].conns[conn].Pipes()
  {
    DrainedIsStale(trace, events, k, j, conn, p);
    RunKeeps(trace, events, j);
    assert ConnSane(trace[j], trace[j].conns[conn]);
  }

  /** Neither a drain of this principal nor an event of this connection. */
  predicate Foreign(e: Event, conn: Id, p: Id) {
    if e.Drain? then e.who != p else e.conn != conn
  }

  lemma ForeignLeaves(s: State, e: Event, conn: Id, p: Id)
    requires Inv(s, {}) && Enabled(s, e) && Belongs(s, conn, p) && Foreign(e, conn, p)
    ensures Belongs(Step(s, e), conn, p) && Step(s, e).conns[conn] == s.conns[conn]
  {
    if e.Drain? {
      DrainCutsExactly(s, e.who, conn);
      DrainedConn(s, e.who, conn);
    } else {
      var c := OneRecordChanges(s, e);
    }
  }

  /** Over any stretch of any run without a drain of its own principal or an event of its own, a
      connection is not cut, and its registered ends stay registered for the next drain: no other
      drain, and no close of any other connection, touches it. */
  lemma {:induction false} OthersAreUntouched(trace: seq<State>, events: seq<Event>, k: nat, j: nat, conn: Id, p: Id, role: Role)
    requires IsRun(trace, events) && k <= j < |trace| && Belongs(trace[k], conn, p) && Registered(trace[k].conns[conn], role)
    requires forall m | k <= m < j :: Foreign(events[m], conn, p)
    ensures Belongs(trace[j], conn, p) && trace[j].conns[conn] == trace[k].conns[conn]
    ensures p in trace[j].live && Closable(conn, role) in Members(trace[j], p)
    decreases j
  {
    hide Step, Enabled, Inv;
    if k < j {
      OthersAreUntouched(trace, events, k, j - 1, conn, p, role);
      RunKeeps(trace, events, j - 1);
      ForeignLeaves(trace[j - 1], events[j - 1], conn, p);
    }
    RunKeeps(trace, events, j);
    StaysRegistered(trace[j], conn, p, role);
  }

  lemma StaysRegistered(s: State, conn: Id, p: Id, role: Role)
    requires Inv(s, {}) && Belongs(s, conn, p) && Registered(s.conns[conn], role)
    ensures p in s.live && Closable(conn, role) in Members(s, p)
  {
    assert Belongs(s, Closable(conn, role).conn, p);
  }

  lemma StaleCloseLeaves(s: State, conn: Id, role: Role, p: Id)
    requires Inv(s, {}) && Enabled(s, CloseEvent(conn, role)) && Stale(s, s.conns[conn]) && p in s.live
    ensures p in OnClose(s, conn, role).live
    ensures OnClose(s, conn, role).live[p] == s.live[p] && Members(OnClose(s, conn, role), p) == Members(s, p)
  {
    var x := Closable(conn, role);
    var mid := Put(s, conn, AfterClose(s.conns[conn], role));
    assert ConnSane(s, s.conns[conn]);
    ClosedConn(s, s.conns[conn], role);
    ClosePut(s, conn, role);
    ForgetIsSafe(mid, conn, role);
    assert !Belongs(mid, conn, p);
    assert x !in Members(mid, p);
  }

  /** In every run, a late close of an end from before a drain neither drops nor empties any
      principal's tracking set. */
  lemma LateCloseIsHarmless(trace: seq<State>, events: seq<Event>, k: nat, t: nat, conn: Id, role: Role, owner: Id, p: Id)
    requires IsRun(trace, events) && k < t < |events| && events[k] == Drain(owner) && events[t] == CloseEvent(conn, role)
    requires conn in trace[k].conns && trace[k].conns[conn].principal == Some(owner) && p in trace[t].live
    ensures p in trace[t + 1].live && trace[t + 1].live[p] == trace[t].live[p]
    ensures Members(trace[t + 1], p) == Members(trace[t], p)
  {
    hide Inv;
    RunKeeps(trace, events, t);
    DrainedIsStale(trace, events, k, t, conn, owner);
    StaleCloseLeaves(trace[t], conn, role, p);
  }

  /** The number a drain reports is the number of registered ends it found. */
  lemma DrainCountsRegisteredEnds(s: State, p: Id, x: Closable)
    requires Inv(s, {})
    ensures x in Members(s, p) <==> Belongs(s, x.conn, p) && Registered(s.conns[x.conn], x.role)
  {
    assert x == Closable(x.conn, x.role);
    if x in Members(s, p) {
      assert p in s.live;
      assert Belongs(s, x.conn, p);
    }
    if x.conn in s.conns {
      DrainMembers(s, p, x.conn, x.role);
    }
  }
}
