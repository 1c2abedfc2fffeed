/** Connection tracking, generations and drain in the egress proxy (egress-proxy.ts). */
module EgressProxy {
  import opened Types

  datatype Role = Inbound | Response | Upstream

  /** A destroyable end of one proxied connection.  A tunnel's inbound socket also carries
      its responses, so a tunnel has no separate response end. */
  datatype Closable = Closable(conn: Id, role: Role)

  datatype EndState = NotCreated | Open | Destroyed | Closed

  datatype Kind = Http | Tunnel

  datatype Phase = Authorizing | Resolving | Connecting | Piping | Ended

  datatype Conn = Conn(
    kind: Kind,
    principal: Option<Id>,
    generation: nat,
    inbound: EndState,
    response: EndState,
    upstream: EndState,
    phase: Phase)
  {
    function End(role: Role): EndState {
      match role
      case Inbound => inbound
      case Response => response
      case Upstream => upstream
    }

    function With(role: Role, e: EndState): Conn {
      match role
      case Inbound => this.(inbound := e)
      case Response => this.(response := e)
      case Upstream => this.(upstream := e)
    }

    function Destroy(role: Role): Conn {
      if End(role) == Open then With(role, Destroyed) else this
    }

    /** Some end on the agent's side is gone. */
    predicate ClientGone() {
      inbound != Open || (kind == Http && response != Open)
    }

    /** Data can move between the agent and the destination, in either direction. */
    predicate Pipes() {
      phase == Piping && upstream == Open && (inbound == Open || response == Open)
    }

    /** Ends that have been registered for draining. */
    predicate Tracked(role: Role) {
      principal.Some? && match role
                         case Inbound => true
                         case Response => kind == Http
                         case Upstream => phase == Piping
    }
  }

  type SetId = nat

  /** `live` names each principal's current tracking set; detached sets stay reachable from
      the close handlers registered while they were current. */
  datatype State = State(
    generations: map<Id, nat>,
    live: map<Id, SetId>,
    sets: map<SetId, set<Closable>>,
    handlers: map<Closable, set<SetId>>,
    conns: map<Id, Conn>,
    nextSet: SetId)

  const INITIAL: State := State(map[], map[], map[], map[], map[], 0)

  function Generation(generations: map<Id, nat>, principal: Id): nat {
    if principal in generations then generations[principal] else 0
  }

  predicate Stale(s: State, c: Conn) {
    c.principal.Some? && Generation(s.generations, c.principal.value) != c.generation
  }

  function HandlersOf(s: State, x: Closable): set<SetId> {
    if x in s.handlers then s.handlers[x] else {}
  }

  function Members(s: State, principal: Id): set<Closable> {
    if principal in s.live && s.live[principal] in s.sets then s.sets[s.live[principal]] else {}
  }

  /** Registers one end in the principal's current set, creating the set if there is none. */
  function Track(s: State, principal: Id, x: Closable): State {
    var isNew := principal !in s.live;
    var id := if isNew then s.nextSet else s.live[principal];
    var members := if !isNew && id in s.sets then s.sets[id] else {};
    s.(live := s.live[principal := id],
       sets := s.sets[id := members + {x}],
       handlers := s.handlers[x := HandlersOf(s, x) + {id}],
       nextSet := if isNew then s.nextSet + 1 else s.nextSet)
  }

  function TrackIf(s: State, principal: Option<Id>, xs: seq<Closable>): State
    decreases |xs|
  {
    if principal.None? || xs == [] then s
    else TrackIf(Track(s, principal.value, xs[0]), principal, xs[1..])
  }

  function Put(s: State, conn: Id, c: Conn): State {
    s.(conns := s.conns[conn := c])
  }

  /** A connection whose authority went while it was being set up. */
  function GiveUp(c: Conn): Conn {
    if c.kind == Http then c.Destroy(Response).(phase := Ended)
    else c.Destroy(Inbound).Destroy(Upstream).(phase := Ended)
  }

  // --- Steps -------------------------------------------------------------

  datatype Event =
    | Begin(conn: Id, kind: Kind, principal: Option<Id>)
    | Decided(conn: Id, allowed: bool)
    | Resolved(conn: Id, reachable: bool)
    | Connected(conn: Id)
    | Failed(conn: Id, role: Role)
    | CloseEvent(conn: Id, role: Role)
    | Drain(who: Id)

  predicate Enabled(s: State, e: Event) {
    match e
    case Begin(conn, _, _) => conn !in s.conns
    case Decided(conn, allowed) =>
      // Without a principal the decision is always a denial.
      conn in s.conns && s.conns[conn].phase == Authorizing && (allowed ==> s.conns[conn].principal.Some?)
    case Resolved(conn, _) => conn in s.conns && s.conns[conn].phase == Resolving
    case Connected(conn) => conn in s.conns && s.conns[conn].phase == Connecting && s.conns[conn].upstream == Open
    case Failed(conn, role) => conn in s.conns && s.conns[conn].End(role) == Open
    case CloseEvent(conn, role) => conn in s.conns && s.conns[conn].End(role) in {Open, Destroyed}
    case Drain(_) => true
  }

  /** A connection as it arrives, stamped with its principal's present generation. */
  function NewConn(generations: map<Id, nat>, kind: Kind, principal: Option<Id>): Conn {
    Conn(kind, principal, if principal.Some? then Generation(generations, principal.value) else 0,
         Open, if kind == Http then Open else NotCreated, NotCreated, Authorizing)
  }

  function OnBegin(s: State, conn: Id, kind: Kind, principal: Option<Id>): State {
    TrackIf(Put(s, conn, NewConn(s.generations, kind, principal)), principal,
            if kind == Http then [Closable(conn, Inbound), Closable(conn, Response)] else [Closable(conn, Inbound)])
  }

  /** After the decision: an aborted request is left alone; a plain request whose authority
      went is answered with a refusal, a tunnel is cut. */
  function AfterDecision(c: Conn, stale: bool, allowed: bool): Conn {
    var aborted := (if c.kind == Http then c.response else c.inbound) == Closed;
    if aborted then c.(phase := Ended)
    else if c.principal.Some? && (stale || c.ClientGone()) then
      if c.kind == Http then c.(phase := Ended) else GiveUp(c)
    else c.(phase := if allowed then Resolving else Ended)
  }

  function OnDecided(s: State, conn: Id, allowed: bool): State
    requires conn in s.conns
  {
    Put(s, conn, AfterDecision(s.conns[conn], Stale(s, s.conns[conn]), allowed))
  }

  /** After name resolution: a plain request starts piping at once, a tunnel starts to connect. */
  function AfterResolution(c: Conn, stale: bool, reachable: bool): Conn {
    if c.principal.Some? && (stale || c.ClientGone()) then GiveUp(c)
    else if !reachable then c.(phase := Ended)
    else c.(upstream := Open, phase := if c.kind == Http then Piping else Connecting)
  }

  function OnResolved(s: State, conn: Id, reachable: bool): State
    requires conn in s.conns
  {
    var c := AfterResolution(s.conns[conn], Stale(s, s.conns[conn]), reachable);
    if c.phase == Piping then TrackIf(Put(s, conn, c), c.principal, [Closable(conn, Upstream), Closable(conn, Response)])
    else Put(s, conn, c)
  }

  /** The connect callback of a tunnel. */
  function AfterConnect(c: Conn, stale: bool): Conn {
    if c.principal.Some? && (stale || c.inbound != Open) then GiveUp(c) else c.(phase := Piping)
  }

  function OnConnected(s: State, conn: Id): State
    requires conn in s.conns
  {
    var c := AfterConnect(s.conns[conn], Stale(s, s.conns[conn]));
    if c.phase == Piping then TrackIf(Put(s, conn, c), c.principal, [Closable(conn, Inbound), Closable(conn, Upstream)])
    else Put(s, conn, c)
  }

  /** The close handlers of one end: leave every set it was registered in, and drop the
      principal's entry only if that very set is now empty. */
  function Forget(s: State, principal: Option<Id>, x: Closable): State {
    var mine := HandlersOf(s, x);
    var sets := map id | id in s.sets :: if id in mine then s.sets[id] - {x} else s.sets[id];
    var drops := principal.Some? && principal.value in s.live && s.live[principal.value] in mine
                 && s.live[principal.value] in sets && sets[s.live[principal.value]] == {};
    s.(sets := sets, live := if drops then s.live - {principal.value} else s.live)
  }

  /** Either end of a tunnel takes the other one with it. */
  function AfterClose(c: Conn, role: Role): Conn {
    var closed := c.With(role, Closed);
    if c.kind == Tunnel && closed.upstream != NotCreated then closed.Destroy(Inbound).Destroy(Upstream) else closed
  }

  function OnClose(s: State, conn: Id, role: Role): State
    requires conn in s.conns
  {
    Forget(Put(s, conn, AfterClose(s.conns[conn], role)), s.conns[conn].principal, Closable(conn, role))
  }

  function DestroyMembers(members: set<Closable>, conn: Id, c: Conn): Conn {
    var c1 := if Closable(conn, Inbound) in members then c.Destroy(Inbound) else c;
    var c2 := if Closable(conn, Response) in members then c1.Destroy(Response) else c1;
    if Closable(conn, Upstream) in members then c2.Destroy(Upstream) else c2
  }

  function DestroyAll(conns: map<Id, Conn>, members: set<Closable>): map<Id, Conn> {
    map conn | conn in conns :: DestroyMembers(members, conn, conns[conn])
  }

  lemma DestroyOneMore(conns: map<Id, Conn>, members: set<Closable>, x: Closable)
    ensures x.conn in conns ==>
              DestroyAll(conns, members + {x}) ==
              DestroyAll(conns, members)[x.conn := DestroyAll(conns, members)[x.conn].Destroy(x.role)]
    ensures x.conn !in conns ==> DestroyAll(conns, members + {x}) == DestroyAll(conns, members)
  {
  }

  function OnDrain(s: State, principal: Id): State {
    var members := Members(s, principal);
    s.(generations := s.generations[principal := Generation(s.generations, principal) + 1],
       live := s.live - {principal},
       conns := DestroyAll(s.conns, members))
  }

  function Step(s: State, e: Event): State
    requires Enabled(s, e)
  {
    match e
    case Begin(conn, kind, principal) => OnBegin(s, conn, kind, principal)
    case Decided(conn, allowed) => OnDecided(s, conn, allowed)
    case Resolved(conn, reachable) => OnResolved(s, conn, reachable)
    case Connected(conn) => OnConnected(s, conn)
    case Failed(conn, role) => Put(s, conn, s.conns[conn].Destroy(role))
    case CloseEvent(conn, role) => OnClose(s, conn, role)
    case Drain(principal) => OnDrain(s, principal)
  }

  ghost predicate IsRun(trace: seq<State>, events: seq<Event>) {
    && |trace| == |events| + 1 && trace[0] == INITIAL
    && forall i | 0 <= i < |events| :: Enabled(trace[i], events[i]) && trace[i + 1] == Step(trace[i], events[i])
  }

  // --- The proxy's own tables, as it updates them ------------------------

  class Proxy {
    var generationByPrincipal: map<Id, nat>
    var liveByPrincipal: map<Id, SetId>
    var trackingSets: map<SetId, set<Closable>>
    var closeHandlers: map<Closable, set<SetId>>
    var connections: map<Id, Conn>
    var nextSet: SetId

    ghost function Tables(): State
      reads this
    {
      State(generationByPrincipal, liveByPrincipal, trackingSets, closeHandlers, connections, nextSet)
    }

    constructor ()
      ensures Tables() == INITIAL
    {
      generationByPrincipal, liveByPrincipal, trackingSets := map[], map[], map[];
      closeHandlers, connections, nextSet := map[], map[], 0;
    }

    method TrackOne(principal: Id, x: Closable)
      modifies this
      ensures Tables() == Track(old(Tables()), principal, x)
    {
      if principal !in liveByPrincipal {
        trackingSets := trackingSets[nextSet := {}];
        liveByPrincipal := liveByPrincipal[principal := nextSet];
        nextSet := nextSet + 1;
      }
      var id := liveByPrincipal[principal];
      trackingSets := trackingSets[id := (if id in trackingSets then trackingSets[id] else {}) + {x}];
      closeHandlers := closeHandlers[x := (if x in closeHandlers then closeHandlers[x] else {}) + {id}];
    }

    method TrackEnds(principal: Id, closables: seq<Closable>)
      modifies this
      ensures Tables() == TrackIf(old(Tables()), Some(principal), closables)
    {
      ghost var start := Tables();
      for i := 0 to |closables|
        invariant TrackIf(Tables(), Some(principal), closables[i..]) == TrackIf(start, Some(principal), closables)
      {
        assert closables[i..][1..] == closables[i + 1..];
        TrackOne(principal, closables[i]);
      }
      assert closables[|closables|..] == [];
    }

    /** Destroys each end in turn and counts them. */
    method DestroyEach(members: set<Closable>) returns (closed: nat)
      modifies this`connections
      ensures connections == DestroyAll(old(connections), members)
      ensures closed == |members|
    {
      var pending := members;
      closed := 0;
      assert connections == DestroyAll(old(connections), {});
      while pending != {}
        invariant pending <= members && closed + |pending| == |members|
        invariant connections == DestroyAll(old(connections), members - pending)
      {
        var x :| x in pending;
        DestroyOneMore(old(connections), members - pending, x);
        assert members - (pending - {x}) == (members - pending) + {x};
        if x.conn in connections {
          connections := connections[x.conn := connections[x.conn].Destroy(x.role)];
        }
        pending := pending - {x};
        closed := closed + 1;
      }
      assert members - {} == members;
    }

    /** Bumps the generation first, then destroys whatever is tracked, and reports how much. */
    method ClosePrincipalConnections(principal: Id) returns (closed: nat)
      modifies this
      ensures Tables() == OnDrain(old(Tables()), principal)
      ensures closed == |Members(old(Tables()), principal)|
    {
      generationByPrincipal := generationByPrincipal[principal := Generation(generationByPrincipal, principal) + 1];
      if principal in liveByPrincipal && liveByPrincipal[principal] in trackingSets {
        closed := DestroyEach(trackingSets[liveByPrincipal[principal]]);
      } else {
        closed := 0;
        assert connections == DestroyAll(connections, {});
      }
      liveByPrincipal := liveByPrincipal - {principal};
    }
  }
}
