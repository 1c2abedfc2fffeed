/** The decision asked for before an outbound connection opens (egress-authorizer.ts): held
    requests, strikes and quarantine, across interleaved calls. */
module EgressAuthorizer {
  import opened Types
  import opened RunPolicies
  import opened Identity

  const MAX_CONCURRENT_HELD_REQUESTS: nat := 3

  datatype EgressRule =
    | Impersonation023 | Platform021 | Net020 | Revoked | Expired
    | Flood027 | Approved025 | Denied026

  datatype Decision = Decision(allowed: bool, rule: EgressRule)

  datatype Config = Config(
    standingAllowHosts: seq<string>,
    serverKeyed: bool,
    asksForApproval: bool,
    quarantineThreshold: int)

  /** `secretMatches` is the outcome of comparing the presented secret with the derived one. */
  datatype Request = Request(principalId: Id, host: string, portText: string, secretMatches: bool)

  /** Where an `authorize` call stands between two of its awaits. */
  datatype Phase =
    | Held                                             // an operator is being asked
    | Recording(decision: Decision)                    // the decision is being recorded
    | Blocking(decision: Decision, strikes: nat)       // the denial is being recorded
    | Returned(decision: Decision, strikes: nat, quarantined: bool)

  function CountFor(counts: map<Id, nat>, agent: Id): nat {
    if agent in counts then counts[agent] else 0
  }

  predicate IsPlatform(config: Config, request: Request) {
    exists entry | entry in config.standingAllowHosts ::
      entry == request.host || entry == request.host + ":" + request.portText
  }

  function FromPolicy(d: PolicyDecision): Decision {
    Decision(d.allowed, if d.rule == Revoked013 then Revoked else if d.rule == Expired012 then Expired else Net020)
  }

  /** The decision before anyone is asked. */
  function Unattended(config: Config, request: Request, grants: seq<Grant>, now: Time): Decision {
    if IsPlatform(config, request) then Decision(true, Platform021)
    else FromPolicy(EvaluateEgress(request.principalId, request.host, grants, now))
  }

  predicate AsksOperator(config: Config, d: Decision, agent: Option<Id>) {
    !d.allowed && d.rule == Net020 && agent.Some? && config.asksForApproval
  }

  /** First segment of a call, up to its first await: the new held counts and the phase. */
  function Begin(config: Config, strikes: map<Id, nat>, held: map<Id, nat>, request: Request, agent: Option<Id>, grants: seq<Grant>, now: Time)
    : (map<Id, nat>, Phase)
  {
    var current := if agent.Some? then CountFor(strikes, agent.value) else 0;
    if config.serverKeyed && !request.secretMatches then
      (held, Returned(Decision(false, Impersonation023), current, false))
    else
      var d := Unattended(config, request, grants, now);
      if AsksOperator(config, d, agent) then
        if CountFor(held, agent.value) >= MAX_CONCURRENT_HELD_REQUESTS then (held, Recording(Decision(false, Flood027)))
        else (held[agent.value := CountFor(held, agent.value) + 1], Held)
      else if d.rule == Platform021 || agent.None? then (held, Returned(d, current, false))
      else (held, Recording(d))
  }

  /** The `finally` of the approval wait; an absent count reads as one. */
  function Release(held: map<Id, nat>, agent: Id): map<Id, nat> {
    var count := if agent in held then held[agent] else 1;
    if count > 1 then held[agent := count - 1] else held - {agent}
  }

  function AfterApproval(approved: bool): Decision {
    Decision(approved, if approved then Approved025 else Denied026)
  }

  /** Counting segment: every denial of a known agent is one strike. */
  function Count(strikes: map<Id, nat>, agent: Id, d: Decision): (map<Id, nat>, Phase) {
    var n := CountFor(strikes, agent);
    if d.allowed then (strikes, Returned(d, n, false))
    else (strikes[agent := n + 1], Blocking(d, n + 1))
  }

  function Conclude(config: Config, d: Decision, strikes: nat): Phase {
    Returned(d, strikes, strikes >= config.quarantineThreshold)
  }

  /** The two counters, updated by the segments of every call in flight. */
  class Authorizer {
    var strikesByAgent: map<Id, nat>
    var heldByAgent: map<Id, nat>
    const config: Config

    constructor (config: Config)
      ensures strikesByAgent == map[] && heldByAgent == map[] && this.config == config
    {
      this.config := config;
      strikesByAgent, heldByAgent := map[], map[];
    }

    method ResetStrikes(agent: Id)
      modifies this
      ensures strikesByAgent == old(strikesByAgent) - {agent}
      ensures heldByAgent == old(heldByAgent) - {agent}
    {
      strikesByAgent := strikesByAgent - {agent};
      heldByAgent := heldByAgent - {agent};
    }

    method BeginAuthorize(request: Request, accounts: seq<Account>, grants: seq<Grant>, now: Time)
      returns (agent: Option<Id>, phase: Phase)
      modifies this`heldByAgent
      ensures agent == match AccountOf(accounts, request.principalId) case None => None case Some(a) => Some(a.agentId)
      ensures (heldByAgent, phase) == Begin(config, strikesByAgent, old(heldByAgent), request, agent, grants, now)
    {
      var account := AccountOf(accounts, request.principalId);
      agent := if account.Some? then Some(account.value.agentId) else None;
      var strikes := if agent.Some? then CountFor(strikesByAgent, agent.value) else 0;
      if config.serverKeyed && !request.secretMatches {
        phase := Returned(Decision(false, Impersonation023), strikes, false);
        return;
      }
      var decision := Unattended(config, request, grants, now);
      if !decision.allowed && decision.rule == Net020 && agent.Some? && config.asksForApproval {
        var held := CountFor(heldByAgent, agent.value);
        if held >= MAX_CONCURRENT_HELD_REQUESTS {
          decision := Decision(false, Flood027);
        } else {
          heldByAgent := heldByAgent[agent.value := held + 1];
          phase := Held;
          return;
        }
      }
      phase := if decision.rule == Platform021 || agent.None? then Returned(decision, strikes, false) else Recording(decision);
    }

    method FinishApproval(agent: Id, approved: bool) returns (phase: Phase)
      modifies this`heldByAgent
      ensures heldByAgent == Release(old(heldByAgent), agent)
      ensures phase == Recording(AfterApproval(approved))
    {
      var remaining := (if agent in heldByAgent then heldByAgent[agent] else 1) as int - 1;
      if remaining > 0 {
        heldByAgent := heldByAgent[agent := remaining];
      } else {
        heldByAgent := heldByAgent - {agent};
      }
      phase := Recording(Decision(approved, if approved then Approved025 else Denied026));
    }

    method CountDenial(agent: Id, decision: Decision) returns (phase: Phase)
      modifies this`strikesByAgent
      ensures (strikesByAgent, phase) == Count(old(strikesByAgent), agent, decision)
    {
      var strikes := CountFor(strikesByAgent, agent);
      if decision.allowed {
        return Returned(decision, strikes, false);
      }
      strikes := strikes + 1;
      strikesByAgent := strikesByAgent[agent := strikes];
      phase := Blocking(decision, strikes);
    }
  }

  // --- Interleavings -----------------------------------------------------

  datatype Call = Call(agent: Option<Id>, phase: Phase)

  datatype State = State(strikes: map<Id, nat>, held: map<Id, nat>, calls: map<Id, Call>)

  datatype Event =
    | Start(call: Id, request: Request, agent: Option<Id>, grants: seq<Grant>, now: Time)
    | Answered(call: Id, approved: bool)
    | Recorded(call: Id)
    | BlockRecorded(call: Id)
    | Reset(who: Id)

  const INITIAL: State := State(map[], map[], map[])

  predicate Enabled(s: State, e: Event) {
    match e
    case Start(call, _, _, _, _) => call !in s.calls
    case Answered(call, _) => call in s.calls && s.calls[call].phase.Held? && s.calls[call].agent.Some?
    case Recorded(call) => call in s.calls && s.calls[call].phase.Recording? && s.calls[call].agent.Some?
    case BlockRecorded(call) => call in s.calls && s.calls[call].phase.Blocking?
    case Reset(_) => true
  }

  function Step(config: Config, s: State, e: Event): State
    requires Enabled(s, e)
  {
    match e
    case Start(call, request, agent, grants, now) =>
      var (held, phase) := Begin(config, s.strikes, s.held, request, agent, grants, now);
      State(s.strikes, held, s.calls[call := Call(agent, phase)])
    case Answered(call, approved) =>
      var c := s.calls[call];
      State(s.strikes, Release(s.held, c.agent.value), s.calls[call := c.(phase := Recording(AfterApproval(approved)))])
    case Recorded(call) =>
      var c := s.calls[call];
      var (strikes, phase) := Count(s.strikes, c.agent.value, c.phase.decision);
      State(strikes, s.held, s.calls[call := c.(phase := phase)])
    case BlockRecorded(call) =>
      var c := s.calls[call];
      s.(calls := s.calls[call := c.(phase := Conclude(config, c.phase.decision, c.phase.strikes))])
    case Reset(agent) =>
      State(s.strikes - {agent}, s.held - {agent}, s.calls)
  }

  ghost predicate IsRun(config: Config, trace: seq<State>, events: seq<Event>) {
    && |trace| == |events| + 1 && trace[0] == INITIAL
    && forall i | 0 <= i < |events| :: Enabled(trace[i], events[i]) && trace[i + 1] == Step(config, trace[i], events[i])
  }

  /** Approval calls of one agent that have not been answered. */
  function InFlight(s: State, agent: Id): set<Id> {
    set c | c in s.calls && s.calls[c].phase.Held? && s.calls[c].agent == Some(agent)
  }

  function ResetsOf(events: seq<Event>, agent: Id): nat {
    if events == [] then 0
    else ResetsOf(events[..|events| - 1], agent) + (if events[|events| - 1] == Reset(agent) then 1 else 0)
  }

  /** The event adds one counted denial of the agent. */
  predicate Denies(s: State, e: Event, agent: Id) {
    && e.Recorded? && e.call in s.calls
    && s.calls[e.call].agent == Some(agent)
    && s.calls[e.call].phase.Recording? && !s.calls[e.call].phase.decision.allowed
  }

  /** Counted denials of the agent after its last reset. */
  function DenialsSinceReset(trace: seq<State>, events: seq<Event>, agent: Id): nat
    requires |trace| == |events| + 1
  {
    if events == [] then 0
    else
      var n := |events| - 1;
      if events[n] == Reset(agent) then 0
      else DenialsSinceReset(trace[..n + 1], events[..n], agent) + (if Denies(trace[n], events[n], agent) then 1 else 0)
  }

  /** The event puts one more request of the agent on hold. */
  predicate Opens(config: Config, s: State, e: Event, agent: Id)
    requires Enabled(s, e)
  {
    e.Start? && e.agent == Some(agent) && Step(config, s, e).calls[e.call].phase.Held?
  }

  predicate Closes(s: State, e: Event, agent: Id)
    requires Enabled(s, e)
  {
    e.Answered? && s.calls[e.call].agent == Some(agent)
  }

  lemma InFlightStart(config: Config, s: State, e: Event, agent: Id)
    requires Enabled(s, e) && e.Start?
    ensures InFlight(Step(config, s, e), agent) == InFlight(s, agent) + (if Opens(config, s, e, agent) then {e.call} else {})
  {
    hide Begin;
    var s' := Step(config, s, e);
    assert forall c | c in s'.calls && c != e.call :: c in s.calls && s'.calls[c] == s.calls[c];
  }

  lemma InFlightOther(config: Config, s: State, e: Event, agent: Id)
    requires Enabled(s, e) && !e.Start?
    ensures InFlight(Step(config, s, e), agent) == InFlight(s, agent) - (if Closes(s, e, agent) then {e.call} else {})
    ensures Closes(s, e, agent) ==> e.call in InFlight(s, agent)
  {
    hide Begin, Release;
  }

  lemma InFlightStep(config: Config, s: State, e: Event, agent: Id)
    requires Enabled(s, e)
    ensures |InFlight(Step(config, s, e), agent)| ==
            |InFlight(s, agent)| + (if Opens(config, s, e, agent) then 1 else 0) - (if Closes(s, e, agent) then 1 else 0)
    ensures Closes(s, e, agent) ==> |InFlight(s, agent)| > 0
  {
    hide Step;
    if e.Start? {
      InFlightStart(config, s, e, agent);
      assert e.call !in InFlight(s, agent);
    } else {
      InFlightOther(config, s, e, agent);
    }
  }

  lemma HeldStep(config: Config, s: State, e: Event, agent: Id)
    requires Enabled(s, e)
    ensures var before, after := CountFor(s.held, agent), CountFor(Step(config, s, e).held, agent);
            && (Opens(config, s, e, agent) ==> before < MAX_CONCURRENT_HELD_REQUESTS && after == before + 1)
            && (Closes(s, e, agent) ==> after == (if before > 0 then before - 1 else 0))
            && (!Opens(config, s, e, agent) && !Closes(s, e, agent) ==> after == (if e == Reset(agent) then 0 else before))
  {
    hide Unattended;
  }

  /** In every interleaving: at most three requests of an agent are recorded as held, never
      more than are really in flight, exactly as many until a reset, and after resets the
      real number is bounded by three for each. */
  lemma {:induction false} HeldIsBounded(config: Config, trace: seq<State>, events: seq<Event>, agent: Id)
    requires IsRun(config, trace, events)
    ensures var s := trace[|events|];
            && CountFor(s.held, agent) <= MAX_CONCURRENT_HELD_REQUESTS
            && CountFor(s.held, agent) <= |InFlight(s, agent)|
            && (ResetsOf(events, agent) == 0 ==> CountFor(s.held, agent) == |InFlight(s, agent)|)
            && |InFlight(s, agent)| <= CountFor(s.held, agent) + MAX_CONCURRENT_HELD_REQUESTS * ResetsOf(events, agent)
    decreases |events|
  {
    if events == [] {
      assert InFlight(INITIAL, agent) == {};
    } else {
      var n := |events| - 1;
      HeldIsBounded(config, trace[..n + 1], events[..n], agent);
      InFlightStep(config, trace[n], events[n], agent);
      HeldStep(config, trace[n], events[n], agent);
    }
  }

  // --- What a reset does to the bound ------------------------------------

  ghost predicate RecordIsExact(s: State, agent: Id) {
    CountFor(s.held, agent) == |InFlight(s, agent)|
  }

  /** Every reset so far found no request of the agent on hold. */
  ghost predicate QuietResets(trace: seq<State>, events: seq<Event>, agent: Id)
    requires |trace| == |events| + 1
  {
    forall t | 0 <= t < |events| && events[t] == Reset(agent) :: CountFor(trace[t].held, agent) == 0
  }

  lemma {:induction false} QuietResetsKeepRecord(config: Config, trace: seq<State>, events: seq<Event>, agent: Id, t: nat)
    requires IsRun(config, trace, events) && QuietResets(trace, events, agent) && t < |trace|
    ensures RecordIsExact(trace[t], agent) && |InFlight(trace[t], agent)| <= MAX_CONCURRENT_HELD_REQUESTS
  {
    if t == 0 {
      assert InFlight(INITIAL, agent) == {};
    } else {
      QuietResetsKeepRecord(config, trace, events, agent, t - 1);
      InFlightStep(config, trace[t - 1], events[t - 1], agent);
      HeldStep(config, trace[t - 1], events[t - 1], agent);
    }
  }

  /** The record is the number of requests in flight, in every state of a run, exactly when
      every reset found nothing on hold, which its caller can ask beforehand; and then no more
      than three are ever in flight. */
  lemma RecordIsExactIffResetsAreQuiet(config: Config, trace: seq<State>, events: seq<Event>, agent: Id)
    requires IsRun(config, trace, events)
    ensures (forall t | 0 <= t < |trace| :: RecordIsExact(trace[t], agent)) <==> QuietResets(trace, events, agent)
    ensures QuietResets(trace, events, agent) ==>
              forall t | 0 <= t < |trace| :: |InFlight(trace[t], agent)| <= MAX_CONCURRENT_HELD_REQUESTS
  {
    if QuietResets(trace, events, agent) {
      forall t | 0 <= t < |trace|
        ensures RecordIsExact(trace[t], agent) && |InFlight(trace[t], agent)| <= MAX_CONCURRENT_HELD_REQUESTS
      {
        QuietResetsKeepRecord(config, trace, events, agent, t);
      }
    }
    if forall t | 0 <= t < |trace| :: RecordIsExact(trace[t], agent) {
      forall t | 0 <= t < |events| && events[t] == Reset(agent)
        ensures CountFor(trace[t].held, agent) == 0
      {
        InFlightStep(config, trace[t], events[t], agent);
        HeldStep(config, trace[t], events[t], agent);
        assert RecordIsExact(trace[t], agent) && RecordIsExact(trace[t + 1], agent);
      }
    }
  }

  const ASKING: Config := Config([], false, true, 3)
  const UNGRANTED: Request := Request(0, "example.com", "443", true)

  lemma Extend(trace: seq<State>, events: seq<Event>, e: Event) returns (trace': seq<State>, events': seq<Event>)
    requires IsRun(ASKING, trace, events) && Enabled(trace[|events|], e)
    ensures IsRun(ASKING, trace', events') && |events'| == |events| + 1
    ensures trace'[|events'|] == Step(ASKING, trace[|events|], e)
    ensures events' == events + [e]
  {
    trace', events' := trace + [Step(ASKING, trace[|events|], e)], events + [e];
  }

  /** One more request goes on hold while the record is below its limit. */
  lemma Hold(trace: seq<State>, events: seq<Event>, call: Id, agent: Id) returns (trace': seq<State>, events': seq<Event>)
    requires IsRun(ASKING, trace, events) && call !in trace[|events|].calls
    requires CountFor(trace[|events|].held, agent) < MAX_CONCURRENT_HELD_REQUESTS
    ensures IsRun(ASKING, trace', events') && ResetsOf(events', agent) == ResetsOf(events, agent)
    ensures CountFor(trace'[|events'|].held, agent) == CountFor(trace[|events|].held, agent) + 1
    ensures |InFlight(trace'[|events'|], agent)| == |InFlight(trace[|events|], agent)| + 1
    ensures trace'[|events'|].calls.Keys == trace[|events|].calls.Keys + {call}
  {
    var s, e := trace[|events|], Start(call, UNGRANTED, Some(agent), [], 0);
    assert Unattended(ASKING, UNGRANTED, [], 0) == Decision(false, Net020);
    InFlightStep(ASKING, s, e, agent);
    trace', events' := Extend(trace, events, e);
    assert events'[..|events|] == events;
  }

  lemma HoldThree(trace: seq<State>, events: seq<Event>, n: nat, agent: Id) returns (trace': seq<State>, events': seq<Event>)
    requires IsRun(ASKING, trace, events) && CountFor(trace[|events|].held, agent) == 0
    requires forall c | c in trace[|events|].calls :: c < n
    ensures IsRun(ASKING, trace', events') && ResetsOf(events', agent) == ResetsOf(events, agent)
    ensures CountFor(trace'[|events'|].held, agent) == 3
    ensures |InFlight(trace'[|events'|], agent)| == |InFlight(trace[|events|], agent)| + 3
    ensures forall c | c in trace'[|events'|].calls :: c < n + 3
  {
    hide Step, Enabled, InFlight, ResetsOf, CountFor;
    trace', events' := Hold(trace, events, n, agent);
    trace', events' := Hold(trace', events', n + 1, agent);
    trace', events' := Hold(trace', events', n + 2, agent);
  }

  lemma Clear(trace: seq<State>, events: seq<Event>, agent: Id) returns (trace': seq<State>, events': seq<Event>)
    requires IsRun(ASKING, trace, events)
    ensures IsRun(ASKING, trace', events') && ResetsOf(events', agent) == ResetsOf(events, agent) + 1
    ensures CountFor(trace'[|events'|].held, agent) == 0
    ensures |InFlight(trace'[|events'|], agent)| == |InFlight(trace[|events|], agent)|
    ensures trace'[|events'|].calls == trace[|events|].calls
  {
    InFlightStep(ASKING, trace[|events|], Reset(agent), agent);
    trace', events' := Extend(trace, events, Reset(agent));
    assert events'[..|events|] == events;
  }

  /** The bound after resets is reached for every number of them: with one reset, six requests
      are in flight while three are on record. */
  lemma {:induction false} BoundIsReached(resets: nat, agent: Id) returns (trace: seq<State>, events: seq<Event>)
    ensures IsRun(ASKING, trace, events) && ResetsOf(events, agent) == resets
    ensures CountFor(trace[|events|].held, agent) == MAX_CONCURRENT_HELD_REQUESTS
    ensures |InFlight(trace[|events|], agent)| == MAX_CONCURRENT_HELD_REQUESTS * (resets + 1)
    ensures forall c | c in trace[|events|].calls :: c < 3 * (resets + 1)
  {
    if resets == 0 {
      assert InFlight(INITIAL, agent) == {};
      trace, events := [INITIAL], [];
      trace, events := HoldThree(trace, events, 0, agent);
    } else {
      trace, events := BoundIsReached(resets - 1, agent);
      trace, events := Clear(trace, events, agent);
      trace, events := HoldThree(trace, events, 3 * resets, agent);
    }
  }

  /** An agent's strikes are its authenticated denials since the last reset. */
  lemma {:induction false} StrikesCountDenials(config: Config, trace: seq<State>, events: seq<Event>, agent: Id)
    requires IsRun(config, trace, events)
    ensures CountFor(trace[|events|].strikes, agent) == DenialsSinceReset(trace, events, agent)
    decreases |events|
  {
    if events != [] {
      var n := |events| - 1;
      StrikesCountDenials(config, trace[..n + 1], events[..n], agent);
    }
  }

  ghost predicate Settled(config: Config, c: Call) {
    match c.phase
    case Held => c.agent.Some?
    case Recording(d) => c.agent.Some? && d.rule != Impersonation023
    case Blocking(d, strikes) => c.agent.Some? && !d.allowed && d.rule != Impersonation023 && strikes > 0
    case Returned(d, strikes, quarantined) =>
      && (quarantined ==> !d.allowed)
      && (!d.allowed && c.agent.Some? && d.rule != Impersonation023 ==>
            strikes > 0 && (quarantined <==> strikes >= config.quarantineThreshold))
      && (d.rule == Impersonation023 ==> !d.allowed && !quarantined)
  }

  /** A denial of a known agent reports its own strike number and triggers quarantine exactly
      from the threshold on; an impersonation attempt never counts against the agent. */
  lemma {:induction false} QuarantineFromThresholdOn(config: Config, trace: seq<State>, events: seq<Event>)
    requires IsRun(config, trace, events)
    ensures forall c | c in trace[|events|].calls :: Settled(config, trace[|events|].calls[c])
    decreases |events|
  {
    if events != [] {
      var n := |events| - 1;
      QuarantineFromThresholdOn(config, trace[..n + 1], events[..n]);
      var before, after := trace[n].calls, trace[n + 1].calls;
      forall c | c in after
        ensures Settled(config, after[c])
      {
        if c in before {
          assert Settled(config, before[c]);
        }
      }
    }
  }

  /** A strike number is the count of denials, this one included, at the moment it is taken. */
  lemma DenialTakesNextStrike(config: Config, trace: seq<State>, events: seq<Event>, agent: Id)
    requires IsRun(config, trace, events) && events != []
    requires Denies(trace[|events| - 1], events[|events| - 1], agent)
    ensures var call := events[|events| - 1].call;
            && trace[|events|].calls[call].phase.Blocking?
            && trace[|events|].calls[call].phase.strikes == DenialsSinceReset(trace, events, agent)
  {
    StrikesCountDenials(config, trace, events, agent);
  }

  // --- Nothing leaves without a cause ------------------------------------

  /** The request goes to a platform endpoint, or a live grant matches it. */
  ghost predicate StandingCause(config: Config, e: Event)
    requires e.Start?
  {
    || IsPlatform(config, e.request)
    || exists g :: && g in e.grants && Matches(g, e.request.principalId, NetworkEgress, e.request.host)
                   && IsGrantChainLive(g, e.grants, e.now)
  }

  predicate Authenticated(config: Config, e: Event)
    requires e.Start?
  {
    config.serverKeyed ==> e.request.secretMatches
  }

  predicate Permits(phase: Phase) {
    !phase.Held? && phase.decision.allowed
  }

  lemma StartedWithCause(config: Config, s: State, e: Event)
    requires Enabled(s, e) && e.Start?
    ensures var phase := Step(config, s, e).calls[e.call].phase;
            && (Permits(phase) ==> Authenticated(config, e) && StandingCause(config, e))
            && (phase.Held? ==> Authenticated(config, e))
  {
    var (found, rule) := ActiveGrant(e.grants, e.request.principalId, NetworkEgress, e.request.host, e.now);
    if found.Some? {
      assert found.value in Matching(e.grants, e.request.principalId, NetworkEgress, e.request.host);
    }
  }

  /** A call moves only by its own events, and only an answer turns a held one into a permission. */
  lemma CallMoves(config: Config, s: State, e: Event, c: Id)
    requires Enabled(s, e) && c in Step(config, s, e).calls && !(e.Start? && e.call == c)
    ensures c in s.calls
    ensures Step(config, s, e).calls[c].phase.Held? ==> s.calls[c].phase.Held?
    ensures Permits(Step(config, s, e).calls[c].phase) ==>
              Permits(s.calls[c].phase) || (e == Answered(c, true) && s.calls[c].phase.Held?)
  {
  }

  lemma {:induction false} HeldWasAuthenticated(config: Config, trace: seq<State>, events: seq<Event>, t: nat, c: Id) returns (i: nat)
    requires IsRun(config, trace, events) && t < |trace| && c in trace[t].calls && trace[t].calls[c].phase.Held?
    ensures i < t && events[i].Start? && events[i].call == c && Authenticated(config, events[i])
  {
    hide Step, Enabled;
    assert t > 0;
    if events[t - 1].Start? && events[t - 1].call == c {
      StartedWithCause(config, trace[t - 1], events[t - 1]);
      i := t - 1;
    } else {
      CallMoves(config, trace[t - 1], events[t - 1], c);
      i := HeldWasAuthenticated(config, trace, events, t - 1, c);
    }
  }

  /** Whatever is permitted in a run has its cause in that run: the call began authenticated, and
      either a platform endpoint or a live matching grant spoke for it then, or the operator said
      yes to this very call later. */
  lemma {:induction false} AllowedHasCause(config: Config, trace: seq<State>, events: seq<Event>, t: nat, c: Id)
    returns (i: nat, k: nat)
    requires IsRun(config, trace, events) && t < |trace| && c in trace[t].calls && Permits(trace[t].calls[c].phase)
    ensures i <= k < t && events[i].Start? && events[i].call == c && Authenticated(config, events[i])
    ensures (k == i && StandingCause(config, events[i])) || (i < k && events[k] == Answered(c, true))
  {
    hide Step, Enabled, StandingCause;
    assert t > 0;
    var s, e := trace[t - 1], events[t - 1];
    if e.Start? && e.call == c {
      StartedWithCause(config, s, e);
      i, k := t - 1, t - 1;
    } else {
      CallMoves(config, s, e, c);
      if Permits(s.calls[c].phase) {
        i, k := AllowedHasCause(config, trace, events, t - 1, c);
      } else {
        i := HeldWasAuthenticated(config, trace, events, t - 1, c);
        k := t - 1;
      }
    }
  }
}
