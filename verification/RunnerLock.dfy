/** The per-agent lock around runner calls, built from a chain of promises kept in a map
    (`withRunnerLifecycle` in agent-service.ts). */
module RunnerLock {
  import opened Types

  datatype Progress = Waiting | Inside | Finished(ok: bool)

  /** One caller.  `previous` is the caller whose promise it awaits, if the map had an entry
      when it arrived; `resolved` says its own promise has resolved, which takes both its
      predecessor's promise and its own release. */
  datatype Caller = Caller(agent: Id, previous: Option<nat>, progress: Progress, resolved: bool)

  datatype State = State(callers: seq<Caller>, queues: map<Id, nat>)
  {
    predicate PreviousResolved(i: nat)
      requires i < |callers|
    {
      callers[i].previous.None? ||
      (callers[i].previous.value < |callers| && callers[callers[i].previous.value].resolved)
    }
  }

  datatype Event = Arrive(agent: Id) | Enter(caller: nat) | Finish(caller: nat, ok: bool) | Resolve(caller: nat)

  predicate Enabled(s: State, e: Event) {
    match e
    case Arrive(_) => true
    case Enter(i) => i < |s.callers| && s.callers[i].progress.Waiting? && s.PreviousResolved(i)
    case Finish(i, _) => i < |s.callers| && s.callers[i].progress.Inside?
    case Resolve(i) => i < |s.callers| && s.callers[i].progress.Finished? && !s.callers[i].resolved && s.PreviousResolved(i)
  }

  function Step(s: State, e: Event): State
    requires Enabled(s, e)
  {
    match e
    case Arrive(agent) =>
      var previous := if agent in s.queues then Some(s.queues[agent]) else None;
      State(s.callers + [Caller(agent, previous, Waiting, false)], s.queues[agent := |s.callers|])
    case Enter(i) => s.(callers := s.callers[i := s.callers[i].(progress := Inside)])
    case Finish(i, ok) =>
      // The release and the clean-up run whether the operation succeeded or threw.
      var agent := s.callers[i].agent;
      State(s.callers[i := s.callers[i].(progress := Finished(ok))],
            if agent in s.queues && s.queues[agent] == i then s.queues - {agent} else s.queues)
    case Resolve(i) => s.(callers := s.callers[i := s.callers[i].(resolved := true)])
  }

  const INITIAL: State := State([], map[])

  ghost predicate IsRun(trace: seq<State>, events: seq<Event>) {
    && |trace| == |events| + 1 && trace[0] == INITIAL
    && forall t | 0 <= t < |events| :: Enabled(trace[t], events[t]) && trace[t + 1] == Step(trace[t], events[t])
  }

  /** Everybody who asked for this agent before caller `n` is finished. */
  ghost predicate EarlierFinished(s: State, agent: Id, n: nat) {
    forall i | 0 <= i < n && i < |s.callers| && s.callers[i].agent == agent :: s.callers[i].progress.Finished?
  }

  /** `p` is the caller for `agent` that arrived last before `n`. */
  ghost predicate LastBefore(s: State, agent: Id, p: nat, n: nat) {
    && p < n <= |s.callers| && s.callers[p].agent == agent
    && forall i | p < i < n :: s.callers[i].agent != agent
  }

  ghost predicate LinksSound(s: State) {
    forall i | 0 <= i < |s.callers| ::
      match s.callers[i].previous
      case None => EarlierFinished(s, s.callers[i].agent, i)
      case Some(p) => LastBefore(s, s.callers[i].agent, p, i)
  }

  ghost predicate TurnsSound(s: State) {
    forall i | 0 <= i < |s.callers| ::
      && (!s.callers[i].progress.Waiting? ==> EarlierFinished(s, s.callers[i].agent, i))
      && (s.callers[i].resolved ==> EarlierFinished(s, s.callers[i].agent, i + 1))
  }

  ghost predicate QueuesSound(s: State) {
    && (forall agent | agent in s.queues ::
          LastBefore(s, agent, s.queues[agent], |s.callers|) && !s.callers[s.queues[agent]].progress.Finished?)
    && (forall agent | agent !in s.queues :: EarlierFinished(s, agent, |s.callers|))
  }

  ghost predicate Inv(s: State) {
    LinksSound(s) && TurnsSound(s) && QueuesSound(s)
  }

  /** A resolved predecessor, or none, means everybody earlier is finished. */
  lemma TurnComes(s: State, i: nat)
    requires Inv(s) && i < |s.callers| && s.PreviousResolved(i)
    ensures EarlierFinished(s, s.callers[i].agent, i)
  {
    if s.callers[i].previous.Some? {
      var p := s.callers[i].previous.value;
      assert LastBefore(s, s.callers[i].agent, p, i);
      assert EarlierFinished(s, s.callers[p].agent, p + 1);
    }
  }

  lemma ArriveKeeps(s: State, agent: Id)
    requires Inv(s)
    ensures Inv(Step(s, Arrive(agent)))
  {
    var s' := Step(s, Arrive(agent));
    var n := |s.callers|;
    forall i | 0 <= i < n
      ensures s'.callers[i] == s.callers[i]
    {
    }
    forall a, m: nat | m <= n && EarlierFinished(s, a, m)
      ensures EarlierFinished(s', a, m)
    {
    }
    forall a, p: nat, m: nat | LastBefore(s, a, p, m)
      ensures LastBefore(s', a, p, m)
    {
    }
    forall a | a in s'.queues && a != agent
      ensures LastBefore(s', a, s'.queues[a], n + 1)
    {
      assert LastBefore(s, a, s.queues[a], n);
    }
    assert LastBefore(s', agent, n, n + 1);
  }

  lemma EnterKeeps(s: State, i: nat)
    requires Inv(s) && Enabled(s, Enter(i))
    ensures Inv(Step(s, Enter(i)))
  {
    TurnComes(s, i);
    ProgressKeeps(s, Step(s, Enter(i)), i);
    var s' := Step(s, Enter(i));
    forall a | a in s'.queues
      ensures LastBefore(s', a, s'.queues[a], |s'.callers|)
    {
      assert LastBefore(s, a, s.queues[a], |s.callers|);
    }
  }

  /** Changing one caller's progress, never away from finished, keeps the links and the turns. */
  lemma ProgressKeeps(s: State, s': State, i: nat)
    requires Inv(s) && i < |s.callers| && |s'.callers| == |s.callers|
    requires s'.callers == s.callers[i := s'.callers[i]]
    requires s'.callers[i].agent == s.callers[i].agent && s'.callers[i].previous == s.callers[i].previous
    requires s.callers[i].progress.Finished? ==> s'.callers[i].progress.Finished?
    requires EarlierFinished(s, s.callers[i].agent, i)
    requires s'.callers[i].resolved ==> s'.callers[i].progress.Finished?
    ensures LinksSound(s') && TurnsSound(s')
    ensures forall a, m: nat | EarlierFinished(s, a, m) :: EarlierFinished(s', a, m)
  {
    forall j | 0 <= j < |s.callers|
      ensures s'.callers[j].agent == s.callers[j].agent && s'.callers[j].previous == s.callers[j].previous
      ensures s.callers[j].progress.Finished? ==> s'.callers[j].progress.Finished?
    {
    }
    forall a, m: nat | EarlierFinished(s, a, m)
      ensures EarlierFinished(s', a, m)
    {
    }
    forall j | 0 <= j < |s'.callers|
      ensures s'.callers[j].previous.Some? ==> LastBefore(s', s'.callers[j].agent, s'.callers[j].previous.value, j)
    {
      assert s.callers[j].previous.Some? ==> LastBefore(s, s.callers[j].agent, s.callers[j].previous.value, j);
    }
  }

  lemma FinishKeeps(s: State, i: nat, ok: bool)
    requires Inv(s) && Enabled(s, Finish(i, ok))
    ensures Inv(Step(s, Finish(i, ok)))
  {
    var s' := Step(s, Finish(i, ok));
    var agent := s.callers[i].agent;
    assert !s.callers[i].resolved;
    ProgressKeeps(s, s', i);
    forall a | a in s'.queues
      ensures LastBefore(s', a, s'.queues[a], |s'.callers|) && !s'.callers[s'.queues[a]].progress.Finished?
    {
      assert LastBefore(s, a, s.queues[a], |s.callers|);
    }
    if agent !in s'.queues {
      assert agent in s.queues;
      assert LastBefore(s, agent, i, |s.callers|);
      assert EarlierFinished(s', agent, |s'.callers|);
    }
  }

  lemma ResolveKeeps(s: State, i: nat)
    requires Inv(s) && Enabled(s, Resolve(i))
    ensures Inv(Step(s, Resolve(i)))
  {
    var s' := Step(s, Resolve(i));
    ProgressKeeps(s, s', i);
    forall a | a in s'.queues
      ensures LastBefore(s', a, s'.queues[a], |s'.callers|) && !s'.callers[s'.queues[a]].progress.Finished?
    {
      assert LastBefore(s, a, s.queues[a], |s.callers|);
    }
  }

  lemma {:induction false} RunKeeps(trace: seq<State>, events: seq<Event>, t: nat)
    requires IsRun(trace, events) && t < |trace|
    ensures Inv(trace[t])
  {
    if t > 0 {
      RunKeeps(trace, events, t - 1);
      match events[t - 1]
      case Arrive(agent) => ArriveKeeps(trace[t - 1], agent);
      case Enter(i) => EnterKeeps(trace[t - 1], i);
      case Finish(i, ok) => FinishKeeps(trace[t - 1], i, ok);
      case Resolve(i) => ResolveKeeps(trace[t - 1], i);
    }
  }

  // --- What the lock promises --------------------------------------------

  /** At most one operation of an agent is inside, and operations go in, and come out, in the
      order in which they asked; for every arrival pattern and any failing operations. */
  lemma ExclusiveAndFifo(trace: seq<State>, events: seq<Event>, t: nat, i: nat, j: nat)
    requires IsRun(trace, events) && t < |trace| && i < j < |trace[t].callers|
    requires trace[t].callers[i].agent == trace[t].callers[j].agent
    ensures !trace[t].callers[j].progress.Waiting? ==> trace[t].callers[i].progress.Finished?
    ensures !(trace[t].callers[i].progress.Inside? && trace[t].callers[j].progress.Inside?)
  {
    RunKeeps(trace, events, t);
    assert !trace[t].callers[j].progress.Waiting? ==> EarlierFinished(trace[t], trace[t].callers[j].agent, j);
  }

  /** The map has an entry for an agent exactly while one of its operations holds or waits. */
  lemma EntryExactlyWhileNeeded(trace: seq<State>, events: seq<Event>, t: nat, agent: Id)
    requires IsRun(trace, events) && t < |trace|
    ensures agent in trace[t].queues <==>
            exists i :: 0 <= i < |trace[t].callers| && trace[t].callers[i].agent == agent && !trace[t].callers[i].progress.Finished?
  {
    RunKeeps(trace, events, t);
    if agent in trace[t].queues {
      assert LastBefore(trace[t], agent, trace[t].queues[agent], |trace[t].callers|);
    }
  }

  function Remaining(c: Caller): nat {
    match c.progress
    case Waiting => 3
    case Inside => 2
    case Finished(_) => if c.resolved then 0 else 1
  }

  /** The steps these callers have still to take. */
  function Work(callers: seq<Caller>): nat {
    if callers == [] then 0 else Remaining(callers[0]) + Work(callers[1..])
  }

  lemma {:induction false} WorkDrops(callers: seq<Caller>, i: nat, c: Caller)
    requires i < |callers| && Remaining(c) < Remaining(callers[i])
    ensures Work(callers[i := c]) < Work(callers)
    decreases i
  {
    if i == 0 {
      assert callers[i := c][1..] == callers[1..];
    } else {
      WorkDrops(callers[1..], i - 1, c);
      assert callers[i := c][1..] == callers[1..][i - 1 := c];
    }
  }

  /** Later callers never add to the work that is ahead of a caller, and every step of the
      callers up to it uses some of it up. */
  lemma WorkAhead(s: State, e: Event, i: nat)
    requires Inv(s) && Enabled(s, e) && i < |s.callers|
    ensures i < |Step(s, e).callers|
    ensures Work(Step(s, e).callers[..i + 1]) <= Work(s.callers[..i + 1])
    ensures !e.Arrive? && e.caller <= i ==> Work(Step(s, e).callers[..i + 1]) < Work(s.callers[..i + 1])
  {
    var before, after := s.callers[..i + 1], Step(s, e).callers[..i + 1];
    if e.Arrive? || e.caller > i {
      assert after == before;
    } else {
      assert after == before[e.caller := Step(s, e).callers[e.caller]];
      assert e.Finish? ==> !s.callers[e.caller].resolved;
      WorkDrops(before, e.caller, Step(s, e).callers[e.caller]);
    }
  }

  /** Nobody is forgotten: while a caller is unfinished, it or one ahead of it on its own agent's
      chain has a step to take, and with each such step the work ahead of it shrinks. */
  lemma {:induction false} NeverStuck(trace: seq<State>, events: seq<Event>, t: nat, i: nat) returns (e: Event)
    requires IsRun(trace, events) && t < |trace| && i < |trace[t].callers| && !trace[t].callers[i].progress.Finished?
    ensures !e.Arrive? && Enabled(trace[t], e) && trace[t].callers[e.caller].agent == trace[t].callers[i].agent
    ensures e.caller <= i && Work(Step(trace[t], e).callers[..i + 1]) < Work(trace[t].callers[..i + 1])
  {
    RunKeeps(trace, events, t);
    var s := trace[t];
    if s.callers[i].progress.Inside? {
      e := Finish(i, true);
    } else if s.PreviousResolved(i) {
      e := Enter(i);
    } else {
      var p := s.callers[i].previous.value;
      assert LastBefore(s, s.callers[i].agent, p, i);
      e := Unblock(trace, events, t, p);
    }
    WorkAhead(s, e, i);
  }

  /** A caller whose promise is unresolved has, itself or behind it, a step to take. */
  lemma {:induction false} Unblock(trace: seq<State>, events: seq<Event>, t: nat, p: nat) returns (e: Event)
    requires IsRun(trace, events) && t < |trace| && p < |trace[t].callers| && !trace[t].callers[p].resolved
    ensures !e.Arrive? && Enabled(trace[t], e) && trace[t].callers[e.caller].agent == trace[t].callers[p].agent
    ensures e.caller <= p
    decreases p
  {
    RunKeeps(trace, events, t);
    var s := trace[t];
    if !s.PreviousResolved(p) {
      var q := s.callers[p].previous.value;
      assert LastBefore(s, s.callers[p].agent, q, p);
      e := Unblock(trace, events, t, q);
    } else if s.callers[p].progress.Waiting? {
      e := Enter(p);
    } else if s.callers[p].progress.Inside? {
      e := Finish(p, true);
    } else {
      e := Resolve(p);
    }
  }

  // --- The map as the service updates it ---------------------------------

  class RunnerLocks {
    var callers: seq<Caller>
    var runnerLifecycleQueues: map<Id, nat>

    ghost function View(): State
      reads this
    {
      State(callers, runnerLifecycleQueues)
    }

    constructor ()
      ensures View() == INITIAL
    {
      callers, runnerLifecycleQueues := [], map[];
    }

    /** Up to the first await: take the place behind the entry and become the entry. */
    method Ask(agent: Id) returns (ticket: nat)
      modifies this
      ensures View() == Step(old(View()), Arrive(agent)) && ticket == |old(callers)|
    {
      ticket := |callers|;
      var previous := None;
      if agent in runnerLifecycleQueues {
        previous := Some(runnerLifecycleQueues[agent]);
      }
      callers := callers + [Caller(agent, previous, Waiting, false)];
      runnerLifecycleQueues := runnerLifecycleQueues[agent := ticket];
    }

    /** The finally block: release, and remove the entry unless somebody asked meanwhile. */
    method Release(ticket: nat, ok: bool)
      requires Enabled(View(), Finish(ticket, ok))
      modifies this
      ensures View() == Step(old(View()), Finish(ticket, ok))
    {
      var agent := callers[ticket].agent;
      callers := callers[ticket := callers[ticket].(progress := Finished(ok))];
      if agent in runnerLifecycleQueues && runnerLifecycleQueues[agent] == ticket {
        runnerLifecycleQueues := runnerLifecycleQueues - {agent};
      }
    }
  }
}
