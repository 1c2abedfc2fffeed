/** The serialised copy-on-write store (store.ts): a chain of promises over one in-memory
    database and one file that is only ever replaced by a rename. */
module Store {
  import opened Types

  /** A mutation's callback on its own copy of the database; None when it throws. */
  type Mutation<!D> = D -> Option<D>

  datatype Phase<+D> =
    | Waiting
    | Running(copy: D)
    | Writing(next: D)
    | Written(next: D)
    | Renamed(next: D)
    | Succeeded
    | Failed
  {
    predicate Settled() {
      Succeeded? || Failed?
    }
  }

  /** One call of `mutate`; the promise it waits for is the previous operation's. */
  datatype Operation<!D> = Operation(mutation: Mutation<D>, phase: Phase<D>)

  datatype File<+D> = Absent | Partial | Complete(contents: D)

  datatype State<!D> = State(data: D, ops: seq<Operation<D>>, file: File<D>, temporary: File<D>)
  {
    function WithPhase(i: nat, phase: Phase<D>): State<D>
      requires i < |ops|
    {
      this.(ops := ops[i := ops[i].(phase := phase)])
    }
  }

  datatype Event<!D> =
    | Call(mutation: Mutation<D>)
    | Start(op: nat)
    | Return(op: nat)
    | WriteDone(op: nat)
    | RenameDone(op: nat)
    | Commit(op: nat)
    | WriteFails(op: nat)

  predicate Enabled<D>(s: State<D>, e: Event<D>) {
    if e.Call? then true
    else if e.op >= |s.ops| then false
    else
      var phase := s.ops[e.op].phase;
      match e
      case Start(i) => phase.Waiting? && (i == 0 || s.ops[i - 1].phase.Settled())
      case Return(_) => phase.Running?
      case WriteDone(_) => phase.Writing?
      case RenameDone(_) => phase.Written?
      case Commit(_) => phase.Renamed?
      case WriteFails(_) => phase.Writing? || phase.Written?
  }

  function Step<D>(s: State<D>, e: Event<D>): State<D>
    requires Enabled(s, e)
  {
    match e
    case Call(m) => s.(ops := s.ops + [Operation(m, Waiting)])
    case Start(i) => s.WithPhase(i, Running(s.data))
    case Return(i) =>
      (match s.ops[i].mutation(s.ops[i].phase.copy)
       case None => s.WithPhase(i, Failed)
       case Some(next) => s.WithPhase(i, Writing(next)).(temporary := Partial))
    case WriteDone(i) => s.WithPhase(i, Written(s.ops[i].phase.next)).(temporary := Complete(s.ops[i].phase.next))
    case RenameDone(i) => s.WithPhase(i, Renamed(s.ops[i].phase.next)).(file := s.temporary, temporary := Absent)
    case Commit(i) => s.WithPhase(i, Succeeded).(data := s.ops[i].phase.next)
    case WriteFails(i) => s.WithPhase(i, Failed)
  }

  /** Loading at start-up: a missing file is first created from the empty database; a file
      that is not a complete database stops the server. */
  function Boot<D>(file: File<D>, empty: D): Option<State<D>> {
    match file
    case Absent => Some(State(empty, [], Complete(empty), Absent))
    case Partial => None
    case Complete(d) => Some(State(d, [], file, Absent))
  }

  ghost predicate IsRun<D(!new)>(start: D, trace: seq<State<D>>, events: seq<Event<D>>) {
    && |trace| == |events| + 1
    && trace[0].data == start && trace[0].ops == [] && trace[0].file == Complete(start)
    && forall i | 0 <= i < |events| :: Enabled(trace[i], events[i]) && trace[i + 1] == Step(trace[i], events[i])
  }

  // --- The sequential specification --------------------------------------

  function Apply<D>(m: Mutation<D>, before: D): D {
    if m(before).Some? then m(before).value else before
  }

  /** Running the operations that succeeded one after another, in call order. */
  function Fold<D>(start: D, ops: seq<Operation<D>>): D {
    if ops == [] then start
    else
      var before := Fold(start, ops[..|ops| - 1]);
      var last := ops[|ops| - 1];
      if last.phase.Succeeded? then Apply(last.mutation, before) else before
  }

  /** Where the chain stands: `k` operations have settled, at most the next one is inside. */
  ghost predicate Inv<D>(start: D, s: State<D>, k: nat) {
    && k <= |s.ops|
    && (forall i | 0 <= i < k :: s.ops[i].phase.Settled())
    && (forall i | k < i < |s.ops| :: s.ops[i].phase.Waiting?)
    && (k < |s.ops| ==> !s.ops[k].phase.Settled())
    && s.data == Fold(start, s.ops[..k])
    && (k < |s.ops| ==> InsideInv(s, s.ops[k]))
    && (k == |s.ops| ==> s.file == Complete(s.data))
  }

  ghost predicate InsideInv<D>(s: State<D>, op: Operation<D>) {
    && (op.phase.Running? ==> op.phase.copy == s.data)
    && (op.phase.Writing? || op.phase.Written? || op.phase.Renamed? ==> op.mutation(s.data) == Some(op.phase.next))
    && (op.phase.Written? ==> s.temporary == Complete(op.phase.next))
    && s.file == if op.phase.Renamed? then Complete(op.phase.next) else Complete(s.data)
  }

  lemma OnlyTheFirstUnsettledMoves<D>(start: D, s: State<D>, k: nat, e: Event<D>)
    requires Inv(start, s, k) && Enabled(s, e) && !e.Call?
    ensures e.op == k
  {
  }

  lemma FoldTakesOne<D>(start: D, ops: seq<Operation<D>>, k: nat)
    requires k < |ops|
    ensures Fold(start, ops[..k + 1]) ==
            if ops[k].phase.Succeeded? then Apply(ops[k].mutation, Fold(start, ops[..k])) else Fold(start, ops[..k])
  {
    assert ops[..k + 1][..k] == ops[..k];
  }

  /** Settling the operation at the head of the chain, with the data it leaves behind. */
  lemma SettleKeeps<D>(start: D, s: State<D>, k: nat, s': State<D>)
    requires Inv(start, s, k) && k < |s.ops|
    requires |s'.ops| == |s.ops| && s'.ops == s.ops[k := s.ops[k].(phase := s'.ops[k].phase)]
    requires s'.ops[k].phase.Settled()
    requires s'.data == if s'.ops[k].phase.Succeeded? then Apply(s.ops[k].mutation, s.data) else s.data
    requires s'.file == Complete(s'.data)
    ensures Inv(start, s', k + 1)
  {
    FoldTakesOne(start, s'.ops, k);
    assert s'.ops[..k] == s.ops[..k];
  }

  lemma StepKeeps<D>(start: D, s: State<D>, k: nat, e: Event<D>) returns (k': nat)
    requires Inv(start, s, k) && Enabled(s, e)
    ensures Inv(start, Step(s, e), k') && k <= k'
  {
    var s' := Step(s, e);
    if e.Call? {
      k' := k;
      assert s'.ops[..k] == s.ops[..k];
    } else {
      OnlyTheFirstUnsettledMoves(start, s, k, e);
      if s'.ops[k].phase.Settled() {
        k' := k + 1;
        SettleKeeps(start, s, k, s');
      } else {
        k' := k;
        assert s'.ops[..k] == s.ops[..k];
      }
    }
  }

  lemma {:induction false} RunKeeps<D(!new)>(start: D, trace: seq<State<D>>, events: seq<Event<D>>, t: nat) returns (k: nat)
    requires IsRun(start, trace, events) && t < |trace|
    ensures Inv(start, trace[t], k)
  {
    if t == 0 {
      k := 0;
    } else {
      k := RunKeeps(start, trace, events, t - 1);
      k := StepKeeps(start, trace[t - 1], k, events[t - 1]);
    }
  }

  // --- What the store promises -------------------------------------------

  lemma {:induction false} WaitingAddsNothing<D>(start: D, ops: seq<Operation<D>>, k: nat)
    requires k <= |ops| && forall i | k <= i < |ops| :: !ops[i].phase.Succeeded?
    ensures Fold(start, ops) == Fold(start, ops[..k])
    decreases |ops|
  {
    if k < |ops| {
      var rest := ops[..|ops| - 1];
      WaitingAddsNothing(start, rest, k);
      assert rest[..k] == ops[..k];
    } else {
      assert ops[..k] == ops;
    }
  }

  /** The in-memory database is always the successful mutations, folded in call order: failing
      ones leave nothing behind. */
  lemma DataIsSequential<D(!new)>(start: D, trace: seq<State<D>>, events: seq<Event<D>>, t: nat)
    requires IsRun(start, trace, events) && t < |trace|
    ensures trace[t].data == Fold(start, trace[t].ops)
  {
    var k := RunKeeps(start, trace, events, t);
    WaitingAddsNothing(start, trace[t].ops, k);
  }

  /** Operations settle in call order and never overlap. */
  lemma OneAtATime<D(!new)>(start: D, trace: seq<State<D>>, events: seq<Event<D>>, t: nat, i: nat, j: nat)
    requires IsRun(start, trace, events) && t < |trace| && i < j < |trace[t].ops|
    requires !trace[t].ops[i].phase.Settled()
    ensures trace[t].ops[j].phase.Waiting?
  {
    var k := RunKeeps(start, trace, events, t);
  }

  /** A mutation acknowledged as successful ran to completion on exactly its predecessors' result. */
  lemma {:induction false} SuccessIsGenuine<D(!new)>(start: D, trace: seq<State<D>>, events: seq<Event<D>>, t: nat, i: nat)
    requires IsRun(start, trace, events) && t < |trace| && i < |trace[t].ops| && trace[t].ops[i].phase.Succeeded?
    ensures trace[t].ops[i].mutation(Fold(start, trace[t].ops[..i])) == Some(Fold(start, trace[t].ops[..i + 1]))
    decreases t
  {
    var s, e := trace[t - 1], events[t - 1];
    var k := RunKeeps(start, trace, events, t - 1);
    if !e.Call? {
      OnlyTheFirstUnsettledMoves(start, s, k, e);
    }
    if i < |s.ops| && s.ops[i].phase.Succeeded? {
      SuccessIsGenuine(start, trace, events, t - 1, i);
      assert i < k;
      assert s.ops[..i] == trace[t].ops[..i] && s.ops[..i + 1] == trace[t].ops[..i + 1];
    } else {
      assert e == Commit(i) && i == k;
      FoldTakesOne(start, trace[t].ops, k);
      assert s.ops[..k] == trace[t].ops[..k];
    }
  }

  /** A failure, of the callback or of the write, leaves both databases as they were and frees
      the chain for the next operation. */
  lemma FailureIsHarmless<D(!new)>(start: D, trace: seq<State<D>>, events: seq<Event<D>>, t: nat, i: nat)
    requires IsRun(start, trace, events) && t < |events| && i < |trace[t].ops|
    requires trace[t].ops[i].phase != Failed && trace[t + 1].ops[i].phase == Failed
    ensures trace[t + 1].data == trace[t].data && trace[t + 1].file == trace[t].file == Complete(trace[t].data)
    ensures i + 1 < |trace[t].ops| ==> Enabled(trace[t + 1], Start(i + 1))
  {
    var s, e := trace[t], events[t];
    var k := RunKeeps(start, trace, events, t);
    if !e.Call? {
      OnlyTheFirstUnsettledMoves(start, s, k, e);
    }
    assert i == k;
  }

  /** Steps left to the operation that is furthest ahead. */
  function Remaining<D>(phase: Phase<D>): nat {
    match phase
    case Waiting => 5
    case Running(_) => 4
    case Writing(_) => 3
    case Written(_) => 2
    case Renamed(_) => 1
    case Succeeded => 0
    case Failed => 0
  }

  function Work<D>(ops: seq<Operation<D>>): nat {
    if ops == [] then 0 else Remaining(ops[0].phase) + Work(ops[1..])
  }

  lemma {:induction false} WorkDrops<D>(ops: seq<Operation<D>>, i: nat, phase: Phase<D>)
    requires i < |ops| && Remaining(phase) < Remaining(ops[i].phase)
    ensures Work(ops[i := ops[i].(phase := phase)]) < Work(ops)
    decreases i
  {
    var ops' := ops[i := ops[i].(phase := phase)];
    if i == 0 {
      assert ops'[1..] == ops[1..];
    } else {
      WorkDrops(ops[1..], i - 1, phase);
      assert ops'[1..] == ops[1..][i - 1 := ops[i].(phase := phase)];
    }
  }

  /** The chain is never blocked: while an operation is unsettled some step can be taken, and
      every step other than a new call uses up work. */
  lemma NeverBlocked<D(!new)>(start: D, trace: seq<State<D>>, events: seq<Event<D>>, t: nat, i: nat) returns (e: Event<D>)
    requires IsRun(start, trace, events) && t < |trace| && i < |trace[t].ops| && !trace[t].ops[i].phase.Settled()
    ensures Enabled(trace[t], e) && !e.Call? && Work(Step(trace[t], e).ops) < Work(trace[t].ops)
  {
    var k := RunKeeps(start, trace, events, t);
    e := match trace[t].ops[k].phase
         case Waiting => Start(k)
         case Running(_) => Return(k)
         case Writing(_) => WriteDone(k)
         case Written(_) => RenameDone(k)
         case _ => Commit(k);
    EveryStepUsesWork(trace[t], e);
  }

  lemma EveryStepUsesWork<D>(s: State<D>, e: Event<D>)
    requires Enabled(s, e) && !e.Call?
    ensures Work(Step(s, e).ops) < Work(s.ops)
  {
    WorkDrops(s.ops, e.op, Step(s, e).ops[e.op].phase);
  }

  /** At every instant the file is a complete database: every acknowledged mutation is in it,
      and at most the one operation that is about to be acknowledged besides.  So a crash at
      any instant restarts from such a database. */
  lemma FileIsCommitted<D(!new)>(start: D, trace: seq<State<D>>, events: seq<Event<D>>, t: nat, empty: D) returns (k: nat)
    requires IsRun(start, trace, events) && t < |trace|
    ensures k <= |trace[t].ops| && forall i | 0 <= i < |trace[t].ops| && trace[t].ops[i].phase.Succeeded? :: i < k
    ensures trace[t].file == Complete(trace[t].data)
            || (k < |trace[t].ops| && trace[t].ops[k].phase.Renamed?
                && trace[t].ops[k].mutation(trace[t].data).Some?
                && trace[t].file == Complete(Apply(trace[t].ops[k].mutation, trace[t].data)))
    ensures Boot(trace[t].file, empty).Some?
    ensures IsRun(Boot(trace[t].file, empty).value.data, [Boot(trace[t].file, empty).value], [])
  {
    k := RunKeeps(start, trace, events, t);
  }

  // --- The store object --------------------------------------------------

  class JsonStore<D(!new)> {
    var data: D
    var queue: seq<Operation<D>>
    var file: File<D>
    var temporary: File<D>

    ghost function View(): State<D>
      reads this
    {
      State(data, queue, file, temporary)
    }

    constructor (onDisk: D)
      ensures View() == Boot(Complete(onDisk), onDisk).value
    {
      data, queue, file, temporary := onDisk, [], Complete(onDisk), Absent;
    }

    /** The synchronous part of `mutate`: chain a new operation behind the last one. */
    method Mutate(mutation: Mutation<D>) returns (ticket: nat)
      modifies this
      ensures View() == Step(old(View()), Call(mutation)) && ticket == |old(queue)|
    {
      ticket := |queue|;
      queue := queue + [Operation(mutation, Waiting)];
    }

    method SetPhase(ticket: nat, phase: Phase<D>)
      requires ticket < |queue|
      modifies this`queue
      ensures View() == old(View()).WithPhase(ticket, phase)
    {
      queue := queue[ticket := queue[ticket].(phase := phase)];
    }

    /** Once the previous promise has settled: copy the data for the callback. */
    method Begin(ticket: nat)
      requires Enabled(View(), Start(ticket))
      modifies this
      ensures View() == Step(old(View()), Start(ticket))
    {
      SetPhase(ticket, Running(data));
    }

    /** Once the callback is done: reject if it threw, otherwise open the temporary file. */
    method AfterCallback(ticket: nat)
      requires Enabled(View(), Return(ticket))
      modifies this
      ensures View() == Step(old(View()), Return(ticket))
    {
      var outcome := queue[ticket].mutation(queue[ticket].phase.copy);
      if outcome.None? {
        SetPhase(ticket, Failed);
      } else {
        SetPhase(ticket, Writing(outcome.value));
        temporary := Partial;
      }
    }

    /** Once the write settles: reject, or have a complete temporary file to rename. */
    method AfterWrite(ticket: nat, ok: bool)
      requires Enabled(View(), WriteDone(ticket))
      modifies this
      ensures View() == Step(old(View()), if ok then WriteDone(ticket) else WriteFails(ticket))
    {
      if ok {
        var next := queue[ticket].phase.next;
        SetPhase(ticket, Written(next));
        temporary := Complete(next);
      } else {
        SetPhase(ticket, Failed);
      }
    }

    /** Once the rename settles: reject, or take the new database over and resolve. */
    method AfterRename(ticket: nat, ok: bool)
      requires Enabled(View(), RenameDone(ticket))
      modifies this
      ensures !ok ==> View() == Step(old(View()), WriteFails(ticket))
      ensures ok ==> View() == Step(Step(old(View()), RenameDone(ticket)), Commit(ticket))
    {
      if ok {
        var next := queue[ticket].phase.next;
        file, temporary := temporary, Absent;
        SetPhase(ticket, Renamed(next));
        data := next;
        SetPhase(ticket, Succeeded);
      } else {
        SetPhase(ticket, Failed);
      }
    }
  }
}
