/** Initialising the receipt signing keys from any number of processes at once
    (`loadOrCreateReceiptKeyPair` in termination.ts). */
module ReceiptKeys {
  import opened Types

  /** The contents of a key file are the name of the pair it belongs to; a private and a public
      file correspond exactly when they name the same pair. */
  type Key = Id

  datatype Outcome = Returned(key: Key) | Refused | Threw

  datatype Caller =
    | Looking(sawPrivate: Option<bool>, sawPublic: Option<bool>, locked: bool)
    | CheckingLock
    | AwaitingUnlock
    | Acquiring
    | Prepared(pair: Key)
    | RenamedPrivate(pair: Key)
    | Loading(readPrivate: Option<Key>, readPublic: Option<Key>, locked: bool, unlocksMeanwhile: bool)
    | Releasing(outcome: Outcome)
    | Finished(outcome: Outcome)
  {
    predicate Holds() {
      match this
      case Looking(_, _, locked) => locked
      case Loading(_, _, locked, _) => locked
      case Prepared(_) => true
      case RenamedPrivate(_) => true
      case Releasing(_) => true
      case _ => false
    }
  }

  datatype State = State(privateFile: Option<Key>, publicFile: Option<Key>, lock: bool, callers: seq<Caller>)
  {
    function Moves(p: nat, pc: Caller): State
      requires p < |callers|
    {
      this.(callers := callers[p := pc])
    }
  }

  datatype Event =
    | Call
    | SeePrivate(p: nat) | SeePublic(p: nat)
    | Judge(p: nat, pair: Key)
    | CheckLock(p: nat)
    | Poll(p: nat)
    | TryLock(p: nat)
    | RenamePrivate(p: nat) | RenamePublic(p: nat)
    | ReadPrivate(p: nat) | ReadPublic(p: nat)
    | Validate(p: nat)
    | Unlock(p: nat, removed: bool, ok: bool)
    | Fail(p: nat)
    | Crash(p: nat)

  predicate Enabled(s: State, e: Event) {
    if e.Call? then true
    else if e.p >= |s.callers| then false
    else
      var pc := s.callers[e.p];
      match e
      case SeePrivate(_) => pc.Looking? && pc.sawPrivate.None?
      case SeePublic(_) => pc.Looking? && pc.sawPublic.None?
      case Judge(_, _) => pc.Looking? && pc.sawPrivate.Some? && pc.sawPublic.Some?
      case CheckLock(_) => pc.CheckingLock?
      case Poll(_) => pc.AwaitingUnlock?
      case TryLock(_) => pc.Acquiring?
      case RenamePrivate(_) => pc.Prepared?
      case RenamePublic(_) => pc.RenamedPrivate?
      case ReadPrivate(_) => pc.Loading? && pc.readPrivate.None? && s.privateFile.Some?
      case ReadPublic(_) => pc.Loading? && pc.readPublic.None? && s.publicFile.Some?
      case Validate(_) => pc.Loading? && pc.readPrivate.Some? && pc.readPublic.Some?
      case Unlock(_, removed, ok) => (ok ==> removed) && (pc.Releasing? || (pc.Loading? && pc.locked && pc.unlocksMeanwhile))
      case Fail(_) => !pc.Finished? && !pc.Releasing?
      case Crash(_) => !pc.Finished?
  }

  /** What a caller does once it has seen both paths. */
  function AfterLook(sawPrivate: bool, sawPublic: bool, locked: bool, generated: Key): Caller {
    if sawPrivate && sawPublic then Loading(None, None, locked, locked)
    else if sawPrivate || sawPublic then if locked then Releasing(Refused) else CheckingLock
    else if locked then Prepared(generated) else Acquiring
  }

  function Step(s: State, e: Event): State
    requires Enabled(s, e)
  {
    match e
    case Call => s.(callers := s.callers + [Looking(None, None, false)])
    case SeePrivate(p) => s.Moves(p, s.callers[p].(sawPrivate := Some(s.privateFile.Some?)))
    case SeePublic(p) => s.Moves(p, s.callers[p].(sawPublic := Some(s.publicFile.Some?)))
    case Judge(p, generated) =>
      var pc := s.callers[p];
      s.Moves(p, AfterLook(pc.sawPrivate.value, pc.sawPublic.value, pc.locked, generated))
    case CheckLock(p) => s.Moves(p, if s.lock then AwaitingUnlock else Finished(Refused))
    case Poll(p) => if s.lock then s else s.Moves(p, Looking(None, None, false))
    case TryLock(p) => if s.lock then s else s.Moves(p, Looking(None, None, true)).(lock := true)
    case RenamePrivate(p) =>
      s.Moves(p, RenamedPrivate(s.callers[p].pair)).(privateFile := Some(s.callers[p].pair))
    case RenamePublic(p) =>
      s.Moves(p, Loading(None, None, true, false)).(publicFile := Some(s.callers[p].pair))
    case ReadPrivate(p) => s.Moves(p, s.callers[p].(readPrivate := s.privateFile))
    case ReadPublic(p) => s.Moves(p, s.callers[p].(readPublic := s.publicFile))
    case Validate(p) =>
      var pc := s.callers[p];
      var outcome := if pc.readPrivate == pc.readPublic then Returned(pc.readPrivate.value) else Threw;
      s.Moves(p, if pc.locked then Releasing(outcome) else Finished(outcome))
    case Unlock(p, removed, ok) =>
      // Two nested finally blocks: closing the handle or removing the file may fail, and
      // either failure replaces whatever the caller was about to return.
      var pc := s.callers[p];
      var next := if !ok then Finished(Threw) else if pc.Releasing? then Finished(pc.outcome) else pc.(locked := false);
      s.Moves(p, next).(lock := if removed then false else s.lock)
    case Fail(p) => s.Moves(p, if s.callers[p].Holds() then Releasing(Threw) else Finished(Threw))
    case Crash(p) => s.Moves(p, Finished(Threw))
  }

  /** Any files, and even a lock left by a crash, may be there before the first call. */
  ghost predicate IsRun(trace: seq<State>, events: seq<Event>) {
    && |trace| == |events| + 1 && trace[0].callers == []
    && forall i | 0 <= i < |events| :: Enabled(trace[i], events[i]) && trace[i + 1] == Step(trace[i], events[i])
  }

  // --- Invariants --------------------------------------------------------

  ghost predicate CallerSound(s: State, pc: Caller) {
    match pc
    case Looking(a, b, locked) =>
      && (a == Some(true) ==> s.privateFile.Some?) && (b == Some(true) ==> s.publicFile.Some?)
      && (locked && a == Some(false) ==> s.privateFile.None?) && (locked && b == Some(false) ==> s.publicFile.None?)
    case Prepared(_) => s.privateFile.None? && s.publicFile.None?
    case CheckingLock => s.privateFile.Some? || s.publicFile.Some?
    case RenamedPrivate(k) => s.privateFile == Some(k) && s.publicFile.None?
    case Loading(a, b, _, _) =>
      s.privateFile.Some? && s.publicFile.Some? && (a.Some? ==> a == s.privateFile) && (b.Some? ==> b == s.publicFile)
    case Releasing(outcome) => OutcomeSound(s, outcome)
    case Finished(outcome) => OutcomeSound(s, outcome)
    case _ => true
  }

  predicate OutcomeSound(s: State, outcome: Outcome) {
    outcome.Returned? ==> s.privateFile == Some(outcome.key) && s.publicFile == Some(outcome.key)
  }

  ghost predicate Inv(s: State) {
    && (forall p | 0 <= p < |s.callers| :: CallerSound(s, s.callers[p]))
    && (forall p | 0 <= p < |s.callers| && s.callers[p].Holds() :: s.lock)
    && (forall p, q | 0 <= p < q < |s.callers| :: !(s.callers[p].Holds() && s.callers[q].Holds()))
  }

  /** A caller that is not in the critical section only ever learns that files exist, so files
      appearing elsewhere cannot mislead it. */
  lemma FilesAppear(s: State, s': State, pc: Caller)
    requires CallerSound(s, pc) && !pc.Holds()
    requires s.privateFile.Some? ==> s'.privateFile == s.privateFile
    requires s.publicFile.Some? ==> s'.publicFile == s.publicFile
    ensures CallerSound(s', pc)
  {
  }

  lemma MovedCaller(s: State, e: Event)
    requires Inv(s) && Enabled(s, e) && !e.Call?
    ensures CallerSound(Step(s, e), Step(s, e).callers[e.p])
    ensures Step(s, e).callers == s.callers[e.p := Step(s, e).callers[e.p]]
  {
    assert CallerSound(s, s.callers[e.p]);
  }

  lemma FilesOnlyAppear(s: State, e: Event)
    requires Inv(s) && Enabled(s, e)
    ensures s.privateFile.Some? ==> Step(s, e).privateFile == s.privateFile
    ensures s.publicFile.Some? ==> Step(s, e).publicFile == s.publicFile
  {
    if !e.Call? {
      assert CallerSound(s, s.callers[e.p]);
    }
  }

  /** Files appear only in the critical section, so they stay as its owner left them. */
  lemma FilesMoveUnderLock(s: State, e: Event)
    requires Enabled(s, e) && !e.Call? && !s.callers[e.p].Holds()
    ensures Step(s, e).privateFile == s.privateFile && Step(s, e).publicFile == s.publicFile
  {
  }

  lemma OthersUndisturbed(s: State, e: Event, q: nat)
    requires Inv(s) && Enabled(s, e) && !e.Call? && q < |s.callers| && q != e.p
    ensures CallerSound(Step(s, e), s.callers[q])
  {
    hide Step;
    assert CallerSound(s, s.callers[q]);
    if s.callers[q].Holds() {
      assert !s.callers[e.p].Holds();
      FilesMoveUnderLock(s, e);
    } else {
      FilesOnlyAppear(s, e);
      FilesAppear(s, Step(s, e), s.callers[q]);
    }
  }

  lemma LockKeeps(s: State, e: Event)
    requires Inv(s) && Enabled(s, e) && !e.Call?
    ensures var s' := Step(s, e);
            && (forall p | 0 <= p < |s'.callers| && s'.callers[p].Holds() :: s'.lock)
            && (forall p, q | 0 <= p < q < |s'.callers| :: !(s'.callers[p].Holds() && s'.callers[q].Holds()))
  {
  }

  lemma CallKeeps(s: State)
    requires Inv(s)
    ensures Inv(Step(s, Call))
  {
    var s' := Step(s, Call);
    forall q | 0 <= q < |s'.callers|
      ensures CallerSound(s', s'.callers[q])
    {
      assert q < |s.callers| ==> CallerSound(s, s.callers[q]);
    }
  }

  lemma StepKeeps(s: State, e: Event)
    requires Inv(s) && Enabled(s, e)
    ensures Inv(Step(s, e))
    ensures s.privateFile.Some? ==> Step(s, e).privateFile == s.privateFile
    ensures s.publicFile.Some? ==> Step(s, e).publicFile == s.publicFile
  {
    hide Step, CallerSound;
    FilesOnlyAppear(s, e);
    if e.Call? {
      CallKeeps(s);
    } else {
      MovedCaller(s, e);
      LockKeeps(s, e);
      forall q: nat | q < |s.callers| && q != e.p
        ensures CallerSound(Step(s, e), s.callers[q])
      {
        OthersUndisturbed(s, e, q);
      }
    }
  }

  lemma {:induction false} RunKeeps(trace: seq<State>, events: seq<Event>, i: nat)
    requires IsRun(trace, events) && i < |trace|
    ensures Inv(trace[i])
  {
    if i > 0 {
      RunKeeps(trace, events, i - 1);
      StepKeeps(trace[i - 1], events[i - 1]);
    }
  }

  // --- What the initialisation promises ----------------------------------

  /** A key file, once there, is never written again; so a complete pair is never overwritten. */
  lemma {:induction false} FilesAreWriteOnce(trace: seq<State>, events: seq<Event>, i: nat, j: nat)
    requires IsRun(trace, events) && i <= j < |trace|
    ensures trace[i].privateFile.Some? ==> trace[j].privateFile == trace[i].privateFile
    ensures trace[i].publicFile.Some? ==> trace[j].publicFile == trace[i].publicFile
    decreases j
  {
    if i < j {
      FilesAreWriteOnce(trace, events, i, j - 1);
      RunKeeps(trace, events, j - 1);
      StepKeeps(trace[j - 1], events[j - 1]);
    }
  }

  /** Key files are only ever created in a directory that started without any, and the public
      file names the pair the private one already names. */
  lemma CreationStartsFromNothing(trace: seq<State>, events: seq<Event>, i: nat)
    requires IsRun(trace, events) && i < |events| && (events[i].RenamePrivate? || events[i].RenamePublic?)
    ensures trace[0].publicFile.None? && (events[i].RenamePrivate? ==> trace[0].privateFile.None?)
    ensures events[i].RenamePublic? ==> trace[i + 1].privateFile == trace[i + 1].publicFile
  {
    RunKeeps(trace, events, i);
    assert CallerSound(trace[i], trace[i].callers[events[i].p]);
    FilesAreWriteOnce(trace, events, 0, i);
  }

  /** At most one pair is ever created. */
  lemma AtMostOneCreation(trace: seq<State>, events: seq<Event>, i: nat, j: nat)
    requires IsRun(trace, events) && i < j < |events|
    ensures !(events[i].RenamePrivate? && events[j].RenamePrivate?)
    ensures events[i].RenamePublic? ==> !events[j].RenamePrivate? && !events[j].RenamePublic?
  {
    RunKeeps(trace, events, j);
    FilesAreWriteOnce(trace, events, i + 1, j);
    if events[j].RenamePrivate? || events[j].RenamePublic? {
      assert CallerSound(trace[j], trace[j].callers[events[j].p]);
    }
  }

  predicate ReturnsKey(s: State, p: nat, key: Key) {
    p < |s.callers| && s.callers[p] == Finished(Returned(key))
  }

  /** Every caller that returns gets the pair on disk, so all of them get the same one,
      whenever they return. */
  lemma ReturnsAgree(trace: seq<State>, events: seq<Event>, i: nat, j: nat, p: nat, q: nat, k: Key, l: Key)
    requires IsRun(trace, events) && i <= j < |trace|
    requires ReturnsKey(trace[i], p, k) && ReturnsKey(trace[j], q, l)
    ensures k == l && trace[j].privateFile == trace[j].publicFile == Some(k)
  {
    RunKeeps(trace, events, i);
    RunKeeps(trace, events, j);
    assert CallerSound(trace[i], trace[i].callers[p]) && CallerSound(trace[j], trace[j].callers[q]);
    FilesAreWriteOnce(trace, events, i, j);
  }

  /** A refusal decided under the lock is the truth: half a pair is there, and no caller is
      about to complete it. */
  lemma LockedRefusalIsTrue(trace: seq<State>, events: seq<Event>, i: nat)
    requires IsRun(trace, events) && i < |events| && events[i].Judge?
    requires trace[i + 1].callers[events[i].p] == Releasing(Refused)
    ensures trace[i].privateFile.Some? != trace[i].publicFile.Some?
    ensures forall q | 0 <= q < |trace[i].callers| :: !trace[i].callers[q].RenamedPrivate?
  {
    RunKeeps(trace, events, i);
    var p := events[i].p;
    assert CallerSound(trace[i], trace[i].callers[p]);
    forall q | 0 <= q < |trace[i].callers|
      ensures !trace[i].callers[q].RenamedPrivate?
    {
      if q < p || p < q {
        assert trace[i].callers[p].Holds();
        assert !trace[i].callers[q].Holds();
      }
    }
  }

  lemma Extend(trace: seq<State>, events: seq<Event>, e: Event) returns (trace': seq<State>, events': seq<Event>)
    requires IsRun(trace, events) && Enabled(trace[|events|], e)
    ensures IsRun(trace', events') && |events'| == |events| + 1 && trace'[|events'|] == Step(trace[|events|], e)
  {
    trace', events' := trace + [Step(trace[|events|], e)], events + [e];
  }

  /** One caller has taken the lock of an empty directory. */
  lemma TakesTheLock() returns (trace: seq<State>, events: seq<Event>)
    ensures IsRun(trace, events) && trace[|events|] == State(None, None, true, [Looking(None, None, true)])
  {
    trace, events := [State(None, None, false, [])], [];
    trace, events := Extend(trace, events, Call);
    trace, events := Extend(trace, events, SeePrivate(0));
    trace, events := Extend(trace, events, SeePublic(0));
    trace, events := Extend(trace, events, Judge(0, 7));
    trace, events := Extend(trace, events, TryLock(0));
  }

  /** It is between its two renames while a second caller arrives. */
  lemma BetweenRenames() returns (trace: seq<State>, events: seq<Event>)
    ensures IsRun(trace, events)
    ensures trace[|events|] == State(Some(7), None, true, [RenamedPrivate(7), Looking(None, None, false)])
  {
    trace, events := TakesTheLock();
    trace, events := Extend(trace, events, SeePrivate(0));
    trace, events := Extend(trace, events, SeePublic(0));
    trace, events := Extend(trace, events, Judge(0, 7));
    trace, events := Extend(trace, events, RenamePrivate(0));
    trace, events := Extend(trace, events, Call);
  }

  /** The second caller has looked at both paths. */
  lemma LookedBetweenRenames() returns (trace: seq<State>, events: seq<Event>)
    ensures IsRun(trace, events)
    ensures trace[|events|] == State(Some(7), None, true, [RenamedPrivate(7), CheckingLock])
  {
    trace, events := BetweenRenames();
    trace, events := Extend(trace, events, SeePrivate(1));
    trace, events := Extend(trace, events, SeePublic(1));
    trace, events := Extend(trace, events, Judge(1, 0));
  }

  /** A refusal decided without the lock can be wrong: a caller that looked between the two
      renames, and looks for the lock only after it is gone, refuses a complete pair. */
  lemma UnlockedRefusalCanBeFalse() returns (trace: seq<State>, events: seq<Event>)
    ensures IsRun(trace, events)
    ensures trace[|events|] == State(Some(7), Some(7), false, [Finished(Returned(7)), Finished(Refused)])
  {
    trace, events := LookedBetweenRenames();
    trace, events := Extend(trace, events, RenamePublic(0));
    trace, events := Extend(trace, events, ReadPrivate(0));
    trace, events := Extend(trace, events, ReadPublic(0));
    trace, events := Extend(trace, events, Validate(0));
    assert trace[|events|] == State(Some(7), Some(7), true, [Releasing(Returned(7)), CheckingLock]);
    trace, events := Extend(trace, events, Unlock(0, true, true));
    trace, events := Extend(trace, events, CheckLock(1));
  }

  // --- When an unlocked refusal is true -----------------------------------

  /** What a caller has seen missing was missing in `start` already. */
  predicate SawMissing(start: State, pc: Caller) {
    match pc
    case Looking(a, b, _) => (a == Some(false) ==> start.privateFile.None?) && (b == Some(false) ==> start.publicFile.None?)
    case CheckingLock => start.privateFile.None? || start.publicFile.None?
    case _ => true
  }

  lemma SawMissingStep(start: State, s: State, e: Event, p: nat)
    requires Enabled(s, e) && p < |s.callers| && SawMissing(start, s.callers[p])
    requires start.privateFile.Some? ==> s.privateFile.Some?
    requires start.publicFile.Some? ==> s.publicFile.Some?
    ensures p < |Step(s, e).callers| && SawMissing(start, Step(s, e).callers[p])
  {
  }

  lemma {:induction false} SawMissingSince(trace: seq<State>, events: seq<Event>, m: nat, t: nat, p: nat)
    requires IsRun(trace, events) && m <= t < |trace|
    requires p < |trace[m].callers| && trace[m].callers[p] == Looking(None, None, false)
    ensures p < |trace[t].callers| && SawMissing(trace[m], trace[t].callers[p])
    decreases t
  {
    if m < t {
      SawMissingSince(trace, events, m, t - 1, p);
      FilesAreWriteOnce(trace, events, m, t - 1);
      SawMissingStep(trace[m], trace[t - 1], events[t - 1], p);
    }
  }

  /** A file appears only by its own rename. */
  lemma {:induction false} AppearedByRename(trace: seq<State>, events: seq<Event>, m: nat, t: nat) returns (k: nat)
    requires IsRun(trace, events) && m < t < |trace|
    requires trace[m].privateFile.None? || trace[m].publicFile.None?
    requires trace[t].privateFile.Some? && trace[t].publicFile.Some?
    ensures m <= k < t && events[k].RenamePublic?
    decreases t
  {
    RunKeeps(trace, events, t - 1);
    var s, e := trace[t - 1], events[t - 1];
    if s.privateFile.Some? && s.publicFile.Some? {
      k := AppearedByRename(trace, events, m, t - 1);
    } else {
      LastPiece(s, e);
      k := t - 1;
    }
  }

  /** The last of the two files to appear is the public one. */
  lemma LastPiece(s: State, e: Event)
    requires Inv(s) && Enabled(s, e) && !(s.privateFile.Some? && s.publicFile.Some?)
    requires Step(s, e).privateFile.Some? && Step(s, e).publicFile.Some?
    ensures e.RenamePublic?
  {
    if !e.Call? {
      assert CallerSound(s, s.callers[e.p]);
    }
  }

  /** At `m` caller `p` begins a round of looks, and the lock check at `i` refuses it. */
  ghost predicate RefusedAfter(trace: seq<State>, events: seq<Event>, m: nat, i: nat, p: nat) {
    && IsRun(trace, events) && m < i < |events| && p < |trace[m].callers|
    && trace[m].callers[p] == Looking(None, None, false) && (events[m] == SeePrivate(p) || events[m] == SeePublic(p))
    && events[i] == CheckLock(p) && trace[i + 1].callers[p] == Finished(Refused)
  }

  /** A refusal decided without the lock is made over a complete pair exactly when somebody
      completed the pair after the refused caller began to look. */
  lemma UnlockedRefusalIsFalseExactlyWhenOvertaken(trace: seq<State>, events: seq<Event>, m: nat, i: nat, p: nat)
    requires RefusedAfter(trace, events, m, i, p)
    ensures trace[i].privateFile.Some? && trace[i].publicFile.Some? <==> exists k :: m < k < i && events[k].RenamePublic?
    ensures trace[i].privateFile.Some? || trace[i].publicFile.Some?
  {
    SawMissingSince(trace, events, m, i, p);
    RunKeeps(trace, events, i);
    assert CallerSound(trace[i], trace[i].callers[p]);
    if trace[i].privateFile.Some? && trace[i].publicFile.Some? {
      var k := AppearedByRename(trace, events, m, i);
    }
    if k :| m < k < i && events[k].RenamePublic? {
      RunKeeps(trace, events, k);
      assert CallerSound(trace[k], trace[k].callers[events[k].p]);
      FilesAreWriteOnce(trace, events, k + 1, i);
    }
  }

  /** So if nobody held the lock from the first look to the refusal, half a pair really was there. */
  lemma RefusalOverAFreeLockIsTrue(trace: seq<State>, events: seq<Event>, m: nat, i: nat, p: nat)
    requires RefusedAfter(trace, events, m, i, p) && forall t | m <= t <= i :: !trace[t].lock
    ensures trace[i].privateFile.Some? != trace[i].publicFile.Some?
  {
    UnlockedRefusalIsFalseExactlyWhenOvertaken(trace, events, m, i, p);
    forall k | m < k < i
      ensures !events[k].RenamePublic?
    {
      if events[k].RenamePublic? {
        RenamesUnderLock(trace, events, k);
      }
    }
  }

  lemma RenamesUnderLock(trace: seq<State>, events: seq<Event>, k: nat)
    requires IsRun(trace, events) && k < |events| && (events[k].RenamePrivate? || events[k].RenamePublic?)
    ensures trace[k].lock
  {
    RunKeeps(trace, events, k);
    assert trace[k].callers[events[k].p].Holds();
  }

  // --- One caller on its own ---------------------------------------------

  class KeyDirectory {
    var privateFile: Option<Key>
    var publicFile: Option<Key>
    var lock: bool

    constructor ()
      ensures privateFile.None? && publicFile.None? && !lock
    {
      privateFile, publicFile, lock := None, None, false;
    }

    method LoadExisting() returns (outcome: Outcome)
      ensures outcome == if privateFile.Some? && privateFile == publicFile then Returned(privateFile.value) else Threw
    {
      if privateFile.None? || publicFile.None? || privateFile.value != publicFile.value { return Threw; }
      outcome := Returned(privateFile.value);
    }

    /** Tries for the lock until the deadline, here a number of attempts. */
    method AcquireInitializationLock(attempts: nat) returns (ok: bool)
      modifies this`lock
      ensures ok == (attempts > 0 && !old(lock)) && lock == (old(lock) || ok)
    {
      ok := false;
      for i := 0 to attempts
        invariant !ok && lock == old(lock)
        invariant i > 0 ==> lock
      {
        if !lock {
          lock := true;
          return true;
        }
      }
    }

    /** An undisturbed call: loads a complete pair, refuses half of one, and otherwise creates
        the generated pair, unless an abandoned lock makes it time out; the lock it took is
        gone afterwards. */
    method LoadOrCreateReceiptKeyPair(generated: Key, attempts: nat) returns (outcome: Outcome)
      modifies this
      ensures lock == old(lock)
      ensures old(privateFile.None? && publicFile.None? && !lock) && attempts > 0 ==>
                outcome == Returned(generated) && privateFile == publicFile == Some(generated)
      ensures !(old(privateFile.None? && publicFile.None? && !lock) && attempts > 0) ==>
                privateFile == old(privateFile) && publicFile == old(publicFile)
      ensures old(privateFile.Some? && publicFile.Some?) ==>
                outcome == if old(privateFile == publicFile) then Returned(old(privateFile.value)) else Threw
      ensures old(privateFile.Some? != publicFile.Some?) ==> outcome == if old(lock) then Threw else Refused
      ensures old(privateFile.None? && publicFile.None? && (lock || attempts == 0)) ==> outcome == Threw
    {
      if privateFile.Some? && publicFile.Some? {
        outcome := LoadExisting();
        return;
      }
      if privateFile.Some? || publicFile.Some? {
        return if lock then Threw else Refused;
      }
      var acquired := AcquireInitializationLock(attempts);
      if !acquired { return Threw; }
      privateFile := Some(generated);
      publicFile := Some(generated);
      outcome := LoadExisting();
      lock := false;
    }
  }
}
