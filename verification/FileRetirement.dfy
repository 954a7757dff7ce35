/** Permanent retirement of storage keys (src/retention/file-deletions.ts). An object is removed outside any
  * transaction and a timed-out removal may finish much later, so the key is fenced first; database triggers
  * refuse a reference to a fenced key (prisma/migrations/20261006230000_storage_deletion_fence). */
module FileRetirement {
  import opened Wrappers

  datatype Status = Waiting | Exhausted | Unknown | Invalid

  /** What is remembered about one file: how much of its budget is spent. */
  datatype FileState = FileState(attempts: nat, status: Status, nextAt: int)

  datatype Phase = Fencing | Removing | Awaiting | Finalizing

  /** The file the sweep works on. `intent` numbers the deletion intents of a key. */
  datatype Attempt = Attempt(key: nat, intent: nat, attempts: nat, phase: Phase)

  datatype Call = Call(key: nat, intent: nat)

  datatype State = State(now: int, intents: map<nat, nat>, issued: nat, files: map<nat, FileState>, fences: set<nat>,
    references: map<nat, nat>, removed: set<nat>, underway: set<nat>, current: Option<Attempt>, calls: seq<Call>)

  datatype Event =
    | Tick(ms: nat)
    | Queue(key: nat)
    | Refer(record: nat, key: nat)
    | Forget(record: nat)
    | Examine(key: nat)
    | ReadFails(key: nat)
    | Damaged(key: nat)
    | Fence(write: Write)
    | Remove
    | Returns
    | Throws
    | TimesOut
    | Lands(key: nat)
    | Finalize(write: Write)
    | Crash

  const BUDGET: nat := 3
  const RETRY_MS: int := 60_000

  predicate Referenced(s: State, key: nat) { exists r :: r in s.references && s.references[r] == key }

  function QueueKey(s: State, key: nat): State {
    if key in s.intents then s else s.(intents := s.intents[key := s.issued], issued := s.issued + 1)
  }

  /** The trigger serializes with the fence: a reference to a fenced key is refused. */
  function AddReference(s: State, record: nat, key: nat): State {
    if key in s.fences then s else s.(references := s.references[record := key])
  }

  function Saved(s: State, key: nat): FileState {
    if key in s.files then s.files[key] else FileState(0, Waiting, 0)
  }

  /** The budget is spent and saved before any work. */
  function ExamineKey(s: State, key: nat): State {
    if s.current.Some? || key !in s.intents then s
    else
      var f := Saved(s, key);
      if f.status != Waiting || f.nextAt > s.now then s
      else if f.attempts + 1 > BUDGET then s.(files := s.files[key := FileState(BUDGET, Exhausted, s.now + RETRY_MS)])
      else
        s.(files := s.files[key := FileState(f.attempts + 1, Waiting, s.now + RETRY_MS)],
           current := Some(Attempt(key, s.intents[key], f.attempts + 1, Fencing)))
  }

  /** A failure before the record is parsed marks the file for review, with an empty budget. */
  function FailRead(s: State, key: nat): State {
    if s.current.Some? || key !in s.intents then s
    else s.(files := s.files[key := FileState(0, Invalid, s.now + RETRY_MS)])
  }

  /** A damaged deletion record is found after the state was read: the file is marked for review with what it had
    * spent. A state that is damaged itself is left as it is. */
  function MarkDamaged(s: State, key: nat): State {
    if s.current.Some? || key !in s.intents || Saved(s, key).status != Waiting || Saved(s, key).nextAt > s.now then s
    else s.(files := s.files[key := FileState(Saved(s, key).attempts, Invalid, s.now + RETRY_MS)])
  }

  /** A failed attempt leaves the file waiting until its budget is spent. */
  function Left(s: State, a: Attempt, status: Status): State {
    var saved := if status == Waiting && a.attempts >= BUDGET then Exhausted else status;
    s.(files := s.files[a.key := FileState(a.attempts, saved, s.now + RETRY_MS)], current := None)
  }

  predicate InPhase(s: State, phase: Phase) { s.current.Some? && s.current.value.phase == phase }

  function FenceKey(s: State, write: Write): State {
    if !InPhase(s, Fencing) then s
    else
      var a := s.current.value;
      if write == NotWritten || a.key !in s.intents || Referenced(s, a.key) then Left(s, a, Waiting)
      else if write == WrittenUnheard then Left(s.(fences := s.fences + {a.key}), a, Waiting)
      else s.(fences := s.fences + {a.key}, current := Some(a.(phase := Removing)))
  }

  function CallRemove(s: State): State {
    if !InPhase(s, Removing) then s
    else
      var a := s.current.value;
      s.(calls := s.calls + [Call(a.key, a.intent)], underway := s.underway + {a.key}, current := Some(a.(phase := Awaiting)))
  }

  function RemoveReturns(s: State): State {
    if !InPhase(s, Awaiting) then s
    else s.(removed := s.removed + {s.current.value.key}, current := Some(s.current.value.(phase := Finalizing)))
  }

  /** An error or a timeout: the object may be gone, or may go later. A timed-out file is never tried again. */
  function RemoveFails(s: State, status: Status): State {
    if !InPhase(s, Awaiting) then s else Left(s, s.current.value, status)
  }

  function LandRemoval(s: State, key: nat): State {
    if key in s.underway then s.(removed := s.removed + {key}) else s
  }

  function FinalizeKey(s: State, write: Write): State {
    if !InPhase(s, Finalizing) then s
    else
      var a := s.current.value;
      var done := s.(intents := s.intents - {a.key}, files := s.files - {a.key}, current := None);
      match write
      case Written => done
      case WrittenUnheard => Left(done, a, Waiting)
      case NotWritten => Left(s, a, Waiting)
  }

  function Next(s: State, e: Event): State {
    match e
    case Tick(ms) => s.(now := s.now + ms)
    case Queue(key) => QueueKey(s, key)
    case Refer(record, key) => AddReference(s, record, key)
    case Forget(record) => s.(references := s.references - {record})
    case Examine(key) => ExamineKey(s, key)
    case ReadFails(key) => FailRead(s, key)
    case Damaged(key) => MarkDamaged(s, key)
    case Fence(write) => FenceKey(s, write)
    case Remove => CallRemove(s)
    case Returns => RemoveReturns(s)
    case Throws => RemoveFails(s, Waiting)
    case TimesOut => RemoveFails(s, Unknown)
    case Lands(key) => LandRemoval(s, key)
    case Finalize(write) => FinalizeKey(s, write)
    case Crash => s.(current := None)
  }

  function Run(s: State, events: seq<Event>): State {
    if events == [] then s else Next(Run(s, events[..|events| - 1]), events[|events| - 1])
  }

  const Start: State := State(0, map[], 0, map[], {}, map[], {}, {}, None, [])

  // ----- Safety -------------------------------------------------------------

  /** Everything removed, or that may still be removed, is fenced; nothing refers to a fenced key. */
  predicate Guarded(s: State) {
    && s.removed <= s.fences && s.underway <= s.fences
    && (s.current.Some? && s.current.value.phase != Fencing ==> s.current.value.key in s.fences)
    && forall r :: r in s.references ==> s.references[r] !in s.fences
  }

  function CallsOf(calls: seq<Call>, key: nat, intent: nat): nat {
    if calls == [] then 0
    else CallsOf(calls[..|calls| - 1], key, intent) + if calls[|calls| - 1] == Call(key, intent) then 1 else 0
  }

  /** The calls made for an intent are within what its file remembers as spent, or it will not be tried again. */
  predicate Spent(s: State, key: nat)
    requires key in s.intents
  {
    var intent := s.intents[key];
    && intent < s.issued
    && (s.current.None? || s.current.value.key != key || s.current.value.intent != intent ==>
          Saved(s, key).status == Waiting ==> CallsOf(s.calls, key, intent) <= Saved(s, key).attempts)
  }

  predicate CurrentOk(s: State) {
    s.current.Some? ==>
      var a := s.current.value;
      && a.key in s.intents && s.intents[a.key] == a.intent
      && 1 <= a.attempts <= BUDGET && a.key in s.files && s.files[a.key].attempts == a.attempts
      && CallsOf(s.calls, a.key, a.intent) <= (if a.phase == Fencing || a.phase == Removing then a.attempts - 1 else a.attempts)
  }

  predicate WithinBudget(s: State, key: nat, intent: nat) {
    CallsOf(s.calls, key, intent) <= BUDGET && (intent >= s.issued ==> CallsOf(s.calls, key, intent) == 0)
  }

  ghost predicate Inv(s: State) {
    && Guarded(s) && CurrentOk(s)
    && (forall key :: key in s.files ==> s.files[key].attempts <= BUDGET)
    && (forall key :: key in s.intents ==> Spent(s, key))
    && (forall key, intent :: WithinBudget(s, key, intent))
  }

  lemma OneMoreCall(calls: seq<Call>, call: Call, key: nat, intent: nat)
    ensures CallsOf(calls + [call], key, intent) == CallsOf(calls, key, intent) + if call == Call(key, intent) then 1 else 0
  {
    assert (calls + [call])[..|calls|] == calls;
  }

  /** Steps that call nothing and leave the intents of other keys alone. */
  lemma QuietInv(s: State, s': State)
    requires Inv(s) && Guarded(s') && CurrentOk(s') && s'.calls == s.calls && s'.issued >= s.issued
    requires forall key :: key in s'.files ==> s'.files[key].attempts <= BUDGET
    requires forall key :: key in s'.intents ==> Spent(s', key)
    ensures Inv(s')
  {
    forall key, intent ensures WithinBudget(s', key, intent) { assert WithinBudget(s, key, intent); }
  }

  lemma SpentStays(s: State, s': State, key: nat)
    requires key in s.intents && key in s'.intents && Spent(s, key) && s'.intents[key] == s.intents[key]
    requires s'.calls == s.calls && s'.issued >= s.issued && Saved(s', key) == Saved(s, key)
    requires s.current.Some? && s.current.value.key == key ==>
               s'.current.Some? && s'.current.value.key == key && s'.current.value.intent == s.current.value.intent
    ensures Spent(s', key)
  {
  }

  lemma LeftInv(s: State, status: Status)
    requires Inv(s) && s.current.Some?
    ensures Inv(Left(s, s.current.value, status))
  {
    var s' := Left(s, s.current.value, status);
    forall key | key in s'.intents ensures Spent(s', key) {
      assert Spent(s, key);
      if key != s.current.value.key { SpentStays(s, s', key); }
    }
    QuietInv(s, s');
  }

  /** The state of a single file changes while nothing is in progress; its calls stay covered. */
  lemma SpentStaysIdle(s: State, s': State, key: nat, k: nat)
    requires k in s.intents && Spent(s, k) && s.current.None? && s'.intents == s.intents && s'.calls == s.calls
    requires s'.issued == s.issued && s'.current.None?
    requires k != key ==> Saved(s', k) == Saved(s, k)
    requires Saved(s', key).status == Waiting ==>
               Saved(s, key).status == Waiting && Saved(s', key).attempts >= Saved(s, key).attempts
    ensures Spent(s', k)
  {
  }

  lemma ExamineInv(s: State, key: nat)
    requires Inv(s)
    ensures Inv(ExamineKey(s, key))
  {
    hide CallsOf, Referenced, WithinBudget;
    var s' := ExamineKey(s, key);
    if s'.current != s.current {
      assert Spent(s, key);
      forall k | k in s.intents ensures Spent(s', k) {
        assert Spent(s, k);
      }
      QuietInv(s, s');
    } else if s' != s {
      MarkInv(s, key, BUDGET, Exhausted);
    }
  }

  /** A file that is given up, or left for review, while nothing is in progress. */
  lemma MarkInv(s: State, key: nat, attempts: nat, status: Status)
    requires Inv(s) && s.current.None? && key in s.intents && attempts <= BUDGET && status != Waiting
    ensures Inv(s.(files := s.files[key := FileState(attempts, status, s.now + RETRY_MS)]))
  {
    hide CallsOf, Referenced, WithinBudget, Spent;
    var s' := s.(files := s.files[key := FileState(attempts, status, s.now + RETRY_MS)]);
    forall k | k in s.intents ensures Spent(s', k) { SpentStaysIdle(s, s', key, k); }
    QuietInv(s, s');
  }

  lemma FailReadInv(s: State, key: nat)
    requires Inv(s)
    ensures Inv(FailRead(s, key))
  {
    hide Inv;
    if s.current.None? && key in s.intents { MarkInv(s, key, 0, Invalid); }
  }

  lemma MarkDamagedInv(s: State, key: nat)
    requires Inv(s)
    ensures Inv(MarkDamaged(s, key))
  {
    if MarkDamaged(s, key) != s { MarkInv(s, key, Saved(s, key).attempts, Invalid); }
  }

  lemma QueueInv(s: State, key: nat)
    requires Inv(s)
    ensures Inv(QueueKey(s, key))
  {
    if key !in s.intents {
      var s' := QueueKey(s, key);
      assert WithinBudget(s, key, s.issued);
      forall k | k in s'.intents ensures Spent(s', k) { if k != key { assert Spent(s, k); } }
      QuietInv(s, s');
    }
  }

  lemma FenceInv(s: State, write: Write)
    requires Inv(s)
    ensures Inv(FenceKey(s, write))
  {
    if InPhase(s, Fencing) {
      var a := s.current.value;
      LeftInv(s, Waiting);
      if !Referenced(s, a.key) {
        var fenced := s.(fences := s.fences + {a.key});
        forall k | k in s.intents ensures Spent(fenced, k) { assert Spent(s, k); }
        QuietInv(s, fenced);
        LeftInv(fenced, Waiting);
        var removing := fenced.(current := Some(a.(phase := Removing)));
        forall k | k in s.intents ensures Spent(removing, k) { assert Spent(s, k); }
        QuietInv(s, removing);
      }
    }
  }

  lemma RemoveInv(s: State)
    requires Inv(s)
    ensures Inv(CallRemove(s))
  {
    if InPhase(s, Removing) {
      var a, s' := s.current.value, CallRemove(s);
      assert Spent(s, a.key);
      forall key, intent ensures WithinBudget(s', key, intent) {
        assert WithinBudget(s, key, intent);
        OneMoreCall(s.calls, Call(a.key, a.intent), key, intent);
      }
      forall k | k in s'.intents ensures Spent(s', k) {
        assert Spent(s, k);
        OneMoreCall(s.calls, Call(a.key, a.intent), k, s.intents[k]);
      }
      OneMoreCall(s.calls, Call(a.key, a.intent), a.key, a.intent);
    }
  }

  lemma FinalizeInv(s: State, write: Write)
    requires Inv(s)
    ensures Inv(FinalizeKey(s, write))
  {
    if InPhase(s, Finalizing) {
      var a := s.current.value;
      LeftInv(s, Waiting);
      var done := s.(intents := s.intents - {a.key}, files := s.files - {a.key}, current := None);
      forall k | k in done.intents ensures Spent(done, k) { assert Spent(s, k); }
      QuietInv(s, done);
      var unheard := Left(done, a, Waiting);
      forall k | k in unheard.intents ensures Spent(unheard, k) { assert Spent(done, k); }
      QuietInv(done, unheard);
    }
  }

  lemma CrashInv(s: State)
    requires Inv(s)
    ensures Inv(s.(current := None))
  {
    var s' := s.(current := None);
    forall k | k in s'.intents ensures Spent(s', k) { assert Spent(s, k); }
    QuietInv(s, s');
  }

  lemma OtherInv(s: State, e: Event)
    requires Inv(s) && (e.Tick? || e.Refer? || e.Forget? || e.Returns? || e.Lands?)
    ensures Inv(Next(s, e))
  {
    hide CallsOf, Referenced, WithinBudget, Spent;
    var s' := Next(s, e);
    forall k | k in s'.intents ensures Spent(s', k) { SpentStays(s, s', k); }
    QuietInv(s, s');
  }

  lemma NextInv(s: State, e: Event)
    requires Inv(s)
    ensures Inv(Next(s, e))
  {
    hide Inv;
    match e {
      case Queue(key) => QueueInv(s, key);
      case Examine(key) => ExamineInv(s, key);
      case ReadFails(key) => FailReadInv(s, key);
      case Damaged(key) => MarkDamagedInv(s, key);
      case Fence(write) => FenceInv(s, write);
      case Remove => RemoveInv(s);
      case Throws => if InPhase(s, Awaiting) { LeftInv(s, Waiting); }
      case TimesOut => if InPhase(s, Awaiting) { LeftInv(s, Unknown); }
      case Finalize(write) => FinalizeInv(s, write);
      case Crash => CrashInv(s);
      case _ => OtherInv(s, e);
    }
  }

  lemma {:induction false} RunInv(events: seq<Event>)
    ensures Inv(Run(Start, events))
  {
    if events != [] {
      RunInv(events[..|events| - 1]);
      NextInv(Run(Start, events[..|events| - 1]), events[|events| - 1]);
    }
  }

  /** No record ever refers to an object that is removed, or whose removal may still finish. */
  lemma NoReferenceToRemoved(events: seq<Event>, record: nat)
    requires record in Run(Start, events).references
    ensures var s := Run(Start, events); s.references[record] !in s.removed && s.references[record] !in s.underway
  {
    RunInv(events);
  }

  /** Each intent costs at most three removal calls, across crashes, lost replies and failed writes. */
  lemma ThreeCallsPerIntent(events: seq<Event>, key: nat, intent: nat)
    ensures CallsOf(Run(Start, events).calls, key, intent) <= 3
  {
    RunInv(events);
    assert WithinBudget(Run(Start, events), key, intent);
  }

  lemma FencesGrow(s: State, e: Event)
    ensures s.fences <= Next(s, e).fences
  {
  }

  /** Retirement is permanent: a key that was ever fenced is never referred to again. */
  lemma {:induction false} FencedForever(before: seq<Event>, more: seq<Event>, key: nat)
    requires key in Run(Start, before).fences
    ensures key in Run(Start, before + more).fences && !Referenced(Run(Start, before + more), key)
  {
    RunInv(before + more);
    if more == [] {
      assert before + more == before;
    } else {
      var front := more[..|more| - 1];
      FencedForever(before, front, key);
      assert (before + more)[..|before + more| - 1] == before + front;
      FencesGrow(Run(Start, before + front), more[|more| - 1]);
    }
  }
}
