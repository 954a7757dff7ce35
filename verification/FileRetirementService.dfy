/** The sweep over deletion intents as it runs (src/retention/file-deletions.ts:22-122): state, fences and the
  * calls to storage change in place, one file after another. */
module FileRetirementService {
  import opened FileRetirement
  import opened Wrappers

  /** How the storage call of one file ends. */
  datatype Removal = Gone | Threw | TimedOut

  /** What the sweep finds stored for a file: its rows cannot be read, its state or its record is damaged. */
  datatype Stored = Sound | Unreadable | BadState | BadRecord

  /** What one file meets: what is stored, and the outcome of its fence, of its removal and of its final write. */
  datatype Trial = Trial(key: nat, stored: Stored, fence: Write, removal: Removal, finalWrite: Write)

  function RemovalEvent(removal: Removal): Event {
    match removal
    case Gone => Returns
    case Threw => Throws
    case TimedOut => TimesOut
  }

  /** The events of one file; those after the one that ended its attempt change nothing. */
  function Swept(s: State, t: Trial): State {
    match t.stored
    case Unreadable => Next(s, ReadFails(t.key))
    case BadState => s
    case BadRecord => Next(s, Damaged(t.key))
    case Sound =>
      Next(Next(Next(Next(Next(s, Examine(t.key)), Fence(t.fence)), Remove), RemovalEvent(t.removal)), Finalize(t.finalWrite))
  }

  function SweptAll(s: State, trials: seq<Trial>): State {
    if trials == [] then s else Swept(SweptAll(s, trials[..|trials| - 1]), trials[|trials| - 1])
  }

  lemma SweptInv(s: State, t: Trial)
    requires Inv(s)
    ensures Inv(Swept(s, t))
  {
    hide Inv, Next;
    var examined := Next(s, Examine(t.key));
    var fenced := Next(examined, Fence(t.fence));
    var called := Next(fenced, Remove);
    NextInv(s, ReadFails(t.key));
    NextInv(s, Damaged(t.key));
    NextInv(s, Examine(t.key));
    NextInv(examined, Fence(t.fence));
    NextInv(fenced, Remove);
    NextInv(called, RemovalEvent(t.removal));
    NextInv(Next(called, RemovalEvent(t.removal)), Finalize(t.finalWrite));
  }

  /** The rest of a file's events do nothing once its attempt has ended. */
  lemma NothingLeft(s: State, t: Trial)
    requires s.current.None?
    ensures Next(s, Fence(t.fence)) == s && Next(s, Remove) == s
    ensures Next(s, RemovalEvent(t.removal)) == s && Next(s, Finalize(t.finalWrite)) == s
  {
  }

  class Retention {
    var now: int
    var intents: map<nat, nat>
    var issued: nat
    var files: map<nat, FileState>
    var fences: set<nat>
    var references: map<nat, nat>
    var removed: set<nat>
    var underway: set<nat>
    var calls: seq<Call>
    var current: Option<Attempt>

    function State(): FileRetirement.State
      reads this
    {
      FileRetirement.State(now, intents, issued, files, fences, references, removed, underway, current, calls)
    }

    constructor ()
      ensures State() == Start
    {
      now, intents, issued, files, fences, references, removed, underway := 0, map[], 0, map[], {}, map[], {}, {};
      current, calls := None, [];
    }

    method QueueFileDeletion(key: nat)
      modifies this`intents, this`issued
      ensures State() == Next(old(State()), Queue(key))
    {
      if key in intents { return; }
      intents := intents[key := issued];
      issued := issued + 1;
    }

    /** The trigger on the tables that hold storage keys. */
    method InsertReference(record: nat, key: nat) returns (ok: bool)
      modifies this`references
      ensures State() == Next(old(State()), Refer(record, key)) && (ok <==> key !in fences)
    {
      if key in fences { return false; }
      references := references[record := key];
      return true;
    }

    /** Save what is left of the file's budget and leave the file. */
    method SaveState(status: Status)
      requires current.Some?
      modifies this`files, this`current
      ensures State() == Left(old(State()), old(current).value, status)
    {
      var a := current.value;
      var saved := if status == Waiting && a.attempts >= BUDGET then Exhausted else status;
      files := files[a.key := FileState(a.attempts, saved, now + RETRY_MS)];
      current := None;
    }

    method ExamineFile(key: nat)
      requires current.None?
      modifies this`files, this`current
      ensures State() == Next(old(State()), Examine(key))
      ensures current.Some? ==> current.value.phase == Fencing
    {
      if key !in intents { return; }
      var state := if key in files then files[key] else FileState(0, Waiting, 0);
      if state.status != Waiting || state.nextAt > now { return; }
      var attempts := state.attempts + 1;
      if attempts > BUDGET {
        files := files[key := FileState(BUDGET, Exhausted, now + RETRY_MS)];
        return;
      }
      // The budget is saved before any work.
      files := files[key := FileState(attempts, Waiting, now + RETRY_MS)];
      current := Some(Attempt(key, intents[key], attempts, Fencing));
    }

    /** The reference check and the fence are one transaction under the key's lock. */
    method FenceFile(write: Write)
      requires current.Some? && current.value.phase == Fencing
      modifies this`files, this`fences, this`current
      ensures State() == Next(old(State()), Fence(write))
      ensures current.Some? ==> current.value.phase == Removing
    {
      var a := current.value;
      if write == NotWritten || a.key !in intents || exists r :: r in references && references[r] == a.key {
        SaveState(Waiting);
        return;
      }
      fences := fences + {a.key};
      if write == WrittenUnheard {
        SaveState(Waiting);
        return;
      }
      current := Some(a.(phase := Removing));
    }

    method RemoveFile(removal: Removal)
      requires current.Some? && current.value.phase == Removing
      modifies this`files, this`removed, this`underway, this`calls, this`current
      ensures State() == Next(Next(old(State()), Remove), RemovalEvent(removal))
      ensures current.Some? ==> current.value.phase == Finalizing
    {
      var a := current.value;
      calls := calls + [Call(a.key, a.intent)];
      underway := underway + {a.key};
      match removal {
        case Gone =>
          removed := removed + {a.key};
          current := Some(a.(phase := Finalizing));
        case Threw => SaveState(Waiting);
        case TimedOut => SaveState(Unknown);
      }
    }

    method FinalizeFile(write: Write)
      requires current.Some? && current.value.phase == Finalizing
      modifies this`intents, this`files, this`current
      ensures State() == Next(old(State()), Finalize(write))
      ensures current.None?
    {
      var a := current.value;
      if write != NotWritten {
        intents := intents - {a.key};
        files := files - {a.key};
      }
      if write == Written { current := None; } else { SaveState(Waiting); }
    }

    /** A file without a sound state and record is marked for review, or left as it is. */
    method MarkForReview(key: nat, stateRead: bool)
      requires current.None?
      modifies this`files
      ensures State() == Next(old(State()), if stateRead then Damaged(key) else ReadFails(key))
    {
      if key !in intents { return; }
      var state := if stateRead && key in files then files[key] else FileState(0, Waiting, 0);
      if state.status != Waiting || (stateRead && state.nextAt > now) { return; }
      files := files[key := FileState(state.attempts, Invalid, now + RETRY_MS)];
    }

    method DrainSound(t: Trial)
      requires current.None? && t.stored == Sound
      modifies this`intents, this`files, this`fences, this`removed, this`underway, this`calls, this`current
      ensures State() == Swept(old(State()), t) && current.None?
    {
      hide Next;
      ExamineFile(t.key);
      if current.None? { NothingLeft(State(), t); return; }
      FenceFile(t.fence);
      if current.None? { NothingLeft(State(), t); return; }
      RemoveFile(t.removal);
      if current.None? { NothingLeft(State(), t); return; }
      FinalizeFile(t.finalWrite);
    }

    method DrainFile(t: Trial)
      requires current.None?
      modifies this`intents, this`files, this`fences, this`removed, this`underway, this`calls, this`current
      ensures State() == Swept(old(State()), t) && current.None?
    {
      hide Next;
      match t.stored {
        case Sound => DrainSound(t);
        case BadState =>
        case Unreadable => MarkForReview(t.key, false);
        case BadRecord => MarkForReview(t.key, true);
      }
    }

    method DrainFileDeletions(trials: seq<Trial>)
      requires Inv(State()) && current.None?
      modifies this`intents, this`files, this`fences, this`removed, this`underway, this`calls, this`current
      ensures Inv(State()) && State() == SweptAll(old(State()), trials)
    {
      for i := 0 to |trials|
        invariant Inv(State()) && current.None? && State() == SweptAll(old(State()), trials[..i])
      {
        assert trials[..i + 1][..i] == trials[..i];
        SweptInv(State(), trials[i]);
        DrainFile(trials[i]);
      }
      assert trials[..|trials|] == trials;
    }
  }
}
