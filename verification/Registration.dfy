/** Registering incidents (src/incidents/incident.service.ts:176-238, src/incidents/incident.repository.ts:31-52):
  * the daily quota and the public number, with the statements of parallel transactions interleaved. A
  * transaction reads what is committed; it holds the requester's advisory lock and the counter's row until it ends. */
module Registration {
  import Moscow
  import opened Wrappers

  datatype Incident = Incident(requester: nat, at: int, number: nat)

  datatype Phase = Waiting | Locked(at: int) | Counted(at: int) | Numbered(at: int, number: nat)

  datatype Tx = Tx(requester: nat, phase: Phase)

  /** `limit` is the configured daily limit. */
  datatype State = State(limit: nat, now: int, incidents: seq<Incident>, counter: nat,
    locks: map<nat, nat>, counterLock: Option<nat>, txs: map<nat, Tx>)

  datatype Event =
    | Tick(ms: nat)
    | Begin(tx: nat, requester: nat)
    | Lock(tx: nat)
    | Count(tx: nat)
    | Number(tx: nat)
    | Commit(tx: nat)
    | Abort(tx: nat)

  const LAST_NUMBER: nat := 999_999

  /** Incidents of a requester registered on a day. */
  function CountOf(incidents: seq<Incident>, requester: nat, day: int): nat {
    if incidents == [] then 0
    else
      var last := incidents[|incidents| - 1];
      CountOf(incidents[..|incidents| - 1], requester, day) + if last.requester == requester && Moscow.DayOf(last.at) == day then 1 else 0
  }

  predicate At(s: State, tx: nat, phase: Phase) { tx in s.txs && s.txs[tx].phase == phase }

  function Moved(s: State, tx: nat, phase: Phase): State
    requires tx in s.txs
  {
    s.(txs := s.txs[tx := s.txs[tx].(phase := phase)])
  }

  /** The end of a transaction gives back its locks. */
  function Ended(s: State, tx: nat): State
    requires tx in s.txs
  {
    s.(txs := s.txs - {tx},
       locks := if s.txs[tx].requester in s.locks && s.locks[s.txs[tx].requester] == tx then s.locks - {s.txs[tx].requester} else s.locks,
       counterLock := if s.counterLock == Some(tx) then None else s.counterLock)
  }

  function LockTx(s: State, tx: nat): State {
    if !At(s, tx, Waiting) || s.txs[tx].requester in s.locks then s
    else Moved(s.(locks := s.locks[s.txs[tx].requester := tx]), tx, Locked(s.now))
  }

  /** The count is read once, of the day the transaction started in. */
  function CountTx(s: State, tx: nat): State {
    if tx !in s.txs || !s.txs[tx].phase.Locked? then s
    else
      var at := s.txs[tx].phase.at;
      if CountOf(s.incidents, s.txs[tx].requester, Moscow.DayOf(at)) >= s.limit then Ended(s, tx) else Moved(s, tx, Counted(at))
  }

  function NumberTx(s: State, tx: nat): State {
    if tx !in s.txs || !s.txs[tx].phase.Counted? || s.counterLock.Some? then s
    else if s.counter >= LAST_NUMBER then Ended(s, tx)
    else Moved(s.(counterLock := Some(tx)), tx, Numbered(s.txs[tx].phase.at, s.counter + 1))
  }

  function CommitTx(s: State, tx: nat): State {
    if tx !in s.txs || !s.txs[tx].phase.Numbered? then s
    else
      var t := s.txs[tx];
      Ended(s.(incidents := s.incidents + [Incident(t.requester, t.phase.at, t.phase.number)], counter := t.phase.number), tx)
  }

  function Next(s: State, e: Event): State {
    match e
    case Tick(ms) => s.(now := s.now + ms)
    case Begin(tx, requester) => if tx in s.txs then s else s.(txs := s.txs[tx := Tx(requester, Waiting)])
    case Lock(tx) => LockTx(s, tx)
    case Count(tx) => CountTx(s, tx)
    case Number(tx) => NumberTx(s, tx)
    case Commit(tx) => CommitTx(s, tx)
    case Abort(tx) => if tx in s.txs then Ended(s, tx) else s
  }

  function Start(limit: nat): State { State(limit, 0, [], 0, map[], None, map[]) }

  function Run(s: State, events: seq<Event>): State {
    if events == [] then s else Next(Run(s, events[..|events| - 1]), events[|events| - 1])
  }

  // ----- Every run ----------------------------------------------------------

  predicate TxOk(s: State, tx: nat)
    requires tx in s.txs
  {
    var t := s.txs[tx];
    && (!t.phase.Waiting? ==> t.requester in s.locks && s.locks[t.requester] == tx)
    && (t.phase.Counted? || t.phase.Numbered? ==> CountOf(s.incidents, t.requester, Moscow.DayOf(t.phase.at)) < s.limit)
    && (t.phase.Numbered? <==> s.counterLock == Some(tx))
    && (t.phase.Numbered? ==> t.phase.number == s.counter + 1 <= LAST_NUMBER)
  }

  predicate LockOk(s: State, requester: nat)
    requires requester in s.locks
  {
    var tx := s.locks[requester]; tx in s.txs && s.txs[tx].requester == requester && !s.txs[tx].phase.Waiting?
  }

  predicate WithinLimit(s: State, requester: nat, day: int) { CountOf(s.incidents, requester, day) <= s.limit }

  predicate NumberedInOrder(incidents: seq<Incident>, i: nat)
    requires i < |incidents|
  {
    incidents[i].number == i + 1
  }

  ghost predicate Inv(s: State) {
    && (forall tx :: tx in s.txs ==> TxOk(s, tx))
    && (forall requester :: requester in s.locks ==> LockOk(s, requester))
    && (s.counterLock.Some? ==> s.counterLock.value in s.txs)
    && s.counter == |s.incidents| <= LAST_NUMBER
    && (forall requester, day :: WithinLimit(s, requester, day))
    && (forall i :: 0 <= i < |s.incidents| ==> NumberedInOrder(s.incidents, i))
  }

  /** Steps that register nothing: what is left to show of the transactions and of their locks. */
  lemma QuietInv(s: State, s': State)
    requires Inv(s) && s'.incidents == s.incidents && s'.limit == s.limit && s'.counter == s.counter
    requires forall tx :: tx in s'.txs ==> TxOk(s', tx)
    requires forall r :: r in s'.locks ==> LockOk(s', r)
    requires s'.counterLock.Some? ==> s'.counterLock.value in s'.txs
    ensures Inv(s')
  {
    hide TxOk, LockOk;
    forall r, day ensures WithinLimit(s', r, day) { assert WithinLimit(s, r, day); }
    forall i | 0 <= i < |s'.incidents| ensures NumberedInOrder(s'.incidents, i) { assert NumberedInOrder(s.incidents, i); }
  }

  lemma EndedInv(s: State, tx: nat)
    requires Inv(s) && tx in s.txs
    ensures Inv(Ended(s, tx))
  {
    hide CountOf, WithinLimit, NumberedInOrder;
    var s' := Ended(s, tx);
    assert TxOk(s, tx);
    forall other | other in s'.txs ensures TxOk(s', other) { assert TxOk(s, other); }
    forall r | r in s'.locks ensures LockOk(s', r) { assert LockOk(s, r); }
    QuietInv(s, s');
  }

  lemma BeginInv(s: State, tx: nat, requester: nat)
    requires Inv(s)
    ensures Inv(Next(s, Begin(tx, requester)))
  {
    hide CountOf, WithinLimit, NumberedInOrder;
    var s' := Next(s, Begin(tx, requester));
    forall other | other in s'.txs ensures TxOk(s', other) { if other in s.txs { assert TxOk(s, other); } }
    forall r | r in s'.locks ensures LockOk(s', r) { assert LockOk(s, r); }
    QuietInv(s, s');
  }

  lemma LockInv(s: State, tx: nat)
    requires Inv(s)
    ensures Inv(LockTx(s, tx))
  {
    hide CountOf, WithinLimit, NumberedInOrder;
    var s' := LockTx(s, tx);
    forall other | other in s'.txs ensures TxOk(s', other) { assert TxOk(s, other); }
    forall r | r in s'.locks ensures LockOk(s', r) { if r in s.locks { assert LockOk(s, r); } }
    QuietInv(s, s');
  }

  lemma CountInv(s: State, tx: nat)
    requires Inv(s)
    ensures Inv(CountTx(s, tx))
  {
    hide CountOf, WithinLimit, NumberedInOrder, Ended;
    var s' := CountTx(s, tx);
    if tx in s.txs { EndedInv(s, tx); }
    if tx in s.txs && tx in s'.txs && s' == Moved(s, tx, s'.txs[tx].phase) {
      forall other | other in s'.txs ensures TxOk(s', other) { assert TxOk(s, other); }
      forall r | r in s'.locks ensures LockOk(s', r) { assert LockOk(s, r); }
      QuietInv(s, s');
    }
  }

  lemma NumberInv(s: State, tx: nat)
    requires Inv(s)
    ensures Inv(NumberTx(s, tx))
  {
    hide CountOf, WithinLimit, NumberedInOrder, Ended;
    var s' := NumberTx(s, tx);
    if tx in s.txs { EndedInv(s, tx); }
    if tx in s.txs && s.txs[tx].phase.Counted? && s.counterLock.None? && s.counter < LAST_NUMBER {
      forall other | other in s'.txs ensures TxOk(s', other) { assert TxOk(s, other); }
      forall r | r in s'.locks ensures LockOk(s', r) { assert LockOk(s, r); }
      QuietInv(s, s');
    }
  }

  lemma TickInv(s: State, ms: nat)
    requires Inv(s)
    ensures Inv(s.(now := s.now + ms))
  {
    hide CountOf, WithinLimit, NumberedInOrder;
    var s' := s.(now := s.now + ms);
    forall other | other in s'.txs ensures TxOk(s', other) { assert TxOk(s, other); }
    forall r | r in s'.locks ensures LockOk(s', r) { assert LockOk(s, r); }
    QuietInv(s, s');
  }

  lemma CountAppends(incidents: seq<Incident>, x: Incident, requester: nat, day: int)
    ensures CountOf(incidents + [x], requester, day)
         == CountOf(incidents, requester, day) + if x.requester == requester && Moscow.DayOf(x.at) == day then 1 else 0
  {
    assert (incidents + [x])[..|incidents|] == incidents;
  }

  /** A registration adds to its own requester's count only, and nobody else's transaction of that requester runs. */
  lemma CommitInv(s: State, tx: nat)
    requires Inv(s)
    ensures Inv(CommitTx(s, tx))
  {
    var s' := CommitTx(s, tx);
    if s' != s {
      var t := s.txs[tx];
      var x := Incident(t.requester, t.phase.at, t.phase.number);
      assert TxOk(s, tx);
      forall other | other in s'.txs ensures TxOk(s', other) {
        assert TxOk(s, other);
        if !s.txs[other].phase.Waiting? {
          assert s.txs[other].requester != t.requester;
          if s.txs[other].phase.Counted? { CountAppends(s.incidents, x, s.txs[other].requester, Moscow.DayOf(s.txs[other].phase.at)); }
        }
      }
      forall r | r in s'.locks ensures LockOk(s', r) { assert LockOk(s, r); }
      forall r, day ensures WithinLimit(s', r, day) {
        assert WithinLimit(s, r, day);
        CountAppends(s.incidents, x, r, day);
      }
      forall i | 0 <= i < |s'.incidents| ensures NumberedInOrder(s'.incidents, i) {
        if i < |s.incidents| { assert NumberedInOrder(s.incidents, i); }
      }
    }
  }

  lemma NextInv(s: State, e: Event)
    requires Inv(s)
    ensures Inv(Next(s, e)) && Next(s, e).limit == s.limit
  {
    hide Inv;
    match e {
      case Tick(ms) => TickInv(s, ms);
      case Begin(tx, requester) => BeginInv(s, tx, requester);
      case Lock(tx) => LockInv(s, tx);
      case Count(tx) => CountInv(s, tx);
      case Number(tx) => NumberInv(s, tx);
      case Commit(tx) => CommitInv(s, tx);
      case Abort(tx) => if tx in s.txs { EndedInv(s, tx); }
    }
  }

  lemma {:induction false} RunInv(limit: nat, events: seq<Event>)
    ensures Inv(Run(Start(limit), events)) && Run(Start(limit), events).limit == limit
  {
    if events != [] {
      hide Next;
      RunInv(limit, events[..|events| - 1]);
      NextInv(Run(Start(limit), events[..|events| - 1]), events[|events| - 1]);
    }
  }

  /** However submissions of one requester interleave, no day holds more than the limit. */
  lemma QuotaHolds(limit: nat, events: seq<Event>, requester: nat, day: int)
    ensures CountOf(Run(Start(limit), events).incidents, requester, day) <= limit
  {
    RunInv(limit, events);
    assert WithinLimit(Run(Start(limit), events), requester, day);
  }

  /** Public numbers are 1, 2, 3, ... in the order of registration: unique, without gaps, at most six digits. */
  lemma NumbersAreConsecutive(limit: nat, events: seq<Event>, i: nat)
    requires i < |Run(Start(limit), events).incidents|
    ensures Run(Start(limit), events).incidents[i].number == i + 1 <= LAST_NUMBER
  {
    RunInv(limit, events);
    assert NumberedInOrder(Run(Start(limit), events).incidents, i);
  }
}
