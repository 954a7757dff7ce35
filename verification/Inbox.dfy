/** The durable inbox (src/server/update-dispatcher.ts): rows are reserved once, claimed in order per lane,
  * dispatched to business code at most once, and failures are settled by token. Every database call may
  * fail, or take effect and lose its reply; a claim may even take effect late. */
module Inbox {
  import opened Wrappers

  datatype Status = Pending | Processing | Processed | Failed

  /** One stored update; its key in the map is its sequence. */
  datatype Row = Row(key: nat, lane: nat, status: Status, token: Option<nat>, attempts: nat, nextAt: int)

  datatype Phase = Claiming | ReadingBack | Ready | Running

  /** An attempt in memory, after its eligibility read. */
  datatype Task = Task(row: nat, token: nat, phase: Phase)

  /** A failure to be written: whose claim it was, and whether business code may have started. */
  datatype Settlement = Settlement(token: nat, beforeDispatch: bool)

  /** A claim whose reply was lost and that has not reached the database yet. */
  datatype LateClaim = LateClaim(row: nat, token: nat)

  /** Business code was called for a row. */
  datatype Dispatch = Dispatch(row: nat, lane: nat, token: nat)

  datatype State = State(now: int, next: nat, tokens: nat, rows: map<nat, Row>, tasks: map<nat, Task>,
    settlements: map<nat, Settlement>, late: set<LateClaim>, log: seq<Dispatch>)

  datatype ClaimReply = Answered | LostAfter | LostBefore | LostForever

  datatype Event =
    | Tick(ms: nat)
    | Reserve(key: nat, lane: nat)
    | Select(task: nat, row: nat)
    | Claim(task: nat, reply: ClaimReply)
    | Arrive(claim: LateClaim)
    | ReadBack(task: nat, ok: bool)
    | Begin(task: nat)
    | Finish(task: nat, ok: bool, write: Write)
    | Settle(row: nat, write: Write)
    | Restart
    | Purge(row: nat)

  const RETRY_MS: int := 5_000
  const CLAIMS: nat := 3

  predicate Settled(r: Row) { r.status == Processed || r.status == Failed }

  predicate KnownKey(rows: map<nat, Row>, key: nat) { exists id :: id in rows && rows[id].key == key }

  function ReserveRow(s: State, key: nat, lane: nat): State {
    if KnownKey(s.rows, key) then s
    else s.(rows := s.rows[s.next := Row(key, lane, Pending, None, 0, s.now)], next := s.next + 1)
  }

  predicate EarlierIs(rows: map<nat, Row>, head: nat, lane: nat, id: nat) {
    head in rows && head < id && rows[head].lane == lane
  }

  /** Nothing before it in its lane is pending or processing. */
  predicate HeadOfLane(rows: map<nat, Row>, lane: nat, id: nat) {
    forall head :: head in rows && EarlierIs(rows, head, lane, id) ==> Settled(rows[head])
  }

  predicate Due(r: Row, now: int) { r.status == Pending && r.nextAt <= now }

  /** The eligibility read; it locks nothing. */
  function SelectRow(s: State, task: nat, id: nat): State {
    if task in s.tasks || id !in s.rows || !Due(s.rows[id], s.now) || !HeadOfLane(s.rows, s.rows[id].lane, id) then s
    else s.(tasks := s.tasks[task := Task(id, s.tokens, Claiming)], tokens := s.tokens + 1)
  }

  /** The claim compares the row alone. */
  function Claimed(rows: map<nat, Row>, id: nat, token: nat, now: int): map<nat, Row> {
    if id in rows && Due(rows[id], now) then
      rows[id := rows[id].(status := Processing, token := Some(token), attempts := rows[id].attempts + 1)]
    else rows
  }

  function ClaimRow(s: State, task: nat, reply: ClaimReply): State {
    if task !in s.tasks || s.tasks[task].phase != Claiming then s
    else
      var t := s.tasks[task];
      var rows := Claimed(s.rows, t.row, t.token, s.now);
      var forgotten := s.tasks - {task};
      var uncertain := s.settlements[t.row := Settlement(t.token, true)];
      match reply
      case Answered =>
        if rows == s.rows then s.(tasks := forgotten)
        else s.(rows := rows, tasks := s.tasks[task := t.(phase := ReadingBack)])
      case LostAfter => s.(rows := rows, tasks := forgotten, settlements := uncertain)
      case LostBefore => s.(tasks := forgotten, settlements := uncertain, late := s.late + {LateClaim(t.row, t.token)})
      case LostForever => s.(tasks := forgotten, settlements := uncertain)
  }

  function ArriveLate(s: State, claim: LateClaim): State {
    if claim !in s.late then s
    else s.(rows := Claimed(s.rows, claim.row, claim.token, s.now), late := s.late - {claim})
  }

  predicate OwnsRow(rows: map<nat, Row>, id: nat, token: nat) {
    id in rows && rows[id].status == Processing && rows[id].token == Some(token)
  }

  function ReadBackRow(s: State, task: nat, ok: bool): State {
    if task !in s.tasks || s.tasks[task].phase != ReadingBack then s
    else
      var t := s.tasks[task];
      if !ok then s.(tasks := s.tasks - {task}, settlements := s.settlements[t.row := Settlement(t.token, true)])
      else if !OwnsRow(s.rows, t.row, t.token) then s.(tasks := s.tasks - {task})
      else s.(tasks := s.tasks[task := t.(phase := Ready)])
  }

  function BeginRow(s: State, task: nat): State {
    if task !in s.tasks || s.tasks[task].phase != Ready || s.tasks[task].row !in s.rows then s
    else
      var t := s.tasks[task];
      s.(tasks := s.tasks[task := t.(phase := Running)], log := s.log + [Dispatch(t.row, s.rows[t.row].lane, t.token)])
  }

  function Close(rows: map<nat, Row>, id: nat, status: Status): map<nat, Row>
    requires id in rows
  {
    rows[id := rows[id].(status := status, token := None)]
  }

  /** Business code returned or threw; a result that cannot be written becomes a failure to settle. */
  function FinishRow(s: State, task: nat, ok: bool, write: Write): State {
    if task !in s.tasks || s.tasks[task].phase != Running then s
    else
      var t := s.tasks[task];
      var rows := if ok && write != NotWritten && OwnsRow(s.rows, t.row, t.token) then Close(s.rows, t.row, Processed) else s.rows;
      var settlements := if ok && write == Written then s.settlements else s.settlements[t.row := Settlement(t.token, false)];
      s.(rows := rows, tasks := s.tasks - {task}, settlements := settlements)
  }

  /** Only an attempt that never began dispatch goes back to PENDING, twice at most; anything else fails. */
  function SettledRows(rows: map<nat, Row>, id: nat, f: Settlement, now: int): map<nat, Row> {
    if !OwnsRow(rows, id, f.token) then rows
    else if f.beforeDispatch && rows[id].attempts < CLAIMS then
      rows[id := rows[id].(status := Pending, token := None, nextAt := now + RETRY_MS)]
    else Close(rows, id, Failed)
  }

  function SettleRow(s: State, id: nat, write: Write): State {
    if id !in s.settlements || write == NotWritten then s
    else
      s.(rows := SettledRows(s.rows, id, s.settlements[id], s.now),
         settlements := if write == Written then s.settlements - {id} else s.settlements)
  }

  /** A restart forgets everything in memory and fails what was being processed. */
  function RestartAll(s: State): State {
    s.(rows := map id | id in s.rows ::
                 if s.rows[id].status == Processing then s.rows[id].(status := Failed, token := None) else s.rows[id],
       tasks := map[], settlements := map[])
  }

  function PurgeRow(s: State, id: nat): State {
    if id in s.rows && Settled(s.rows[id]) then s.(rows := s.rows - {id}) else s
  }

  function Next(s: State, e: Event): State {
    match e
    case Tick(ms) => s.(now := s.now + ms)
    case Reserve(key, lane) => ReserveRow(s, key, lane)
    case Select(task, row) => SelectRow(s, task, row)
    case Claim(task, reply) => ClaimRow(s, task, reply)
    case Arrive(claim) => ArriveLate(s, claim)
    case ReadBack(task, ok) => ReadBackRow(s, task, ok)
    case Begin(task) => BeginRow(s, task)
    case Finish(task, ok, write) => FinishRow(s, task, ok, write)
    case Settle(row, write) => SettleRow(s, row, write)
    case Restart => RestartAll(s)
    case Purge(row) => PurgeRow(s, row)
  }

  function Run(s: State, events: seq<Event>): State {
    if events == [] then s else Next(Run(s, events[..|events| - 1]), events[|events| - 1])
  }

  const Start: State := State(0, 0, 0, map[], map[], map[], {}, [])

  // ----- The invariant of every run -----------------------------------------

  predicate RowOk(s: State, id: nat)
    requires id in s.rows
  {
    var r := s.rows[id];
    && id < s.next && r.attempts <= CLAIMS
    && (r.status == Pending ==> r.attempts < CLAIMS)
    && (r.status == Processing <==> r.token.Some?)
    && (r.token.Some? ==> r.token.value < s.tokens)
    && (r.status == Processing ==> HeadOfLane(s.rows, r.lane, id))
  }

  /** The lane of a row that may have been purged. */
  predicate AheadOfLane(s: State, id: nat) { id < s.next && (id in s.rows ==> HeadOfLane(s.rows, s.rows[id].lane, id)) }

  predicate TaskOk(s: State, k: nat)
    requires k in s.tasks
  {
    var t := s.tasks[k];
    && t.token < s.tokens && AheadOfLane(s, t.row)
    && (t.phase != Claiming ==> OwnsRow(s.rows, t.row, t.token))
    && (t.phase == Claiming ==> forall id :: id in s.rows ==> s.rows[id].token != Some(t.token))
  }

  /** A token belongs to one attempt: in memory, to be settled, or late. */
  predicate TokensApart(s: State) {
    && (forall j, k :: j in s.tasks && k in s.tasks && s.tasks[j].token == s.tasks[k].token ==> j == k)
    && (forall k, id :: k in s.tasks && id in s.settlements ==> s.tasks[k].token != s.settlements[id].token)
    && (forall k, c :: k in s.tasks && c in s.late ==> s.tasks[k].token != c.token)
    && (forall c, d :: c in s.late && d in s.late && c.token == d.token ==> c == d)
  }

  predicate LateOk(s: State, c: LateClaim) {
    c.token < s.tokens && AheadOfLane(s, c.row)
    && forall id :: id in s.rows ==> s.rows[id].token != Some(c.token)
  }

  predicate SettlementOk(s: State, id: nat)
    requires id in s.settlements
  {
    s.settlements[id].token < s.tokens
  }

  /** A dispatched row is settled, purged, or still being processed by that very attempt, whose failure
    * can only be settled as FAILED. */
  predicate DispatchOk(s: State, i: nat)
    requires i < |s.log|
  {
    var d := s.log[i];
    && d.row < s.next && d.token < s.tokens
    && (d.row in s.rows ==> s.rows[d.row].lane == d.lane && (Settled(s.rows[d.row]) || OwnsRow(s.rows, d.row, d.token)))
    && HeadOfLane(s.rows, d.lane, d.row)
    && (forall k :: k in s.tasks && s.tasks[k].token == d.token ==> s.tasks[k].phase == Running)
    && (forall id :: id in s.settlements && s.settlements[id].token == d.token ==> !s.settlements[id].beforeDispatch)
    && (forall c :: c in s.late ==> c.token != d.token)
  }

  /** Dispatched once, and in order within its lane. */
  predicate InOrder(log: seq<Dispatch>, i: nat, j: nat)
    requires i < j < |log|
  {
    log[i].row != log[j].row && (log[i].lane == log[j].lane ==> log[i].row < log[j].row)
  }

  predicate KeysApart(rows: map<nat, Row>) {
    forall a, b :: a in rows && b in rows && rows[a].key == rows[b].key ==> a == b
  }

  predicate Inv(s: State) {
    && (forall id :: id in s.rows ==> RowOk(s, id))
    && (forall k :: k in s.tasks ==> TaskOk(s, k))
    && (forall c :: c in s.late ==> LateOk(s, c))
    && (forall id :: id in s.settlements ==> SettlementOk(s, id))
    && TokensApart(s) && KeysApart(s.rows)
    && (forall i :: 0 <= i < |s.log| ==> DispatchOk(s, i))
    && (forall i, j :: 0 <= i < j < |s.log| ==> InOrder(s.log, i, j))
  }
}
