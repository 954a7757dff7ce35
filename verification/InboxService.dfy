/** The dispatcher as it runs: rows, attempts in memory and unsettled failures change in place
  * (src/server/update-dispatcher.ts:61-117, 189-285). */
module InboxService {
  import opened Inbox
  import opened InboxInvariant
  import opened Wrappers

  /** A row with a remembered failure is settled by it; any other row stays as it was. */
  predicate RowAfter(rows: map<nat, Row>, settlements: map<nat, Settlement>, now: int, id: nat, row: Row)
    requires id in rows
  {
    row == if id in settlements then SettledRows(rows, id, settlements[id], now)[id] else rows[id]
  }

  predicate Eligible(rows: map<nat, Row>, id: nat, now: int) {
    id in rows && Due(rows[id], now) && HeadOfLane(rows, rows[id].lane, id)
  }

  /** The row after an attempt whose writes all arrive: done, failed for good, or back in the queue because
    * its payload could not be read. */
  function Attempted(r: Row, readOk: bool, businessOk: bool, now: int): Row {
    var tried := r.(attempts := r.attempts + 1, token := None);
    if readOk then tried.(status := if businessOk then Processed else Failed)
    else if tried.attempts < CLAIMS then tried.(status := Pending, nextAt := now + RETRY_MS)
    else tried.(status := Failed)
  }

  /** Claimed and settled again, or claimed and closed, the row is the attempted one. */
  lemma AttemptedRow(rows: map<nat, Row>, id: nat, token: nat, now: int)
    requires id in rows && Due(rows[id], now)
    ensures var claimed := Claimed(rows, id, token, now);
            && Close(claimed, id, Processed) == rows[id := Attempted(rows[id], true, true, now)]
            && SettledRows(claimed, id, Settlement(token, false), now) == rows[id := Attempted(rows[id], true, false, now)]
            && SettledRows(claimed, id, Settlement(token, true), now) == rows[id := Attempted(rows[id], false, false, now)]
            && Attempted(rows[id], false, true, now) == Attempted(rows[id], false, false, now)
            && claimed.Keys == rows.Keys && claimed[id].lane == rows[id].lane
  {
  }

  /** Part of the failures are settled: their rows are done with, and the rows of the others are as they were. */
  predicate PartlySettled(rows0: map<nat, Row>, failures: map<nat, Settlement>, now: int, rows: map<nat, Row>, left: map<nat, Settlement>) {
    && rows.Keys == rows0.Keys && left.Keys <= failures.Keys
    && (forall id :: id in left ==> id in failures && left[id] == failures[id])
    && (forall id :: id in rows ==>
          if id in left then rows[id] == rows0[id] else RowAfter(rows0, failures, now, id, rows[id]))
  }

  lemma OneMoreSettled(rows0: map<nat, Row>, failures: map<nat, Settlement>, now: int, rows: map<nat, Row>,
                       left: map<nat, Settlement>, id: nat)
    requires PartlySettled(rows0, failures, now, rows, left) && id in left
    ensures PartlySettled(rows0, failures, now, SettledRows(rows, id, left[id], now), left - {id})
  {
  }

  /** With one failure to settle only its row changes. */
  lemma OneSettled(rows: map<nat, Row>, id: nat, f: Settlement, now: int, rows': map<nat, Row>)
    requires id in rows && rows'.Keys == rows.Keys
    requires forall j :: j in rows' ==> RowAfter(rows, map[id := f], now, j, rows'[j])
    ensures rows' == SettledRows(rows, id, f, now)
  {
  }

  lemma NothingSettled(rows: map<nat, Row>, now: int, rows': map<nat, Row>)
    requires rows'.Keys == rows.Keys && forall j :: j in rows' ==> RowAfter(rows, map[], now, j, rows'[j])
    ensures rows' == rows
  {
  }

  class UpdateDispatcher {
    var now: int
    var next: nat
    var tokens: nat
    var rows: map<nat, Row>
    var tasks: map<nat, Task>
    var settlements: map<nat, Settlement>
    var late: set<LateClaim>
    var log: seq<Dispatch>

    function State(): Inbox.State
      reads this
    {
      Inbox.State(now, next, tokens, rows, tasks, settlements, late, log)
    }

    constructor ()
      ensures State() == Inbox.Start
    {
      now, next, tokens, rows, tasks, settlements, late, log := 0, 0, 0, map[], map[], map[], {}, [];
    }

    /** A stored update is new only if no row has its key. */
    method ReserveNow(key: nat, lane: nat) returns (isNew: bool)
      modifies this`rows, this`next
      ensures State() == Next(old(State()), Reserve(key, lane)) && (isNew <==> !KnownKey(old(rows), key))
    {
      if exists id :: id in rows && rows[id].key == key { return false; }
      rows := rows[next := Row(key, lane, Pending, None, 0, now)];
      next := next + 1;
      return true;
    }

    /** A start fails what an earlier process left behind. */
    method StartUp()
      modifies this`rows, this`tasks, this`settlements
      ensures State() == Next(old(State()), Restart)
    {
      rows := map id | id in rows :: if rows[id].status == Processing then rows[id].(status := Failed, token := None) else rows[id];
      tasks, settlements := map[], map[];
    }

    method SelectEligible(task: nat, id: nat) returns (ok: bool)
      requires task !in tasks
      modifies this`tasks, this`tokens
      ensures State() == Next(old(State()), Select(task, id))
      ensures ok <==> Eligible(rows, id, now)
      ensures tasks == if ok then old(tasks)[task := Task(id, old(tokens), Claiming)] else old(tasks)
    {
      if id !in rows || rows[id].status != Pending || rows[id].nextAt > now { return false; }
      var row := rows[id];
      if exists head :: head in rows && EarlierIs(rows, head, row.lane, id) && !Settled(rows[head]) { return false; }
      tasks := tasks[task := Task(id, tokens, Claiming)];
      tokens := tokens + 1;
      return true;
    }

    method ClaimPending(task: nat)
      requires task in tasks && tasks[task].phase == Claiming
      modifies this`rows, this`tasks
      ensures State() == Next(old(State()), Claim(task, Answered))
      ensures var t := old(tasks)[task];
              rows == Claimed(old(rows), t.row, t.token, now)
              && tasks == if t.row in old(rows) && Due(old(rows)[t.row], now) then old(tasks)[task := t.(phase := ReadingBack)]
                          else old(tasks) - {task}
    {
      var t := tasks[task];
      if t.row !in rows || rows[t.row].status != Pending || rows[t.row].nextAt > now {
        tasks := tasks - {task};
        return;
      }
      var row := rows[t.row].(status := Processing, token := Some(t.token));
      rows := rows[t.row := row.(attempts := row.attempts + 1)];
      tasks := tasks[task := t.(phase := ReadingBack)];
    }

    method ReadClaimed(task: nat, ok: bool) returns (mine: bool)
      requires task in tasks && tasks[task].phase == ReadingBack
      modifies this`tasks, this`settlements
      ensures State() == Next(old(State()), ReadBack(task, ok))
      ensures mine <==> ok && OwnsRow(rows, old(tasks)[task].row, old(tasks)[task].token)
      ensures tasks == if mine then old(tasks)[task := old(tasks)[task].(phase := Ready)] else old(tasks) - {task}
      ensures var t := old(tasks)[task];
              settlements == if ok then old(settlements) else old(settlements)[t.row := Settlement(t.token, true)]
    {
      var t := tasks[task];
      if !ok {
        settlements := settlements[t.row := Settlement(t.token, true)];
        tasks := tasks - {task};
        return false;
      }
      if t.row !in rows || rows[t.row].status != Processing || rows[t.row].token != Some(t.token) {
        tasks := tasks - {task};
        return false;
      }
      tasks := tasks[task := t.(phase := Ready)];
      return true;
    }

    method CallBusiness(task: nat)
      requires task in tasks && tasks[task].phase == Ready && tasks[task].row in rows
      modifies this`tasks, this`log
      ensures State() == Next(old(State()), Begin(task))
      ensures var t := old(tasks)[task];
              tasks == old(tasks)[task := t.(phase := Running)] && log == old(log) + [Dispatch(t.row, rows[t.row].lane, t.token)]
    {
      var t := tasks[task];
      tasks := tasks[task := t.(phase := Running)];
      log := log + [Dispatch(t.row, rows[t.row].lane, t.token)];
    }

    method RecordResult(task: nat, ok: bool)
      requires task in tasks && tasks[task].phase == Running
      modifies this`rows, this`tasks, this`settlements
      ensures State() == Next(old(State()), Event.Finish(task, ok, Written))
      ensures var t := old(tasks)[task];
              && tasks == old(tasks) - {task}
              && rows == (if ok && OwnsRow(old(rows), t.row, t.token) then Close(old(rows), t.row, Processed) else old(rows))
              && settlements == if ok then old(settlements) else old(settlements)[t.row := Settlement(t.token, false)]
    {
      var t := tasks[task];
      tasks := tasks - {task};
      if !ok {
        settlements := settlements[t.row := Settlement(t.token, false)];
        return;
      }
      if t.row in rows && rows[t.row].status == Processing && rows[t.row].token == Some(t.token) {
        rows := rows[t.row := rows[t.row].(status := Processed, token := None)];
      }
    }

    /** One failure: back to the queue, or failed; the compare-and-swap is on the token. */
    method SettleOne(id: nat)
      requires id in settlements
      modifies this`rows, this`settlements
      ensures State() == Next(old(State()), Settle(id, Written))
      ensures rows == SettledRows(old(rows), id, old(settlements)[id], now) && settlements == old(settlements) - {id}
    {
      var f := settlements[id];
      if id in rows && rows[id].status == Processing && rows[id].token == Some(f.token) {
        var row := rows[id].(token := None);
        if f.beforeDispatch && row.attempts < CLAIMS {
          row := row.(status := Pending, nextAt := now + RETRY_MS);
        } else {
          row := row.(status := Failed);
        }
        rows := rows[id := row];
      }
      settlements := settlements - {id};
    }

    /** Every remembered failure is settled, each touching its own row only, in whatever order. */
    method SettleFailures()
      requires Inv(State())
      modifies this`rows, this`settlements
      ensures Inv(State()) && settlements == map[] && rows.Keys == old(rows).Keys
      ensures forall id :: id in rows ==> RowAfter(old(rows), old(settlements), now, id, rows[id])
    {
      hide Inv, Next, SettledRows;
      ghost var rows0, failures := rows, settlements;
      while settlements != map[]
        invariant Inv(State()) && PartlySettled(rows0, failures, now, rows, settlements)
        decreases |settlements|
      {
        var id :| id in settlements;
        ghost var s := State();
        NextInv(s, Settle(id, Written));
        OneMoreSettled(rows0, failures, now, rows, settlements, id);
        SettleOne(id);
        assert s.settlements.Keys == settlements.Keys + {id};
      }
    }

    /** Claim and read back; a failed read leaves a failure to settle. */
    method ClaimAndRead(task: nat, readOk: bool) returns (mine: bool)
      requires Inv(State()) && task in tasks && tasks[task].phase == Claiming && settlements == map[]
      requires tasks[task].row in rows && Due(rows[tasks[task].row], now)
      modifies this`rows, this`tasks, this`settlements
      ensures var t := old(tasks)[task];
              && Inv(State()) && mine == readOk && rows == Claimed(old(rows), t.row, t.token, now) && OwnsRow(rows, t.row, t.token)
              && tasks == (if readOk then old(tasks)[task := t.(phase := Ready)] else old(tasks) - {task})
              && settlements == if readOk then map[] else map[t.row := Settlement(t.token, true)]
    {
      hide Inv, Next;
      NextInv(State(), Claim(task, Answered));
      ClaimPending(task);
      NextInv(State(), ReadBack(task, readOk));
      mine := ReadClaimed(task, readOk);
    }

    /** Call business code and record its result. */
    method CallAndRecord(task: nat, businessOk: bool)
      requires Inv(State()) && task in tasks && tasks[task].phase == Ready && settlements == map[]
      requires OwnsRow(rows, tasks[task].row, tasks[task].token)
      modifies this`rows, this`tasks, this`settlements, this`log
      ensures var t := old(tasks)[task];
              && Inv(State()) && tasks == old(tasks) - {task}
              && log == old(log) + [Dispatch(t.row, old(rows)[t.row].lane, t.token)]
              && rows == (if businessOk then Close(old(rows), t.row, Processed) else old(rows))
              && settlements == if businessOk then map[] else map[t.row := Settlement(t.token, false)]
    {
      hide Inv, Next;
      NextInv(State(), Begin(task));
      CallBusiness(task);
      NextInv(State(), Event.Finish(task, businessOk, Written));
      RecordResult(task, businessOk);
    }

    /** One attempt at a row: business code runs at most once, and only behind a claim that was read back. */
    method ProcessClaimed(task: nat, id: nat, readOk: bool, businessOk: bool)
      requires Inv(State()) && task !in tasks && settlements == map[]
      modifies this`rows, this`tasks, this`tokens, this`settlements, this`log
      ensures Inv(State()) && settlements == map[] && tasks == old(tasks)
      ensures !Eligible(old(rows), id, now) ==> rows == old(rows) && log == old(log)
      ensures Eligible(old(rows), id, now) ==>
                && rows == old(rows)[id := Attempted(old(rows)[id], readOk, businessOk, now)]
                && log == old(log) + if readOk then [Dispatch(id, old(rows)[id].lane, old(tokens))] else []
    {
      hide Inv, Next, HeadOfLane, Attempted, SettledRows, RowAfter, Close, Claimed;
      NextInv(State(), Select(task, id));
      var eligible := SelectEligible(task, id);
      if !eligible { return; }
      AttemptedRow(rows, id, old(tokens), now);
      var mine := ClaimAndRead(task, readOk);
      if mine { CallAndRecord(task, businessOk); }
      ghost var unsettled, failures := rows, settlements;
      SettleFailures();
      if readOk && businessOk {
        NothingSettled(unsettled, now, rows);
      } else {
        assert failures == map[id := Settlement(old(tokens), !readOk)];
        OneSettled(unsettled, id, Settlement(old(tokens), !readOk), now, rows);
      }
    }
  }
}
