/** Every event of the inbox keeps its invariant. */
module InboxInvariant {
  import opened Inbox
  import opened Wrappers

  // ----- Settled rows stay settled ------------------------------------------

  predicate RowAdvances(s: State, s': State, id: nat)
    requires id in s'.rows
  {
    if id in s.rows then
      s'.rows[id].lane == s.rows[id].lane && s'.rows[id].key == s.rows[id].key && (Settled(s.rows[id]) ==> s'.rows[id] == s.rows[id])
    else id >= s.next
  }

  /** How rows change over a step: lanes are fixed, a settled row never changes again, a new row comes last. */
  predicate Advances(s: State, s': State) {
    s.next <= s'.next && s.tokens <= s'.tokens && forall id :: id in s'.rows ==> RowAdvances(s, s', id)
  }

  lemma HeadStays(s: State, s': State, lane: nat, id: nat)
    requires Advances(s, s') && id <= s.next && HeadOfLane(s.rows, lane, id)
    ensures HeadOfLane(s'.rows, lane, id)
  {
    forall head | head in s'.rows && EarlierIs(s'.rows, head, lane, id) ensures Settled(s'.rows[head]) {
      assert RowAdvances(s, s', head) && EarlierIs(s.rows, head, lane, id);
    }
  }

  lemma QuietAdvances(s: State, e: Event)
    requires s.next !in s.rows && !e.Claim? && !e.Arrive? && !e.Settle? && !e.Finish?
    ensures Advances(s, Next(s, e))
  {
  }

  lemma WritesAdvance(s: State, e: Event)
    requires e.Claim? || e.Arrive? || e.Settle? || e.Finish?
    ensures Advances(s, Next(s, e))
  {
  }

  lemma NextIsNew(s: State)
    requires Inv(s)
    ensures s.next !in s.rows
  {
    assert forall id :: id in s.rows ==> RowOk(s, id) && id < s.next;
  }

  lemma NextAdvances(s: State, e: Event)
    requires Inv(s)
    ensures Advances(s, Next(s, e))
  {
    NextIsNew(s);
    hide Next;
    if e.Claim? || e.Arrive? || e.Settle? || e.Finish? { WritesAdvance(s, e); } else { QuietAdvances(s, e); }
  }

  // ----- What is kept when rows advance -------------------------------------

  lemma LaneStays(s: State, s': State, id: nat)
    requires Advances(s, s') && AheadOfLane(s, id)
    ensures AheadOfLane(s', id)
  {
    if id in s'.rows {
      assert RowAdvances(s, s', id);
      HeadStays(s, s', s.rows[id].lane, id);
    }
  }

  lemma KeysStay(s: State, s': State)
    requires Advances(s, s') && KeysApart(s.rows) && forall id :: id in s'.rows ==> id in s.rows
    ensures KeysApart(s'.rows)
  {
    forall a, b | a in s'.rows && b in s'.rows && s'.rows[a].key == s'.rows[b].key ensures a == b {
      assert RowAdvances(s, s', a) && RowAdvances(s, s', b);
    }
  }

  /** A row a step did not touch keeps its standing. */
  lemma RowStays(s: State, s': State, id: nat)
    requires Advances(s, s') && id in s.rows && id in s'.rows && s'.rows[id] == s.rows[id] && RowOk(s, id)
    ensures RowOk(s', id)
  {
    if s.rows[id].status == Processing { HeadStays(s, s', s.rows[id].lane, id); }
  }

  /** A dispatched row whose attempt a step did not touch keeps its record. */
  lemma DispatchStays(s: State, s': State, i: nat)
    requires Advances(s, s') && i < |s.log| && s.log <= s'.log && DispatchOk(s, i)
    requires var d := s.log[i];
             && (d.row in s'.rows ==> d.row in s.rows && (s'.rows[d.row] == s.rows[d.row] || Settled(s'.rows[d.row])))
             && (forall k :: k in s'.tasks && s'.tasks[k].token == d.token ==> s'.tasks[k].phase == Running)
             && (forall id :: id in s'.settlements && s'.settlements[id].token == d.token ==> !s'.settlements[id].beforeDispatch)
             && (forall c :: c in s'.late ==> c.token != d.token)
    ensures DispatchOk(s', i)
  {
    HeadStays(s, s', s.log[i].lane, s.log[i].row);
    if s.log[i].row in s'.rows { assert RowAdvances(s, s', s.log[i].row); }
  }

  lemma LogStays(s: State, s': State)
    requires Inv(s) && s'.log == s.log
    ensures forall i, j :: 0 <= i < j < |s'.log| ==> InOrder(s'.log, i, j)
  {
    forall i, j | 0 <= i < j < |s'.log| ensures InOrder(s'.log, i, j) { assert InOrder(s.log, i, j); }
  }

  /** What rests on the stored rows alone stands while a step changes only what a process remembers. */
  predicate SameRows(s: State, s': State) {
    s'.rows == s.rows && s'.next == s.next && s'.tokens >= s.tokens && s'.log == s.log
  }

  lemma RowsStand(s: State, s': State)
    requires Inv(s) && SameRows(s, s')
    ensures KeysApart(s'.rows) && forall id :: id in s'.rows ==> RowOk(s', id)
    ensures forall i, j :: 0 <= i < j < |s'.log| ==> InOrder(s'.log, i, j)
  {
    hide TaskOk, LateOk, SettlementOk, DispatchOk, TokensApart, KeysApart, HeadOfLane;
    LogStays(s, s');
    forall id | id in s'.rows ensures RowOk(s', id) { assert RowOk(s, id); }
  }

  lemma TasksStand(s: State, s': State)
    requires Inv(s) && SameRows(s, s')
    ensures forall k :: k in s'.tasks && k in s.tasks && s'.tasks[k] == s.tasks[k] ==> TaskOk(s', k)
  {
    hide RowOk, LateOk, SettlementOk, DispatchOk, TokensApart, KeysApart, HeadOfLane, OwnsRow;
    forall k | k in s'.tasks && k in s.tasks && s'.tasks[k] == s.tasks[k] ensures TaskOk(s', k) { assert TaskOk(s, k); }
  }

  lemma RecordsStand(s: State, s': State)
    requires Inv(s) && SameRows(s, s')
    ensures forall c :: c in s'.late && c in s.late ==> LateOk(s', c)
    ensures forall id :: id in s'.settlements && id in s.settlements && s'.settlements[id] == s.settlements[id]
              ==> SettlementOk(s', id)
  {
    hide RowOk, TaskOk, DispatchOk, TokensApart, KeysApart, HeadOfLane;
    forall c | c in s'.late && c in s.late ensures LateOk(s', c) { assert LateOk(s, c); }
    forall id | id in s'.settlements && id in s.settlements && s'.settlements[id] == s.settlements[id]
      ensures SettlementOk(s', id)
    {
      assert SettlementOk(s, id);
    }
  }

  /** Every record of this token is as a dispatched attempt leaves it. */
  predicate TokenRuns(s: State, token: nat) {
    && (forall k :: k in s.tasks && s.tasks[k].token == token ==> s.tasks[k].phase == Running)
    && (forall id :: id in s.settlements && s.settlements[id].token == token ==> !s.settlements[id].beforeDispatch)
    && (forall c :: c in s.late ==> c.token != token)
  }

  lemma DispatchStands(s: State, s': State, i: nat)
    requires i < |s.log| && DispatchOk(s, i) && SameRows(s, s') && TokenRuns(s', s.log[i].token)
    ensures DispatchOk(s', i)
  {
    hide HeadOfLane, OwnsRow;
  }

  /** A step that changes only what a process remembers: what it added is the whole proof. */
  lemma MemoryInv(s: State, s': State)
    requires Inv(s) && SameRows(s, s') && TokensApart(s')
    requires forall k :: k in s'.tasks && (k !in s.tasks || s'.tasks[k] != s.tasks[k]) ==> TaskOk(s', k)
    requires forall c :: c in s'.late && c !in s.late ==> LateOk(s', c)
    requires forall id :: id in s'.settlements && (id !in s.settlements || s'.settlements[id] != s.settlements[id])
               ==> SettlementOk(s', id)
    requires forall i :: 0 <= i < |s.log| ==> TokenRuns(s', s.log[i].token)
    ensures Inv(s')
  {
    hide RowOk, TaskOk, LateOk, SettlementOk, DispatchOk, TokensApart, KeysApart, InOrder, TokenRuns;
    RowsStand(s, s');
    TasksStand(s, s');
    RecordsStand(s, s');
    forall i | 0 <= i < |s'.log| ensures DispatchOk(s', i) { DispatchStands(s, s', i); }
  }

  lemma DispatchRuns(s: State, i: nat)
    requires Inv(s) && i < |s.log|
    ensures TokenRuns(s, s.log[i].token) && s.log[i].token < s.tokens
  {
    hide RowOk, TaskOk, LateOk, SettlementOk, TokensApart, KeysApart, InOrder, HeadOfLane;
    assert DispatchOk(s, i);
  }

  // ----- What stands when rows advance --------------------------------------

  lemma TasksKept(s: State, s': State)
    requires Inv(s) && Advances(s, s') && s'.tasks == s.tasks
    requires forall k :: k in s.tasks && s.tasks[k].phase != Claiming ==> OwnsRow(s'.rows, s.tasks[k].row, s.tasks[k].token)
    requires forall k, id :: k in s.tasks && s.tasks[k].phase == Claiming && id in s'.rows
               ==> s'.rows[id].token != Some(s.tasks[k].token)
    ensures forall k :: k in s'.tasks ==> TaskOk(s', k)
  {
    hide RowOk, LateOk, SettlementOk, DispatchOk, TokensApart, KeysApart, InOrder, HeadOfLane, OwnsRow;
    forall k | k in s'.tasks ensures TaskOk(s', k) {
      assert TaskOk(s, k);
      LaneStays(s, s', s.tasks[k].row);
    }
  }

  lemma LateKept(s: State, s': State)
    requires Inv(s) && Advances(s, s') && s'.late == s.late
    requires forall c, id :: c in s.late && id in s'.rows ==> s'.rows[id].token != Some(c.token)
    ensures forall c :: c in s'.late ==> LateOk(s', c)
  {
    hide RowOk, TaskOk, SettlementOk, DispatchOk, TokensApart, KeysApart, InOrder, HeadOfLane;
    forall c | c in s'.late ensures LateOk(s', c) {
      assert LateOk(s, c);
      LaneStays(s, s', c.row);
    }
  }

  lemma LogKept(s: State, s': State)
    requires Inv(s) && Advances(s, s') && s'.log == s.log && s'.late == s.late && s'.settlements == s.settlements
    requires s'.tasks == s.tasks || s'.tasks == map[]
    requires forall i :: 0 <= i < |s.log| && s.log[i].row in s'.rows ==>
               s.log[i].row in s.rows && (s'.rows[s.log[i].row] == s.rows[s.log[i].row] || Settled(s'.rows[s.log[i].row]))
    ensures forall i :: 0 <= i < |s'.log| ==> DispatchOk(s', i)
    ensures forall i, j :: 0 <= i < j < |s'.log| ==> InOrder(s'.log, i, j)
  {
    hide RowOk, TaskOk, LateOk, SettlementOk, TokensApart, KeysApart, InOrder, HeadOfLane;
    LogStays(s, s');
    forall i | 0 <= i < |s'.log| ensures DispatchOk(s', i) {
      assert DispatchOk(s, i);
      DispatchStays(s, s', i);
    }
  }

  lemma RecordsKept(s: State, s': State)
    requires Inv(s) && s'.tasks == s.tasks && s'.late == s.late && s'.settlements == s.settlements && s'.tokens == s.tokens
    ensures TokensApart(s') && forall id :: id in s'.settlements ==> SettlementOk(s', id)
  {
    hide RowOk, TaskOk, LateOk, DispatchOk, KeysApart, InOrder;
    forall id | id in s'.settlements ensures SettlementOk(s', id) { assert SettlementOk(s, id); }
  }

  lemma RowsKept(s: State, s': State, id: nat)
    requires Inv(s) && Advances(s, s') && (id in s'.rows ==> RowOk(s', id))
    requires forall j :: j in s'.rows && j != id ==> j in s.rows && s'.rows[j] == s.rows[j]
    ensures forall j :: j in s'.rows ==> RowOk(s', j)
  {
    hide RowOk, TaskOk, LateOk, SettlementOk, DispatchOk, TokensApart, KeysApart, InOrder, Advances;
    forall j | j in s'.rows && j != id ensures RowOk(s', j) { RowStays(s, s', j); }
  }

  lemma LoggedRows(s: State)
    requires Inv(s)
    ensures forall i :: 0 <= i < |s.log| ==> s.log[i].row < s.next
  {
    hide RowOk, TaskOk, LateOk, SettlementOk, TokensApart, KeysApart, InOrder;
    forall i | 0 <= i < |s.log| ensures s.log[i].row < s.next { assert DispatchOk(s, i); }
  }

  // ----- Reserving and selecting --------------------------------------------

  lemma AddRow(s: State, r: Row)
    requires Inv(s) && r.status == Pending && r.token == None && r.attempts == 0 && !KnownKey(s.rows, r.key)
    ensures Inv(s.(rows := s.rows[s.next := r], next := s.next + 1))
  {
    hide RowOk, TaskOk, LateOk, SettlementOk, DispatchOk, TokensApart, KeysApart, InOrder, HeadOfLane, Advances;
    var s' := s.(rows := s.rows[s.next := r], next := s.next + 1);
    AddedRow(s, r);
    LoggedRows(s);
    RowlessTokens(s);
    RowsKept(s, s', s.next);
    LogKept(s, s');
    LateKept(s, s');
    TasksKept(s, s');
    RecordsKept(s, s');
  }

  lemma AddedRow(s: State, r: Row)
    requires Inv(s) && r.status == Pending && r.token == None && r.attempts == 0 && !KnownKey(s.rows, r.key)
    ensures var s' := s.(rows := s.rows[s.next := r], next := s.next + 1);
            s.next !in s.rows && Advances(s, s') && KeysApart(s'.rows) && RowOk(s', s.next)
  {
    hide TaskOk, LateOk, SettlementOk, DispatchOk, TokensApart, InOrder, HeadOfLane;
    NextIsNew(s);
  }

  /** Which rows carry the tokens of attempts and of late claims. */
  lemma RowlessTokens(s: State)
    requires Inv(s)
    ensures forall k :: k in s.tasks && s.tasks[k].phase != Claiming ==> OwnsRow(s.rows, s.tasks[k].row, s.tasks[k].token)
    ensures forall k, j :: k in s.tasks && s.tasks[k].phase == Claiming && j in s.rows
              ==> s.rows[j].token != Some(s.tasks[k].token)
    ensures forall c, j :: c in s.late && j in s.rows ==> s.rows[j].token != Some(c.token)
  {
    hide RowOk, SettlementOk, DispatchOk, TokensApart, KeysApart, InOrder, HeadOfLane;
    forall k | k in s.tasks ensures TaskOk(s, k) {}
    forall c | c in s.late ensures LateOk(s, c) {}
  }

  lemma ReserveInv(s: State, key: nat, lane: nat)
    requires Inv(s)
    ensures Inv(ReserveRow(s, key, lane))
  {
    hide Inv;
    if !KnownKey(s.rows, key) { AddRow(s, ReserveRow(s, key, lane).rows[s.next]); }
  }

  lemma NewToken(s: State)
    requires Inv(s)
    ensures NoTask(s, s.tokens) && NoRow(s, s.tokens) && NoLate(s, s.tokens) && NoSettlement(s, s.tokens)
    ensures NoDispatch(s, s.tokens)
  {
    hide TokensApart, KeysApart, InOrder, HeadOfLane;
    forall k | k in s.tasks ensures s.tasks[k].token != s.tokens { assert TaskOk(s, k); }
    forall id | id in s.rows ensures s.rows[id].token != Some(s.tokens) { assert RowOk(s, id); }
    forall c | c in s.late ensures c.token != s.tokens { assert LateOk(s, c); }
    forall id | id in s.settlements ensures s.settlements[id].token != s.tokens { assert SettlementOk(s, id); }
    forall i | 0 <= i < |s.log| ensures s.log[i].token != s.tokens { assert DispatchOk(s, i); }
  }

  lemma TokenInv(s: State)
    requires Inv(s)
    ensures Inv(s.(tokens := s.tokens + 1))
  {
    hide RowOk, TaskOk, LateOk, SettlementOk, DispatchOk, KeysApart, InOrder;
    var s' := s.(tokens := s.tokens + 1);
    forall i | 0 <= i < |s.log| ensures TokenRuns(s', s.log[i].token) { DispatchRuns(s, i); }
    MemoryInv(s, s');
  }

  lemma SelectInv(s: State, task: nat, id: nat)
    requires Inv(s)
    ensures Inv(SelectRow(s, task, id))
  {
    if SelectRow(s, task, id) != s {
      NewToken(s);
      assert RowOk(s, id);
      TokenInv(s);
      hide Inv;
      AddTask(s.(tokens := s.tokens + 1), task, Task(id, s.tokens, Claiming));
    }
  }

  // ----- One change at a time -----------------------------------------------

  predicate NoTask(s: State, token: nat) { forall k :: k in s.tasks ==> s.tasks[k].token != token }

  predicate NoRow(s: State, token: nat) { forall id :: id in s.rows ==> s.rows[id].token != Some(token) }

  predicate NoLate(s: State, token: nat) { forall c :: c in s.late ==> c.token != token }

  predicate NoSettlement(s: State, token: nat) { forall id :: id in s.settlements ==> s.settlements[id].token != token }

  predicate NoDispatch(s: State, token: nat) { forall i :: 0 <= i < |s.log| ==> s.log[i].token != token }

  lemma DropTask(s: State, task: nat)
    requires Inv(s)
    ensures Inv(s.(tasks := s.tasks - {task}))
    ensures task in s.tasks ==> NoTask(s.(tasks := s.tasks - {task}), s.tasks[task].token)
  {
    var s' := s.(tasks := s.tasks - {task});
    hide RowOk, DispatchOk, HeadOfLane, KeysApart, InOrder;
    forall i | 0 <= i < |s.log| ensures TokenRuns(s', s.log[i].token) { DispatchRuns(s, i); }
    MemoryInv(s, s');
  }

  lemma AddSettlement(s: State, id: nat, f: Settlement)
    requires Inv(s) && f.token < s.tokens && NoTask(s, f.token) && (f.beforeDispatch ==> NoDispatch(s, f.token))
    ensures Inv(s.(settlements := s.settlements[id := f]))
  {
    var s' := s.(settlements := s.settlements[id := f]);
    hide RowOk, DispatchOk, HeadOfLane, KeysApart, InOrder;
    forall i | 0 <= i < |s.log| ensures TokenRuns(s', s.log[i].token) { DispatchRuns(s, i); }
    MemoryInv(s, s');
  }

  lemma AddLate(s: State, c: LateClaim)
    requires Inv(s) && c.token < s.tokens && AheadOfLane(s, c.row)
    requires NoTask(s, c.token) && NoRow(s, c.token) && NoDispatch(s, c.token) && NoLate(s, c.token)
    ensures Inv(s.(late := s.late + {c}))
  {
    var s' := s.(late := s.late + {c});
    hide RowOk, DispatchOk, HeadOfLane, KeysApart, InOrder;
    forall i | 0 <= i < |s.log| ensures TokenRuns(s', s.log[i].token) { DispatchRuns(s, i); }
    MemoryInv(s, s');
  }

  lemma DropLate(s: State, c: LateClaim)
    requires Inv(s)
    ensures Inv(s.(late := s.late - {c}))
    ensures c in s.late ==> NoLate(s.(late := s.late - {c}), c.token) && NoTask(s, c.token)
  {
    var s' := s.(late := s.late - {c});
    hide RowOk, DispatchOk, HeadOfLane, KeysApart, InOrder;
    forall i | 0 <= i < |s.log| ensures TokenRuns(s', s.log[i].token) { DispatchRuns(s, i); }
    MemoryInv(s, s');
  }

  lemma AddTask(s: State, task: nat, t: Task)
    requires Inv(s) && t.token < s.tokens && AheadOfLane(s, t.row)
    requires if t.phase == Claiming then NoRow(s, t.token) else OwnsRow(s.rows, t.row, t.token)
    requires task !in s.tasks && NoTask(s, t.token) && NoSettlement(s, t.token) && NoLate(s, t.token) && NoDispatch(s, t.token)
    ensures Inv(s.(tasks := s.tasks[task := t]))
  {
    var s' := s.(tasks := s.tasks[task := t]);
    hide RowOk, DispatchOk, HeadOfLane, KeysApart, InOrder;
    forall i | 0 <= i < |s.log| ensures TokenRuns(s', s.log[i].token) { DispatchRuns(s, i); }
    MemoryInv(s, s');
  }

  // ----- Rows ---------------------------------------------------------------

  /** A row that no attempt in memory owns changes: the rest stands as long as settled rows stand. */
  lemma SetRow(s: State, id: nat, r: Row)
    requires Inv(s) && id in s.rows && !Settled(s.rows[id]) && r.lane == s.rows[id].lane && r.key == s.rows[id].key
    requires forall k :: k in s.tasks && s.tasks[k].row == id ==> s.tasks[k].phase == Claiming
    requires r.token.Some? ==> NoTask(s, r.token.value) && NoLate(s, r.token.value) && r.token.value < s.tokens
    requires r.attempts <= CLAIMS && (r.status == Pending ==> r.attempts < CLAIMS) && (r.status == Processing <==> r.token.Some?)
    requires r.status == Processing ==> HeadOfLane(s.rows, r.lane, id)
    requires forall i :: 0 <= i < |s.log| && s.log[i].row == id ==> Settled(r)
    ensures Inv(s.(rows := s.rows[id := r]))
  {
    hide RowOk, TaskOk, LateOk, SettlementOk, DispatchOk, TokensApart, KeysApart, InOrder, HeadOfLane, Advances;
    var s' := s.(rows := s.rows[id := r]);
    SetAdvances(s, id, r);
    KeysStay(s, s');
    SetTokens(s, id, r);
    SetRowOk(s, id, r);
    RowsKept(s, s', id);
    LogKept(s, s');
    LateKept(s, s');
    TasksKept(s, s');
    RecordsKept(s, s');
  }

  /** The new row carries the token of no attempt that waits for its claim. */
  lemma SetTokens(s: State, id: nat, r: Row)
    requires Inv(s) && id in s.rows
    requires forall k :: k in s.tasks && s.tasks[k].row == id ==> s.tasks[k].phase == Claiming
    requires r.token.Some? ==> NoTask(s, r.token.value) && NoLate(s, r.token.value)
    ensures var rows := s.rows[id := r];
            && (forall k :: k in s.tasks && s.tasks[k].phase != Claiming ==> OwnsRow(rows, s.tasks[k].row, s.tasks[k].token))
            && (forall k, j :: k in s.tasks && s.tasks[k].phase == Claiming && j in rows
                  ==> rows[j].token != Some(s.tasks[k].token))
            && (forall c, j :: c in s.late && j in rows ==> rows[j].token != Some(c.token))
  {
    hide Inv;
    RowlessTokens(s);
  }

  lemma SetRowOk(s: State, id: nat, r: Row)
    requires Inv(s) && id in s.rows && !Settled(s.rows[id]) && r.lane == s.rows[id].lane && r.key == s.rows[id].key
    requires r.token.Some? ==> r.token.value < s.tokens
    requires r.attempts <= CLAIMS && (r.status == Pending ==> r.attempts < CLAIMS) && (r.status == Processing <==> r.token.Some?)
    requires r.status == Processing ==> HeadOfLane(s.rows, r.lane, id)
    ensures RowOk(s.(rows := s.rows[id := r]), id)
  {
    hide TaskOk, LateOk, SettlementOk, DispatchOk, TokensApart, KeysApart, InOrder, HeadOfLane, Advances;
    assert RowOk(s, id);
    SetAdvances(s, id, r);
    if r.status == Processing { HeadStays(s, s.(rows := s.rows[id := r]), r.lane, id); }
  }

  lemma SetAdvances(s: State, id: nat, r: Row)
    requires id in s.rows && !Settled(s.rows[id]) && r.lane == s.rows[id].lane && r.key == s.rows[id].key
    ensures Advances(s, s.(rows := s.rows[id := r]))
  {
  }

  /** A pending row was never dispatched, and no attempt owns it. */
  lemma PendingIsUntouched(s: State, id: nat)
    requires Inv(s) && id in s.rows && s.rows[id].status == Pending
    ensures forall k :: k in s.tasks && s.tasks[k].row == id ==> s.tasks[k].phase == Claiming
    ensures forall i :: 0 <= i < |s.log| ==> s.log[i].row != id
  {
    forall k | k in s.tasks && s.tasks[k].row == id ensures s.tasks[k].phase == Claiming { assert TaskOk(s, k); }
    forall i | 0 <= i < |s.log| ensures s.log[i].row != id { assert DispatchOk(s, i); }
  }

  lemma LandClaim(s: State, id: nat, token: nat)
    requires Inv(s) && token < s.tokens && AheadOfLane(s, id) && NoTask(s, token) && NoLate(s, token)
    ensures Inv(s.(rows := Claimed(s.rows, id, token, s.now)))
  {
    if id in s.rows && Due(s.rows[id], s.now) {
      assert RowOk(s, id);
      PendingIsUntouched(s, id);
      SetRow(s, id, Claimed(s.rows, id, token, s.now)[id]);
    } else {
      assert s.(rows := Claimed(s.rows, id, token, s.now)) == s;
    }
  }

  /** The row of an attempt that is no longer in memory is closed, or returned if it never began dispatch. */
  lemma EndRow(s: State, id: nat, token: nat, r: Row)
    requires Inv(s) && OwnsRow(s.rows, id, token) && NoTask(s, token) && r.token.None? && r.status != Processing
    requires r.lane == s.rows[id].lane && r.key == s.rows[id].key && r.attempts == s.rows[id].attempts
    requires r.status == Pending ==> r.attempts < CLAIMS && NoDispatch(s, token)
    ensures Inv(s.(rows := s.rows[id := r]))
  {
    assert RowOk(s, id);
    forall k | k in s.tasks && s.tasks[k].row == id ensures s.tasks[k].phase == Claiming { assert TaskOk(s, k); }
    forall i | 0 <= i < |s.log| && s.log[i].row == id ensures Settled(r) { assert DispatchOk(s, i); }
    SetRow(s, id, r);
  }

  // ----- Events -------------------------------------------------------------

  /** An attempt that has not begun dispatch is not in the log. */
  lemma NotDispatched(s: State, task: nat)
    requires Inv(s) && task in s.tasks && s.tasks[task].phase != Running
    ensures NoDispatch(s, s.tasks[task].token) && NoLate(s, s.tasks[task].token) && NoSettlement(s, s.tasks[task].token)
    ensures s.tasks[task].token < s.tokens && AheadOfLane(s, s.tasks[task].row)
  {
    assert TaskOk(s, task);
    forall i | 0 <= i < |s.log| ensures s.log[i].token != s.tasks[task].token { assert DispatchOk(s, i); }
  }

  lemma UnclaimedToken(s: State, task: nat)
    requires Inv(s) && task in s.tasks && s.tasks[task].phase == Claiming
    ensures NoRow(s, s.tasks[task].token)
  {
    assert TaskOk(s, task);
  }

  lemma ClaimInv(s: State, task: nat, reply: ClaimReply)
    requires Inv(s)
    ensures Inv(ClaimRow(s, task, reply))
  {
    hide Inv;
    if task in s.tasks && s.tasks[task].phase == Claiming {
      var t := s.tasks[task];
      NotDispatched(s, task);
      UnclaimedToken(s, task);
      DropTask(s, task);
      var forgotten := s.(tasks := s.tasks - {task});
      match reply {
        case Answered =>
          LandClaim(forgotten, t.row, t.token);
          var landed := forgotten.(rows := Claimed(s.rows, t.row, t.token, s.now));
          if landed.rows != s.rows {
            LaneStaysClaimed(forgotten, t.row, t.token);
            AddTask(landed, task, t.(phase := ReadingBack));
            assert ClaimRow(s, task, reply) == landed.(tasks := landed.tasks[task := t.(phase := ReadingBack)]);
          }
        case LostAfter =>
          LandClaim(forgotten, t.row, t.token);
          AddSettlement(forgotten.(rows := Claimed(s.rows, t.row, t.token, s.now)), t.row, Settlement(t.token, true));
        case LostBefore =>
          AddLate(forgotten, LateClaim(t.row, t.token));
          AddSettlement(forgotten.(late := s.late + {LateClaim(t.row, t.token)}), t.row, Settlement(t.token, true));
        case LostForever =>
          AddSettlement(forgotten, t.row, Settlement(t.token, true));
      }
    }
  }

  lemma LaneStaysClaimed(s: State, id: nat, token: nat)
    requires AheadOfLane(s, id)
    ensures AheadOfLane(s.(rows := Claimed(s.rows, id, token, s.now)), id)
  {
    var s' := s.(rows := Claimed(s.rows, id, token, s.now));
    assert Advances(s, s');
    LaneStays(s, s', id);
  }

  lemma ArriveInv(s: State, claim: LateClaim)
    requires Inv(s)
    ensures Inv(ArriveLate(s, claim))
  {
    if claim in s.late {
      assert LateOk(s, claim);
      DropLate(s, claim);
      var dropped := s.(late := s.late - {claim});
      LandClaim(dropped, claim.row, claim.token);
      assert ArriveLate(s, claim) == dropped.(rows := Claimed(dropped.rows, claim.row, claim.token, s.now));
    }
  }

  lemma ReadBackInv(s: State, task: nat, ok: bool)
    requires Inv(s)
    ensures Inv(ReadBackRow(s, task, ok))
  {
    if task in s.tasks && s.tasks[task].phase == ReadingBack {
      NotDispatched(s, task);
      DropTask(s, task);
      var s' := ReadBackRow(s, task, ok);
      if !ok {
        AddSettlement(s.(tasks := s.tasks - {task}), s.tasks[task].row, Settlement(s.tasks[task].token, true));
      } else if s'.tasks == s.tasks[task := s.tasks[task].(phase := Ready)] {
        PhaseInv(s, task, Ready);
      }
    }
  }

  lemma PhaseInv(s: State, task: nat, phase: Phase)
    requires Inv(s) && task in s.tasks && s.tasks[task].phase != Claiming && phase != Claiming
    requires s.tasks[task].phase == Running ==> phase == Running
    ensures Inv(s.(tasks := s.tasks[task := s.tasks[task].(phase := phase)]))
  {
    var s' := s.(tasks := s.tasks[task := s.tasks[task].(phase := phase)]);
    hide RowOk, DispatchOk, HeadOfLane, KeysApart, InOrder;
    assert TaskOk(s, task);
    forall i | 0 <= i < |s.log| ensures TokenRuns(s', s.log[i].token) { DispatchRuns(s, i); }
    MemoryInv(s, s');
  }

  /** Earlier dispatches in the lane were of earlier rows: a later one would have found this row settled. */
  lemma DispatchedLast(s: State, task: nat, i: nat)
    requires Inv(s) && task in s.tasks && s.tasks[task].phase == Ready && i < |s.log|
    ensures s.tasks[task].row in s.rows && s.log[i].row != s.tasks[task].row
    ensures s.log[i].lane == s.rows[s.tasks[task].row].lane ==> s.log[i].row < s.tasks[task].row
  {
    var t, d := s.tasks[task], s.log[i];
    assert TaskOk(s, task) && DispatchOk(s, i) && RowOk(s, t.row);
    assert !EarlierIs(s.rows, t.row, d.lane, d.row);
  }

  lemma AppendDispatch(s: State, d: Dispatch)
    requires Inv(s) && d.row in s.rows && s.rows[d.row].lane == d.lane && OwnsRow(s.rows, d.row, d.token)
    requires TokenRuns(s, d.token)
    requires forall i :: 0 <= i < |s.log| ==> s.log[i].row != d.row && (s.log[i].lane == d.lane ==> s.log[i].row < d.row)
    ensures Inv(s.(log := s.log + [d]))
  {
    hide KeysApart, HeadOfLane;
    var s' := s.(log := s.log + [d]);
    assert RowOk(s, d.row);
    forall j | j in s'.rows ensures RowOk(s', j) { assert RowOk(s, j); }
    forall k | k in s'.tasks ensures TaskOk(s', k) { assert TaskOk(s, k); }
    forall c | c in s'.late ensures LateOk(s', c) { assert LateOk(s, c); }
    forall j | j in s'.settlements ensures SettlementOk(s', j) { assert SettlementOk(s, j); }
    forall i | 0 <= i < |s'.log| ensures DispatchOk(s', i) { if i < |s.log| { assert DispatchOk(s, i); } }
    forall i, j | 0 <= i < j < |s'.log| ensures InOrder(s'.log, i, j) { if j < |s.log| { assert InOrder(s.log, i, j); } }
  }

  lemma BeginInv(s: State, task: nat)
    requires Inv(s)
    ensures Inv(BeginRow(s, task))
  {
    hide Inv, HeadOfLane;
    if BeginRow(s, task) != s {
      var t := s.tasks[task];
      var running := s.(tasks := s.tasks[task := t.(phase := Running)]);
      PhaseInv(s, task, Running);
      NotDispatched(s, task);
      OnlyTask(s, task);
      forall i | 0 <= i < |s.log|
        ensures s.log[i].row != t.row && (s.log[i].lane == s.rows[t.row].lane ==> s.log[i].row < t.row)
      {
        DispatchedLast(s, task, i);
      }
      AppendDispatch(running, Dispatch(t.row, s.rows[t.row].lane, t.token));
    }
  }

  lemma OnlyTask(s: State, task: nat)
    requires Inv(s) && task in s.tasks
    ensures forall k :: k in s.tasks && s.tasks[k].token == s.tasks[task].token ==> k == task
    ensures s.tasks[task].phase != Claiming ==> OwnsRow(s.rows, s.tasks[task].row, s.tasks[task].token)
  {
    assert TaskOk(s, task);
  }

  lemma FinishInv(s: State, task: nat, ok: bool, write: Write)
    requires Inv(s)
    ensures Inv(FinishRow(s, task, ok, write))
  {
    if task in s.tasks && s.tasks[task].phase == Running {
      var t := s.tasks[task];
      assert TaskOk(s, task);
      DropTask(s, task);
      var dropped := s.(tasks := s.tasks - {task});
      var s' := FinishRow(s, task, ok, write);
      if s'.rows != s.rows { EndRow(dropped, t.row, t.token, s'.rows[t.row]); }
      if s'.settlements != s.settlements { AddSettlement(dropped.(rows := s'.rows), t.row, Settlement(t.token, false)); }
    }
  }

  lemma DropSettlement(s: State, id: nat)
    requires Inv(s)
    ensures Inv(s.(settlements := s.settlements - {id}))
  {
    var s' := s.(settlements := s.settlements - {id});
    hide RowOk, DispatchOk, HeadOfLane, KeysApart, InOrder;
    forall i | 0 <= i < |s.log| ensures TokenRuns(s', s.log[i].token) { DispatchRuns(s, i); }
    MemoryInv(s, s');
  }

  lemma SettleInv(s: State, id: nat, write: Write)
    requires Inv(s)
    ensures Inv(SettleRow(s, id, write))
  {
    if id in s.settlements && write != NotWritten {
      var f := s.settlements[id];
      var rows := SettledRows(s.rows, id, f, s.now);
      var written := s.(rows := rows);
      assert NoTask(s, f.token);
      if f.beforeDispatch { forall i | 0 <= i < |s.log| ensures s.log[i].token != f.token { assert DispatchOk(s, i); } }
      if OwnsRow(s.rows, id, f.token) { EndRow(s, id, f.token, rows[id]); }
      DropSettlement(written, id);
    }
  }

  lemma RestartInv(s: State)
    requires Inv(s)
    ensures Inv(RestartAll(s))
  {
    var s' := RestartAll(s);
    LogStays(s, s');
    assert Advances(s, s');
    KeysStay(s, s');
    forall j | j in s'.rows ensures RowOk(s', j) { assert RowOk(s, j); }
    forall c | c in s'.late ensures LateOk(s', c) { assert LateOk(s, c); LaneStays(s, s', c.row); }
    forall i | 0 <= i < |s'.log| ensures DispatchOk(s', i) { assert DispatchOk(s, i); DispatchStays(s, s', i); }
  }

  /** A purged row is settled, so no attempt owns it. */
  lemma PurgedTokens(s: State, id: nat)
    requires Inv(s) && id in s.rows && Settled(s.rows[id])
    ensures var rows := s.rows - {id};
            && (forall k :: k in s.tasks && s.tasks[k].phase != Claiming ==> OwnsRow(rows, s.tasks[k].row, s.tasks[k].token))
            && (forall k, j :: k in s.tasks && s.tasks[k].phase == Claiming && j in rows
                  ==> rows[j].token != Some(s.tasks[k].token))
            && (forall c, j :: c in s.late && j in rows ==> rows[j].token != Some(c.token))
  {
    hide Inv;
    RowlessTokens(s);
  }

  lemma PurgeInv(s: State, id: nat)
    requires Inv(s)
    ensures Inv(PurgeRow(s, id))
  {
    hide RowOk, TaskOk, LateOk, SettlementOk, DispatchOk, TokensApart, KeysApart, InOrder, HeadOfLane;
    var s' := PurgeRow(s, id);
    if s' != s {
      assert Advances(s, s');
      PurgedTokens(s, id);
      KeysStay(s, s');
      RowsKept(s, s', id);
      LogKept(s, s');
      LateKept(s, s');
      TasksKept(s, s');
      RecordsKept(s, s');
    }
  }

  lemma TickInv(s: State, ms: nat)
    requires Inv(s)
    ensures Inv(s.(now := s.now + ms))
  {
    var s' := s.(now := s.now + ms);
    hide RowOk, DispatchOk, HeadOfLane, KeysApart, InOrder;
    forall i | 0 <= i < |s.log| ensures TokenRuns(s', s.log[i].token) { DispatchRuns(s, i); }
    MemoryInv(s, s');
  }

  // ----- Every run ----------------------------------------------------------

  lemma NextInv(s: State, e: Event)
    requires Inv(s)
    ensures Inv(Next(s, e))
  {
    hide Inv;
    match e {
      case Tick(ms) => TickInv(s, ms);
      case Reserve(key, lane) => ReserveInv(s, key, lane);
      case Select(task, row) => SelectInv(s, task, row);
      case Claim(task, reply) => ClaimInv(s, task, reply);
      case Arrive(claim) => ArriveInv(s, claim);
      case ReadBack(task, ok) => ReadBackInv(s, task, ok);
      case Begin(task) => BeginInv(s, task);
      case Finish(task, ok, write) => FinishInv(s, task, ok, write);
      case Settle(row, write) => SettleInv(s, row, write);
      case Restart => RestartInv(s);
      case Purge(row) => PurgeInv(s, row);
    }
  }

  lemma {:induction false} RunInv(events: seq<Event>)
    ensures Inv(Run(Start, events))
  {
    if events != [] {
      RunInv(events[..|events| - 1]);
      NextInv(Run(Start, events[..|events| - 1]), events[|events| - 1]);
    }
  }
}
