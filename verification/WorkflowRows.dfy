/** The queries and row updates inside the workflow's transactions, as the loops a database runs for them. */
module WorkflowRows {
  import opened Incident
  import opened IncidentInvariants
  import opened Wrappers
  import WorkingTime

  /** `orderBy version desc, take 1`. */
  method LatestAnswer(answers: seq<Answer>) returns (latest: Answer)
    requires answers != []
    ensures latest == Latest(answers) && latest in answers
    ensures forall i :: 0 <= i < |answers| ==> answers[i].version <= latest.version
  {
    latest := answers[0];
    var i := 1;
    while i < |answers|
      invariant 1 <= i <= |answers| && latest == Latest(answers[..i]) && latest in answers[..i]
      invariant forall j :: 0 <= j < i ==> answers[j].version <= latest.version
    {
      assert answers[..i + 1][..i] == answers[..i];
      if answers[i].version >= latest.version { latest := answers[i]; }
      i := i + 1;
    }
    assert answers[..|answers|] == answers;
  }

  /** `incidentAnswer.update` by id. */
  method UpdateAnswer(answers: seq<Answer>, a: Answer) returns (rows: seq<Answer>)
    ensures rows == SetAnswer(answers, a)
  {
    rows := [];
    for i := 0 to |answers|
      invariant |rows| == i && forall j :: 0 <= j < i ==> rows[j] == if answers[j].id == a.id then a else answers[j]
    {
      rows := rows + [if answers[i].id == a.id then a else answers[i]];
    }
  }

  /** `startAssignment`: the next number after the latest cycle, or an error while that one is open. */
  method StartCycle(policy: Policy, cycles: seq<Cycle>, group: nat, at: int) returns (started: Option<seq<Cycle>>)
    ensures started == StartAssignment(policy, cycles, group, at)
  {
    if policy == Legacy { return Some(cycles); }
    if |cycles| > 0 && cycles[|cycles| - 1].endedAt.None? { return None; }
    var sequence := if |cycles| == 0 then 1 else cycles[|cycles| - 1].sequence + 1;
    var preparation := WorkingTime.AddWorkingHours(at, WorkingTime.Finite(22.0));
    var giveBack := WorkingTime.AddWorkingHours(at, WorkingTime.Finite(2.0));
    WorkingTime.DueIsUnique(at, PREPARATION_MS, preparation.at, WorkingTime.DueAt(at, PREPARATION_MS));
    WorkingTime.DueIsUnique(at, RETURN_MS, giveBack.at, WorkingTime.DueAt(at, RETURN_MS));
    return Some(cycles + [Cycle(sequence, group, at, preparation.at, giveBack.at, None, None, None, Active)]);
  }

  /** `finishAssignment`: every open cycle is ended. */
  method FinishCycles(cycles: seq<Cycle>, at: int, ending: Ending) returns (rows: seq<Cycle>)
    ensures rows == FinishAssignment(cycles, at, ending)
  {
    rows := [];
    for i := 0 to |cycles|
      invariant |rows| == i && rows == FinishAssignment(cycles[..i], at, ending)
    {
      rows := rows + [if cycles[i].endedAt == None then cycles[i].(endedAt := Some(at), ending := ending) else cycles[i]];
    }
    assert cycles[..|cycles|] == cycles;
  }

  predicate OnlyLastOpen(cycles: seq<Cycle>) { forall i :: 0 <= i < |cycles| - 1 ==> cycles[i].endedAt.Some? }

  lemma CyclesOnlyLastOpen(c: Case, now: int)
    requires CyclesInv(c, now)
    ensures OnlyLastOpen(c.cycles)
  {
    forall i | 0 <= i < |c.cycles| - 1 ensures c.cycles[i].endedAt.Some? { assert CycleOk(c.cycles, i + 1, c.createdAt, now); }
  }

  /** `recordPreparation`: the first open cycle gets the mark unless it has one; every submission is logged. */
  method RecordSubmission(c: Case, answer: nat, at: int) returns (recorded: Option<Case>)
    requires OnlyLastOpen(c.cycles)
    ensures recorded == RecordPreparation(c, answer, at)
  {
    if c.policy == Legacy { return Some(c); }
    var k := 0;
    while k < |c.cycles| && c.cycles[k].endedAt.Some?
      invariant 0 <= k <= |c.cycles| && forall i :: 0 <= i < k ==> c.cycles[i].endedAt.Some?
    {
      k := k + 1;
    }
    if k == |c.cycles| { return None; }
    assert k == |c.cycles| - 1;
    var marked := c;
    if c.cycles[k].firstPreparedAt.None? {
      marked := c.(cycles := c.cycles[k := c.cycles[k].(firstPreparedAt := Some(at), firstPreparedAnswer := Some(answer))]);
    }
    return Some(marked.(submissions := c.submissions + [Submission(c.cycles[k].sequence, answer, at)]));
  }

  /** `recordPolicyDelivery`: the overdue mark is read off the working time since the deadline. */
  method RecordPolicyDelivery(c: Case, at: int) returns (recorded: Case)
    ensures recorded == RecordDelivery(c, at)
  {
    if c.policy == Legacy { return c; }
    var late := WorkingTime.WorkingMilliseconds(c.deadlineAt, at);
    recorded := c.(slaDeliveredAt := Some(at), overdue := late > 0);
    var cycles := FinishCycles(recorded.cycles, at, Delivered);
    recorded := recorded.(cycles := cycles);
  }
}
