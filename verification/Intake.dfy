/** Idempotent intake of channel messages: submit_channel_message of apps/agent-platform/agent_platform/service.py over
    create_case and find_case_by_message_id of repository.py, whose unique index comes from
    migrations/004_case_idempotency.sql. A case's id is its position in the table; an empty message id is stored as
    NULL, which the index never compares. */
module Intake {
  import opened Prelude

  datatype Row = Row(source: string, messageId: Option<string>, active: bool)

  datatype Submission = Submission(source: string, messageId: string)

  /** The row create_case inserts. */
  function RowFor(s: Submission): Row {
    Row(if s.source == "" then "web" else s.source, if s.messageId == "" then None else Some(s.messageId), true)
  }

  predicate SameKey(a: Row, b: Row) {
    a.messageId.Some? && a.messageId == b.messageId && a.source == b.source
  }

  predicate Taken(rows: seq<Row>, row: Row) {
    exists i :: 0 <= i < |rows| && SameKey(rows[i], row)
  }

  /** find_case_by_message_id: only active rows, and never for an empty source or message id. */
  function Find(rows: seq<Row>, source: string, messageId: string): Option<nat> {
    if rows == [] then None
    else
      var n := |rows| - 1;
      match Find(rows[..n], source, messageId)
      case Some(id) => Some(id)
      case None =>
        if source != "" && messageId != "" && rows[n].active
            && SameKey(rows[n], Row(source, Some(messageId), true)) then Some(n) else None
  }

  lemma {:induction false} FindFacts(rows: seq<Row>, source: string, messageId: string)
    ensures var found := Find(rows, source, messageId);
            && (found.Some? ==>
                  && found.value < |rows| && rows[found.value].active
                  && source != "" && messageId != "" && SameKey(rows[found.value], Row(source, Some(messageId), true)))
            && (found.None? && source != "" && messageId != "" ==>
                  forall i :: 0 <= i < |rows| && SameKey(rows[i], Row(source, Some(messageId), true)) ==>
                      !rows[i].active)
  {
    if rows != [] {
      var n := |rows| - 1;
      FindFacts(rows[..n], source, messageId);
      assert forall i :: 0 <= i < n ==> rows[..n][i] == rows[i];
    }
  }

  /** The uniqueness the index enforces. */
  ghost predicate Unique(rows: seq<Row>) {
    forall i, j :: 0 <= i < j < |rows| ==> !SameKey(rows[i], rows[j])
  }

  // ---------------------------------------------------------------- one submission at a time

  datatype Reply = Duplicate(id: nat) | Accepted(id: nat) | Refused

  /** The tables: cases, the case of each stored user message, and the case of each scheduled background processing. */
  datatype Tables = Tables(rows: seq<Row>, stored: multiset<nat>, scheduled: multiset<nat>)

  function Created(rows: seq<Row>, s: Submission): (seq<Row>, Option<nat>) {
    var row := RowFor(s);
    if Taken(rows, row) then (rows, Find(rows, row.source, s.messageId)) else (rows + [row], Some(|rows|))
  }

  function Alone(t: Tables, s: Submission): (Tables, Reply) {
    match Find(t.rows, s.source, s.messageId)
    case Some(id) => (t, Duplicate(id))
    case None =>
      var (rows, made) := Created(t.rows, s);
      match made
      case None => (t, Refused)
      case Some(id) => (Tables(rows, t.stored + multiset{id}, t.scheduled + multiset{id}), Accepted(id))
  }

  function Deleted(rows: seq<Row>, id: nat): seq<Row> {
    if id < |rows| then rows[id := rows[id].(active := false)] else rows
  }

  class Repository {
    var rows: seq<Row>
    var stored: multiset<nat>
    var scheduled: multiset<nat>

    ghost function View(): Tables
      reads this
    {
      Tables(rows, stored, scheduled)
    }

    constructor ()
      ensures View() == Tables([], multiset{}, multiset{})
    {
      rows, stored, scheduled := [], multiset{}, multiset{};
    }

    /** The insert, refused by the unique index or not. */
    method CreateCase(s: Submission) returns (made: Option<nat>)
      modifies this`rows
      ensures (rows, made) == Created(old(rows), s)
    {
      var row := RowFor(s);
      for i := 0 to |rows|
        invariant rows == old(rows) && forall j :: 0 <= j < i ==> !SameKey(rows[j], row)
      {
        if SameKey(rows[i], row) {
          return Find(rows, row.source, s.messageId);
        }
      }
      made := Some(|rows|);
      rows := rows + [row];
    }

    method SubmitChannelMessage(s: Submission) returns (reply: Reply)
      modifies this
      ensures (View(), reply) == Alone(old(View()), s)
    {
      var existing := Find(rows, s.source, s.messageId);
      if existing.Some? {
        return Duplicate(existing.value);
      }
      var made := CreateCase(s);
      if made.None? {
        return Refused;
      }
      stored := stored + multiset{made.value};
      scheduled := scheduled + multiset{made.value};
      return Accepted(made.value);
    }

    method DeleteCase(id: nat)
      modifies this`rows
      ensures rows == Deleted(old(rows), id)
    {
      if id < |rows| {
        rows := rows[id := rows[id].(active := false)];
      }
    }
  }

  // ---------------------------------------------------------------- any interleaving

  /** Where a submission stands between its database calls. A submission fails when the row it collided with is
      inactive, when the row it inserted is gone before it is read back, or when its case is lost before it is
      scheduled. */
  datatype Phase =
    | Arrived | Missed | Collided | Inserted(id: nat) | Held(id: nat) | Kept(id: nat)
    | Finished(id: nat, duplicate: bool) | Failed | Gone(id: nat) | Lost(id: nat)

  datatype Worker = Worker(submission: Submission, phase: Phase)

  datatype State = State(tables: Tables, workers: seq<Worker>)

  const START := State(Tables([], multiset{}, multiset{}), [])

  datatype Step = Arrive(submission: Submission) | Advance(worker: nat) | Delete(id: nat)

  predicate Active(rows: seq<Row>, id: nat) { id < |rows| && rows[id].active }

  /** A worker's next database call. */
  function Moved(t: Tables, w: Worker): (Tables, Phase) {
    var s := w.submission;
    match w.phase
    case Arrived =>
      (match Find(t.rows, s.source, s.messageId)
       case Some(id) => (t, Finished(id, true))
       case None => (t, Missed))
    case Missed =>
      if Taken(t.rows, RowFor(s)) then (t, Collided) else (t.(rows := t.rows + [RowFor(s)]), Inserted(|t.rows|))
    case Collided =>
      (match Find(t.rows, RowFor(s).source, s.messageId)
       case Some(id) => (t, Held(id))
       case None => (t, Failed))
    case Inserted(id) => (t, if Active(t.rows, id) then Held(id) else Gone(id))
    case Held(id) => (t.(stored := t.stored + multiset{id}), Kept(id))
    case Kept(id) =>
      if Active(t.rows, id) then (t.(scheduled := t.scheduled + multiset{id}), Finished(id, false)) else (t, Lost(id))
    case _ => (t, w.phase)
  }

  function Advanced(st: State, i: nat): State
    requires i < |st.workers|
  {
    var (tables, phase) := Moved(st.tables, st.workers[i]);
    State(tables, st.workers[i := st.workers[i].(phase := phase)])
  }

  function Next(st: State, step: Step): State {
    match step
    case Arrive(s) => st.(workers := st.workers + [Worker(s, Arrived)])
    case Advance(i) => if i < |st.workers| then Advanced(st, i) else st
    case Delete(id) => st.(tables := st.tables.(rows := Deleted(st.tables.rows, id)))
  }

  function Run(steps: seq<Step>): State {
    if steps == [] then START else Next(Run(steps[..|steps| - 1]), steps[|steps| - 1])
  }

  function CaseOf(w: Worker): Option<nat> {
    match w.phase
    case Inserted(id) => Some(id)
    case Held(id) => Some(id)
    case Kept(id) => Some(id)
    case Finished(id, _) => Some(id)
    case Gone(id) => Some(id)
    case Lost(id) => Some(id)
    case _ => None
  }

  predicate Fails(phase: Phase) { phase.Failed? || phase.Gone? || phase.Lost? }

  /** The case whose message table this worker has written to. */
  function StoredBy(w: Worker): Option<nat> {
    match w.phase
    case Kept(id) => Some(id)
    case Lost(id) => Some(id)
    case Finished(id, duplicate) => if duplicate then None else Some(id)
    case _ => None
  }

  function ScheduledBy(w: Worker): Option<nat> {
    if w.phase.Finished? && !w.phase.duplicate then Some(w.phase.id) else None
  }

  function One(found: Option<nat>, id: nat): nat { if found == Some(id) then 1 else 0 }

  function Tally(f: Worker -> Option<nat>, workers: seq<Worker>, id: nat): nat {
    if workers == [] then 0 else Tally(f, workers[..|workers| - 1], id) + One(f(workers[|workers| - 1]), id)
  }

  lemma {:induction false} TallyUpdate(f: Worker -> Option<nat>, workers: seq<Worker>, i: nat, w: Worker, id: nat)
    requires i < |workers|
    ensures Tally(f, workers[i := w], id) == Tally(f, workers, id) - One(f(workers[i]), id) + One(f(w), id)
  {
    var n := |workers| - 1;
    if i < n {
      assert workers[i := w][..n] == workers[..n][i := w];
      TallyUpdate(f, workers[..n], i, w, id);
    } else {
      assert workers[i := w][..n] == workers[..n];
    }
  }

  /** Some row with this row's key has been deleted. */
  predicate KeyDeleted(rows: seq<Row>, row: Row) {
    exists i :: 0 <= i < |rows| && SameKey(rows[i], row) && !rows[i].active
  }

  /** The row this submission works on has been deleted: its case, or before it has one, the row that holds its key. */
  predicate OwnRowDeleted(rows: seq<Row>, w: Worker) {
    match CaseOf(w)
    case Some(id) => id < |rows| && !rows[id].active
    case None => KeyDeleted(rows, RowFor(w.submission))
  }

  ghost predicate WorkerOk(rows: seq<Row>, w: Worker) {
    && (CaseOf(w).Some? ==> CaseOf(w).value < |rows| && rows[CaseOf(w).value].(active := true) == RowFor(w.submission))
    && (w.phase.Collided? ==> Taken(rows, RowFor(w.submission)))
    && (Fails(w.phase) ==> OwnRowDeleted(rows, w))
  }

  /** What holds between any two database calls. */
  ghost predicate Inv(st: State) {
    && Unique(st.tables.rows)
    && (forall i :: 0 <= i < |st.workers| ==> WorkerOk(st.tables.rows, st.workers[i]))
    && (forall id :: st.tables.stored[id] == Tally(StoredBy, st.workers, id))
    && (forall id :: st.tables.scheduled[id] == Tally(ScheduledBy, st.workers, id))
  }

  lemma MovedOk(t: Tables, w: Worker)
    requires Unique(t.rows) && WorkerOk(t.rows, w)
    ensures var (after, phase) := Moved(t, w);
            && Unique(after.rows)
            && |t.rows| <= |after.rows| && after.rows[..|t.rows|] == t.rows
            && WorkerOk(after.rows, w.(phase := phase))
  {
    var s := w.submission;
    FindFacts(t.rows, s.source, s.messageId);
    FindFacts(t.rows, RowFor(s).source, s.messageId);
    hide Find;
    if w.phase.Missed? && !Taken(t.rows, RowFor(s)) {
      GrowsUnique(t.rows, RowFor(s));
    }
    hide Unique;
  }

  lemma GrowsUnique(rows: seq<Row>, row: Row)
    requires Unique(rows) && !Taken(rows, row)
    ensures Unique(rows + [row])
  {
  }

  lemma MovedCounts(t: Tables, w: Worker, id: nat)
    ensures var (after, phase) := Moved(t, w);
            && after.stored[id] == t.stored[id] - One(StoredBy(w), id) + One(StoredBy(w.(phase := phase)), id)
            && after.scheduled[id] == t.scheduled[id] - One(ScheduledBy(w), id)
               + One(ScheduledBy(w.(phase := phase)), id)
  {
    hide Find, Taken;
  }

  lemma AdvanceKeepsInv(st: State, i: nat)
    requires Inv(st) && i < |st.workers|
    ensures Inv(Advanced(st, i))
  {
    var rows, w := st.tables.rows, st.workers[i];
    var (after, phase) := Moved(st.tables, w);
    var now := w.(phase := phase);
    assert WorkerOk(rows, w);
    MovedOk(st.tables, w);
    hide Moved, Unique, WorkerOk, StoredBy, ScheduledBy, Tally, One;
    forall k | 0 <= k < |st.workers| && k != i
      ensures WorkerOk(after.rows, st.workers[k])
    {
      RowsGrow(rows, after.rows, st.workers[k]);
    }
    forall id: nat
      ensures after.stored[id] == Tally(StoredBy, st.workers[i := now], id)
      ensures after.scheduled[id] == Tally(ScheduledBy, st.workers[i := now], id)
    {
      MovedCounts(st.tables, w, id);
      TallyUpdate(StoredBy, st.workers, i, now, id);
      TallyUpdate(ScheduledBy, st.workers, i, now, id);
    }
  }

  lemma RowsGrow(a: seq<Row>, b: seq<Row>, w: Worker)
    requires |a| <= |b| && b[..|a|] == a && WorkerOk(a, w)
    ensures WorkerOk(b, w)
  {
    assert forall i :: 0 <= i < |a| ==> b[i] == b[..|a|][i];
    var row := RowFor(w.submission);
    if KeyDeleted(a, row) {
      DeletedInPrefix(a, b, row);
    }
  }

  lemma DeletedInPrefix(a: seq<Row>, b: seq<Row>, row: Row)
    requires |a| <= |b| && b[..|a|] == a && KeyDeleted(a, row)
    ensures KeyDeleted(b, row)
  {
    var k :| 0 <= k < |a| && SameKey(a[k], row) && !a[k].active;
    assert b[k] == b[..|a|][k];
  }

  lemma NextKeepsInv(st: State, step: Step)
    requires Inv(st)
    ensures Inv(Next(st, step))
  {
    match step
    case Arrive(s) => assert Next(st, step).workers[..|st.workers|] == st.workers;
    case Advance(i) =>
      if i < |st.workers| {
        AdvanceKeepsInv(st, i);
      }
    case Delete(id) =>
      hide Tally;
      var before, after := st.tables.rows, Deleted(st.tables.rows, id);
      forall k | 0 <= k < |st.workers|
        ensures WorkerOk(after, st.workers[k])
      {
        DeleteKeepsWorker(before, id, st.workers[k]);
      }
  }

  lemma DeleteKeepsWorker(rows: seq<Row>, id: nat, w: Worker)
    requires WorkerOk(rows, w)
    ensures WorkerOk(Deleted(rows, id), w)
  {
    var after := Deleted(rows, id);
    if w.phase.Collided? {
      var k :| 0 <= k < |rows| && SameKey(rows[k], RowFor(w.submission));
      assert SameKey(after[k], RowFor(w.submission));
    }
    if CaseOf(w).None? && KeyDeleted(rows, RowFor(w.submission)) {
      DeletedStaysDeleted(rows, id, RowFor(w.submission));
    }
  }

  lemma DeletedStaysDeleted(rows: seq<Row>, id: nat, row: Row)
    requires KeyDeleted(rows, row)
    ensures KeyDeleted(Deleted(rows, id), row)
  {
    var k :| 0 <= k < |rows| && SameKey(rows[k], row) && !rows[k].active;
    var after := Deleted(rows, id);
    assert SameKey(after[k], row) && !after[k].active;
  }

  lemma {:induction false} RunKeepsInv(steps: seq<Step>)
    ensures Inv(Run(steps))
  {
    if steps != [] {
      RunKeepsInv(steps[..|steps| - 1]);
      NextKeepsInv(Run(steps[..|steps| - 1]), steps[|steps| - 1]);
    }
  }

  /** Under any interleaving, deletions included, all submissions of one message that get a case get the same one. */
  lemma OneCasePerMessage(steps: seq<Step>, i: nat, j: nat)
    requires var st := Run(steps);
             && i < |st.workers| && j < |st.workers|
             && SameKey(RowFor(st.workers[i].submission), RowFor(st.workers[j].submission))
             && CaseOf(st.workers[i]).Some? && CaseOf(st.workers[j]).Some?
    ensures var st := Run(steps);
            CaseOf(st.workers[i]) == CaseOf(st.workers[j])
  {
    RunKeepsInv(steps);
    var st := Run(steps);
    hide Tally, Run;
    var a, b := CaseOf(st.workers[i]).value, CaseOf(st.workers[j]).value;
    assert WorkerOk(st.tables.rows, st.workers[i]) && WorkerOk(st.tables.rows, st.workers[j]);
    UniqueIds(st.tables.rows, a, b);
  }

  lemma UniqueIds(rows: seq<Row>, a: nat, b: nat)
    requires Unique(rows) && a < |rows| && b < |rows| && SameKey(rows[a], rows[b])
    ensures a == b
  {
    assert SameKey(rows[b], rows[a]);
  }

  lemma {:induction false} NoneInactive(steps: seq<Step>)
    requires forall k :: 0 <= k < |steps| ==> !steps[k].Delete?
    ensures forall i :: 0 <= i < |Run(steps).tables.rows| ==> Run(steps).tables.rows[i].active
  {
    if steps != [] {
      NoneInactive(steps[..|steps| - 1]);
      hide Find, Taken;
    }
  }

  /** A submission fails at a step exactly when the row it works on has been deleted by then. */
  lemma FailsIffRowDeleted(t: Tables, w: Worker)
    requires Unique(t.rows) && WorkerOk(t.rows, w)
    requires w.phase.Collided? || w.phase.Inserted? || w.phase.Kept?
    ensures Fails(Moved(t, w).1) <==> OwnRowDeleted(t.rows, w)
  {
    var row := RowFor(w.submission);
    if w.phase.Collided? {
      FindFacts(t.rows, row.source, w.submission.messageId);
      TakenOnce(t.rows, row);
    }
    hide Find, Unique;
  }

  /** The one row of a taken key is active or deleted. */
  lemma TakenOnce(rows: seq<Row>, row: Row)
    requires Unique(rows) && Taken(rows, row)
    ensures KeyDeleted(rows, row) <==> !exists i :: 0 <= i < |rows| && SameKey(rows[i], row) && rows[i].active
  {
    var k :| 0 <= k < |rows| && SameKey(rows[k], row);
    forall i | 0 <= i < |rows| && SameKey(rows[i], row)
      ensures i == k
    {
      UniqueIds(rows, i, k);
    }
  }

  /** In every run a submission that failed works on a row that was deleted. */
  lemma FailedMeansDeleted(steps: seq<Step>, i: nat)
    requires i < |Run(steps).workers| && Fails(Run(steps).workers[i].phase)
    ensures OwnRowDeleted(Run(steps).tables.rows, Run(steps).workers[i])
  {
    RunKeepsInv(steps);
    assert WorkerOk(Run(steps).tables.rows, Run(steps).workers[i]);
  }

  /** Without deletions no submission fails. */
  lemma NoDeletionNoFailure(steps: seq<Step>, i: nat)
    requires forall k :: 0 <= k < |steps| ==> !steps[k].Delete?
    requires i < |Run(steps).workers|
    ensures !Fails(Run(steps).workers[i].phase)
  {
    if Fails(Run(steps).workers[i].phase) {
      FailedMeansDeleted(steps, i);
      NoneInactive(steps);
    }
  }

  // ---------------------------------------------------------------- how often a message is stored

  /** Step n of the run is the lookup of submission i. */
  ghost predicate LookupAt(steps: seq<Step>, i: nat, n: nat) {
    && n < |steps| && steps[n] == Advance(i)
    && i < |Run(steps[..n]).workers| && Run(steps[..n]).workers[i].phase.Arrived?
  }

  ghost predicate MissAt(steps: seq<Step>, i: nat, n: nat) {
    && LookupAt(steps, i, n)
    && var st, s := Run(steps[..n]), Run(steps[..n]).workers[i].submission;
       Find(st.tables.rows, s.source, s.messageId).None?
  }

  /** The lookup of submission i has run and found nothing. */
  ghost predicate LookupMissed(steps: seq<Step>, i: nat) {
    exists n :: MissAt(steps, i, n)
  }

  /** The lookup of submission i has run while case id was not in the table, or was skipped for want of a key. */
  ghost predicate LookedTooEarly(steps: seq<Step>, i: nat, id: nat) {
    exists n :: EarlyAt(steps, i, n, id)
  }

  ghost predicate EarlyAt(steps: seq<Step>, i: nat, n: nat, id: nat) {
    && LookupAt(steps, i, n)
    && var st, s := Run(steps[..n]), Run(steps[..n]).workers[i].submission;
       s.source == "" || s.messageId == "" || |st.tables.rows| <= id
  }

  predicate PastMiss(phase: Phase) { !phase.Arrived? && !(phase.Finished? && phase.duplicate) }

  lemma MissSnoc(front: seq<Step>, last: Step, i: nat)
    ensures LookupMissed(front + [last], i) <==> LookupMissed(front, i) || MissAt(front + [last], i, |front|)
  {
    var steps := front + [last];
    forall n: nat | n < |front|
      ensures MissAt(steps, i, n) <==> MissAt(front, i, n)
    {
      assert steps[..n] == front[..n];
    }
    hide Run, Find;
    if LookupMissed(front, i) {
      var n :| MissAt(front, i, n);
      assert MissAt(steps, i, n);
    }
  }

  /** Where a submission stands tells whether its lookup missed. */
  lemma {:induction false} PastMissIff(steps: seq<Step>, i: nat)
    ensures LookupMissed(steps, i) <==> i < |Run(steps).workers| && PastMiss(Run(steps).workers[i].phase)
  {
    if steps != [] {
      var front, last := steps[..|steps| - 1], steps[|steps| - 1];
      assert steps == front + [last];
      PastMissIff(front, i);
      MissSnoc(front, last, i);
      RunThen(front, last);
      assert steps[..|front|] == front;
      hide LookupMissed, Run, Find, Taken;
    }
  }

  /** Without deletions tables only grow, and a submission stays the same. */
  lemma {:induction false} RunOnlyGrows(steps: seq<Step>, n: nat)
    requires n <= |steps| && forall k :: 0 <= k < |steps| ==> !steps[k].Delete?
    ensures var before, after := Run(steps[..n]), Run(steps);
            && |before.tables.rows| <= |after.tables.rows|
               && after.tables.rows[..|before.tables.rows|] == before.tables.rows
            && |before.workers| <= |after.workers|
            && forall i :: 0 <= i < |before.workers| ==> after.workers[i].submission == before.workers[i].submission
  {
    if n == |steps| {
      assert steps[..n] == steps;
    } else {
      var front, last := steps[..|steps| - 1], steps[|steps| - 1];
      assert front[..n] == steps[..n];
      RunOnlyGrows(front, n);
      assert steps == front + [last];
      RunThen(front, last);
      hide Run;
      NextOnlyGrows(Run(front), last);
    }
  }

  lemma NextOnlyGrows(st: State, step: Step)
    requires !step.Delete?
    ensures var after := Next(st, step);
            && |st.tables.rows| <= |after.tables.rows| && after.tables.rows[..|st.tables.rows|] == st.tables.rows
            && |st.workers| <= |after.workers|
            && forall i :: 0 <= i < |st.workers| ==> after.workers[i].submission == st.workers[i].submission
  {
    hide Find, Taken, RowFor;
  }

  /** A lookup misses exactly when it runs before its case is inserted, or without a source or message id. */
  lemma MissIffEarly(steps: seq<Step>, i: nat, n: nat, id: nat)
    requires forall k :: 0 <= k < |steps| ==> !steps[k].Delete?
    requires LookupAt(steps, i, n) && i < |Run(steps).workers| && CaseOf(Run(steps).workers[i]) == Some(id)
    ensures MissAt(steps, i, n) <==> EarlyAt(steps, i, n, id)
  {
    var before, rows := Run(steps[..n]).tables.rows, Run(steps).tables.rows;
    var s := Run(steps[..n]).workers[i].submission;
    RunOnlyGrows(steps, n);
    NoneInactive(steps[..n]);
    RunKeepsInv(steps);
    assert WorkerOk(rows, Run(steps).workers[i]) && rows[id].(active := true) == RowFor(s);
    FindFacts(before, s.source, s.messageId);
    hide Run, Find, Tally, WorkerOk, Unique, LookupAt;
    if id < |before| {
      assert before[id] == rows[id];
    }
    if Find(before, s.source, s.messageId).Some? {
      var k := Find(before, s.source, s.messageId).value;
      assert before[k] == rows[k];
      UniqueIds(rows, k, id);
    }
  }

  ghost predicate Settled(st: State) { forall i :: 0 <= i < |st.workers| ==> st.workers[i].phase.Finished? }

  lemma {:induction false} TallyPositiveIff(f: Worker -> Option<nat>, workers: seq<Worker>, id: nat)
    ensures Tally(f, workers, id) >= 1 <==> exists i :: 0 <= i < |workers| && f(workers[i]) == Some(id)
  {
    if workers != [] {
      var n := |workers| - 1;
      TallyPositiveIff(f, workers[..n], id);
      assert forall i :: 0 <= i < n ==> workers[..n][i] == workers[i];
    }
  }

  lemma {:induction false} TallyOneIff(f: Worker -> Option<nat>, workers: seq<Worker>, id: nat)
    ensures Tally(f, workers, id) >= 2 <==>
            exists i, j :: 0 <= i < j < |workers| && f(workers[i]) == Some(id) && f(workers[j]) == Some(id)
  {
    if workers != [] {
      var n := |workers| - 1;
      var front := workers[..n];
      TallyOneIff(f, front, id);
      TallyPositiveIff(f, front, id);
      assert forall i :: 0 <= i < n ==> front[i] == workers[i];
      if Tally(f, workers, id) >= 2 && Tally(f, front, id) < 2 {
        var i :| 0 <= i < |front| && f(front[i]) == Some(id);
        assert f(workers[i]) == Some(id) && f(workers[n]) == Some(id);
      }
    }
  }

  predicate Owner(w: Worker, id: nat) { CaseOf(w) == Some(id) && (w.phase.Finished? ==> !w.phase.duplicate) }

  /** Some submission inserted this case and goes on to store its message. */
  ghost predicate HasOwner(workers: seq<Worker>, id: nat) {
    exists i :: 0 <= i < |workers| && Owner(workers[i], id)
  }

  ghost predicate Owned(st: State) {
    forall id: nat :: id < |st.tables.rows| ==> HasOwner(st.workers, id)
  }

  lemma AdvanceKeepsOwned(st: State, i: nat)
    requires Inv(st) && Owned(st) && i < |st.workers|
    requires forall k :: 0 <= k < |st.tables.rows| ==> st.tables.rows[k].active
    ensures Owned(Advanced(st, i))
  {
    var after := Advanced(st, i);
    assert WorkerOk(st.tables.rows, st.workers[i]);
    hide Find, Inv, WorkerOk, Taken;
    forall id: nat | id < |after.tables.rows|
      ensures HasOwner(after.workers, id)
    {
      if id == |st.tables.rows| {
        assert Owner(after.workers[i], id);
      } else {
        assert HasOwner(st.workers, id);
        var k :| 0 <= k < |st.workers| && Owner(st.workers[k], id);
        assert Owner(after.workers[k], id);
      }
    }
  }

  lemma {:induction false} EveryCaseIsOwned(steps: seq<Step>)
    requires forall k :: 0 <= k < |steps| ==> !steps[k].Delete?
    ensures Owned(Run(steps))
  {
    if steps != [] {
      var front := steps[..|steps| - 1];
      EveryCaseIsOwned(front);
      RunKeepsInv(front);
      NoneInactive(front);
      NextKeepsOwned(Run(front), steps[|steps| - 1]);
    }
  }

  lemma NextKeepsOwned(st: State, step: Step)
    requires Inv(st) && Owned(st) && !step.Delete?
    requires forall k :: 0 <= k < |st.tables.rows| ==> st.tables.rows[k].active
    ensures Owned(Next(st, step))
  {
    if step.Advance? {
      if step.worker < |st.workers| {
        AdvanceKeepsOwned(st, step.worker);
      }
    } else {
      hide Inv;
      var after := Next(st, step);
      hide Owner;
      forall id: nat | id < |st.tables.rows|
        ensures HasOwner(after.workers, id)
      {
        assert HasOwner(st.workers, id);
        var k :| 0 <= k < |st.workers| && Owner(st.workers[k], id);
        assert Owner(after.workers[k], id);
      }
    }
  }

  /** Once every submission has been answered, a case's message is stored as often as its processing is scheduled: at
      least once, and exactly once when the lookups of no two of its submissions missed. */
  lemma StoredOnceIffOneMiss(steps: seq<Step>, id: nat)
    requires forall k :: 0 <= k < |steps| ==> !steps[k].Delete?
    requires Settled(Run(steps)) && id < |Run(steps).tables.rows|
    ensures var st := Run(steps);
            && st.tables.stored[id] == st.tables.scheduled[id] >= 1
            && (st.tables.stored[id] == 1 <==>
                  forall i: nat, j: nat :: i < j < |st.workers| && OfCase(st, i, id) && OfCase(st, j, id)
                    ==> !(LookupMissed(steps, i) && LookupMissed(steps, j)))
  {
    RunKeepsInv(steps);
    EveryCaseIsOwned(steps);
    var st := Run(steps);
    SettledCounts(st, id);
    forall i: nat | i < |st.workers|
      ensures StoresAs(st.workers[i], id) <==> OfCase(st, i, id) && LookupMissed(steps, i)
    {
      PastMissIff(steps, i);
    }
    hide Run, Inv, Owned, LookupMissed, StoresAs, OfCase;
  }

  /** The same over the schedule alone: exactly once when of its submissions at most one looked before its row was
      inserted. */
  lemma StoredOnceIffOthersLookLater(steps: seq<Step>, id: nat)
    requires forall k :: 0 <= k < |steps| ==> !steps[k].Delete?
    requires Settled(Run(steps)) && id < |Run(steps).tables.rows|
    ensures var st := Run(steps);
            st.tables.stored[id] == 1 <==>
              forall i: nat, j: nat :: i < j < |st.workers| && OfCase(st, i, id) && OfCase(st, j, id)
                ==> !(LookedTooEarly(steps, i, id) && LookedTooEarly(steps, j, id))
  {
    StoredOnceIffOneMiss(steps, id);
    var st := Run(steps);
    forall i: nat | i < |st.workers| && OfCase(st, i, id)
      ensures LookupMissed(steps, i) <==> LookedTooEarly(steps, i, id)
    {
      forall n: nat | LookupAt(steps, i, n)
        ensures MissAt(steps, i, n) <==> EarlyAt(steps, i, n, id)
      {
        MissIffEarly(steps, i, n, id);
      }
      hide Run;
      if LookupMissed(steps, i) {
        var n :| MissAt(steps, i, n);
        assert EarlyAt(steps, i, n, id);
      }
      if LookedTooEarly(steps, i, id) {
        var n :| EarlyAt(steps, i, n, id);
        assert MissAt(steps, i, n);
      }
    }
    hide Run, LookupMissed, LookedTooEarly, OfCase;
  }

  predicate OfCase(st: State, i: nat, id: nat)
    requires i < |st.workers|
  {
    CaseOf(st.workers[i]) == Some(id)
  }

  predicate StoresAs(w: Worker, id: nat) { w.phase == Finished(id, false) }

  lemma SettledCounts(st: State, id: nat)
    requires Inv(st) && Owned(st) && Settled(st) && id < |st.tables.rows|
    ensures st.tables.stored[id] == st.tables.scheduled[id] >= 1
    ensures st.tables.stored[id] == 1 <==>
              forall i: nat, j: nat :: i < j < |st.workers| ==>
                  !(StoresAs(st.workers[i], id) && StoresAs(st.workers[j], id))
  {
    hide Tally, WorkerOk, Unique;
    var workers := st.workers;
    assert HasOwner(workers, id);
    var owner :| 0 <= owner < |workers| && Owner(workers[owner], id);
    assert StoredBy(workers[owner]) == Some(id);
    assert forall i :: 0 <= i < |workers| ==>
        StoredBy(workers[i]) == ScheduledBy(workers[i])
            && (StoredBy(workers[i]) == Some(id) <==> StoresAs(workers[i], id));
    SameTally(workers, id);
    TallyPositiveIff(StoredBy, workers, id);
    TallyOneIff(StoredBy, workers, id);
    hide StoredBy, ScheduledBy, CaseOf, Owned, StoresAs;
  }

  lemma {:induction false} SameTally(workers: seq<Worker>, id: nat)
    requires forall i :: 0 <= i < |workers| ==> StoredBy(workers[i]) == ScheduledBy(workers[i])
    ensures Tally(StoredBy, workers, id) == Tally(ScheduledBy, workers, id)
  {
    if workers != [] {
      SameTally(workers[..|workers| - 1], id);
    }
  }

  lemma RunThen(steps: seq<Step>, step: Step)
    ensures Run(steps + [step]) == Next(Run(steps), step)
  {
    assert (steps + [step])[..|steps|] == steps;
  }

  /** Two submissions of one message, both past their lookups. */
  function BothMissed(s: Submission): seq<Step> {
    [] + [Arrive(s)] + [Arrive(s)] + [Advance(0)] + [Advance(1)]
  }

  function Race(s: Submission): seq<Step> {
    BothMissed(s) + [Advance(0)] + [Advance(0)] + [Advance(0)] + [Advance(0)] + [Advance(1)] + [Advance(1)]
        + [Advance(1)] + [Advance(1)]
  }

  function Pair(s: Submission, rows: seq<Row>, stored: multiset<nat>, scheduled: multiset<nat>, a: Phase,
                b: Phase): State {
    State(Tables(rows, stored, scheduled), [Worker(s, a), Worker(s, b)])
  }

  lemma BothArrive(s: Submission)
    ensures Run([] + [Arrive(s)] + [Arrive(s)]) == Pair(s, [], multiset{}, multiset{}, Arrived, Arrived)
  {
    RunNothing();
    hide Run;
    RunThen([], Arrive(s));
    RunThen([] + [Arrive(s)], Arrive(s));
  }

  lemma RaceBegins(s: Submission)
    ensures Run(BothMissed(s)) == Pair(s, [], multiset{}, multiset{}, Missed, Missed)
  {
    assert Find([], s.source, s.messageId) == None;
    hide Run, Find, Taken, RowFor;
    var both := [] + [Arrive(s)] + [Arrive(s)];
    BothArrive(s);
    RunThen(both, Advance(0));
    RunThen(both + [Advance(0)], Advance(1));
    var s1 := Next(Run(both), Advance(0));
    assert s1 == Pair(s, [], multiset{}, multiset{}, Missed, Arrived);
  }

  /** Four steps of one submission among others. */
  lemma FourSteps(r: seq<Step>, i: nat)
    ensures var s1 := Next(Run(r), Advance(i));
            var s2 := Next(s1, Advance(i));
            Run(r + [Advance(i)] + [Advance(i)] + [Advance(i)] + [Advance(i)]) == Next(Next(s2, Advance(i)), Advance(i))
  {
    hide Run, Next;
    RunThen(r, Advance(i));
    RunThen(r + [Advance(i)], Advance(i));
    RunThen(r + [Advance(i)] + [Advance(i)], Advance(i));
    RunThen(r + [Advance(i)] + [Advance(i)] + [Advance(i)], Advance(i));
  }

  lemma FirstFinishes(s: Submission, r: seq<Step>)
    requires Run(r) == Pair(s, [], multiset{}, multiset{}, Missed, Missed)
    ensures Run(r + [Advance(0)] + [Advance(0)] + [Advance(0)] + [Advance(0)])
            == Pair(s, [RowFor(s)], multiset{0}, multiset{0}, Finished(0, false), Missed)
  {
    NothingTaken(RowFor(s));
    assert RowFor(s).active;
    FourSteps(r, 0);
    hide Run, Find, Taken, RowFor;
    var s1 := Next(Run(r), Advance(0));
    assert s1 == Pair(s, [RowFor(s)], multiset{}, multiset{}, Inserted(0), Missed);
    var s2 := Next(s1, Advance(0));
    assert s2 == Pair(s, [RowFor(s)], multiset{}, multiset{}, Held(0), Missed);
    var s3 := Next(s2, Advance(0));
    assert s3 == Pair(s, [RowFor(s)], multiset{0}, multiset{}, Kept(0), Missed);
  }

  lemma OwnRowIsFound(s: Submission)
    requires s.messageId != ""
    ensures Find([RowFor(s)], RowFor(s).source, s.messageId) == Some(0) && Taken([RowFor(s)], RowFor(s))
  {
    var row := RowFor(s);
    assert [row][..0] == [];
    assert SameKey([row][0], row);
  }

  lemma SecondFinishes(s: Submission, r: seq<Step>)
    requires s.messageId != ""
    requires Run(r) == Pair(s, [RowFor(s)], multiset{0}, multiset{0}, Finished(0, false), Missed)
    ensures Run(r + [Advance(1)] + [Advance(1)] + [Advance(1)] + [Advance(1)])
            == Pair(s, [RowFor(s)], multiset{0, 0}, multiset{0, 0}, Finished(0, false), Finished(0, false))
  {
    OwnRowIsFound(s);
    assert RowFor(s).active;
    FourSteps(r, 1);
    hide Run, Find, Taken, RowFor;
    var one := multiset{0 as nat};
    var s1 := Next(Run(r), Advance(1));
    assert s1 == Pair(s, [RowFor(s)], one, one, Finished(0, false), Collided);
    var s2 := Next(s1, Advance(1));
    assert s2 == Pair(s, [RowFor(s)], one, one, Finished(0, false), Held(0));
    var s3 := Next(s2, Advance(1));
    assert s3 == Pair(s, [RowFor(s)], multiset{0, 0}, one, Finished(0, false), Kept(0));
  }

  /** Two deliveries of any one message whose lookups both run before the insert: one case, but two messages and two
      schedulings. */
  lemma RaceStoresTwice(s: Submission)
    requires s.messageId != ""
    ensures var st := Run(Race(s));
            && Settled(st) && st.tables.rows == [RowFor(s)]
            && st.tables.stored == multiset{0, 0} && st.tables.scheduled == multiset{0, 0}
  {
    hide Run, RowFor;
    RaceBegins(s);
    var half := BothMissed(s) + [Advance(0)] + [Advance(0)] + [Advance(0)] + [Advance(0)];
    FirstFinishes(s, BothMissed(s));
    SecondFinishes(s, half);
    assert Race(s) == half + [Advance(1)] + [Advance(1)] + [Advance(1)] + [Advance(1)];
  }

  lemma RunNothing()
    ensures Run([]) == START
  {
  }

  lemma NothingTaken(row: Row)
    ensures !Taken([], row)
  {
  }

  // ---------------------------------------------------------------- after a deletion

  /** A message is refused exactly when the case that holds its key has been deleted. */
  lemma RefusedIffDeleted(t: Tables, s: Submission)
    requires Unique(t.rows)
    ensures Alone(t, s).1 == Refused <==> KeyDeleted(t.rows, RowFor(s))
    ensures Alone(t, s).1 == Refused ==> Alone(t, s).0 == t
  {
    var row := RowFor(s);
    FindFacts(t.rows, s.source, s.messageId);
    FindFacts(t.rows, row.source, s.messageId);
    hide Find;
    if Taken(t.rows, row) {
      TakenOnce(t.rows, row);
    }
    hide Unique;
  }

  /** Row id is of this message: its source, "web" when none is named, and its non-empty message id. */
  ghost predicate OfMessage(rows: seq<Row>, s: Submission, id: nat) {
    && id < |rows| && s.messageId != "" && rows[id].messageId == Some(s.messageId)
    && rows[id].source == (if s.source == "" then "web" else s.source)
  }

  lemma OfMessageIsKey(rows: seq<Row>, s: Submission)
    ensures forall id: nat :: id < |rows| ==> (OfMessage(rows, s, id) <==> SameKey(rows[id], RowFor(s)))
  {
  }

  /** One uninterrupted submission: a duplicate if the source is named and an active row is of the message, refused if a
      deleted row is, and else accepted: on the active row, when the source is not named, or on a new one. Only an
      acceptance changes the tables: its message is stored and its processing scheduled once. */
  lemma SubmitExactly(t: Tables, s: Submission)
    requires Unique(t.rows)
    ensures var (after, reply) := Alone(t, s);
            && (forall id: nat :: reply == Duplicate(id)
                  <==> s.source != "" && OfMessage(t.rows, s, id) && t.rows[id].active)
            && (reply == Refused <==> exists id: nat :: OfMessage(t.rows, s, id) && !t.rows[id].active)
            && (forall id: nat :: reply == Accepted(id)
                  <==> || (s.source == "" && OfMessage(t.rows, s, id) && t.rows[id].active)
                       || (id == |t.rows| && forall j: nat :: !OfMessage(t.rows, s, j)))
            && (!reply.Accepted? ==> after == t)
            && (reply.Accepted? ==>
                  && after.stored == t.stored + multiset{reply.id}
                  && after.scheduled == t.scheduled + multiset{reply.id}
                  && after.rows == if reply.id < |t.rows| then t.rows else t.rows + [RowFor(s)])
    ensures RowFor(s) == Row(if s.source == "" then "web" else s.source,
                             if s.messageId == "" then None else Some(s.messageId), true)
  {
    var row := RowFor(s);
    OfMessageIsKey(t.rows, s);
    FindFacts(t.rows, s.source, s.messageId);
    FindFacts(t.rows, row.source, s.messageId);
    hide Find;
    if id: nat :| OfMessage(t.rows, s, id) {
      forall j: nat | OfMessage(t.rows, s, j)
        ensures j == id
      {
        UniqueIds(t.rows, id, j);
      }
      assert Taken(t.rows, row);
    }
    hide Unique;
  }

  datatype Call = Submits(submission: Submission) | Deletes(id: nat)

  function AfterCall(t: Tables, c: Call): Tables {
    match c
    case Submits(s) => Alone(t, s).0
    case Deletes(id) => t.(rows := Deleted(t.rows, id))
  }

  function AfterCalls(t: Tables, calls: seq<Call>): Tables {
    if calls == [] then t else AfterCall(AfterCalls(t, calls[..|calls| - 1]), calls[|calls| - 1])
  }

  lemma CallKeepsDeleted(t: Tables, c: Call, row: Row)
    requires Unique(t.rows) && KeyDeleted(t.rows, row)
    ensures Unique(AfterCall(t, c).rows) && KeyDeleted(AfterCall(t, c).rows, row)
  {
    match c
    case Submits(s) =>
      hide Unique, KeyDeleted, Find, Taken;
      if !Taken(t.rows, RowFor(s)) {
        GrowsUnique(t.rows, RowFor(s));
        DeletedInPrefix(t.rows, t.rows + [RowFor(s)], row);
      }
    case Deletes(id) => DeletedStaysDeleted(t.rows, id, row);
  }

  /** After its case is deleted a message is refused for good, whatever is submitted and deleted in between. */
  lemma {:induction false} RefusedForGood(t: Tables, calls: seq<Call>, s: Submission)
    requires Unique(t.rows) && KeyDeleted(t.rows, RowFor(s))
    ensures var after := AfterCalls(t, calls);
            Unique(after.rows) && KeyDeleted(after.rows, RowFor(s)) && Alone(after, s) == (after, Refused)
  {
    hide Unique, KeyDeleted, Alone;
    if calls != [] {
      RefusedForGood(t, calls[..|calls| - 1], s);
      CallKeepsDeleted(AfterCalls(t, calls[..|calls| - 1]), calls[|calls| - 1], RowFor(s));
    }
    RefusedIffDeleted(AfterCalls(t, calls), s);
  }

  /** A submission without a case whose key is deleted. */
  ghost predicate Doomed(st: State, i: nat) {
    && i < |st.workers|
    && (st.workers[i].phase in {Arrived, Missed, Collided, Failed})
    && KeyDeleted(st.tables.rows, RowFor(st.workers[i].submission))
  }

  lemma NextKeepsDoomed(st: State, step: Step, i: nat)
    requires Inv(st) && Doomed(st, i)
    ensures Doomed(Next(st, step), i)
  {
    var rows, w := st.tables.rows, st.workers[i];
    var row := RowFor(w.submission);
    match step
    case Arrive(_) =>
    case Delete(id) => DeletedStaysDeleted(rows, id, row);
    case Advance(k) =>
      if k < |st.workers| {
        assert WorkerOk(rows, st.workers[k]);
        MovedOk(st.tables, st.workers[k]);
        DeletedInPrefix(rows, Moved(st.tables, st.workers[k]).0.rows, row);
        if k == i {
          DoomedMoves(st.tables, w);
        }
        hide Moved, Inv, WorkerOk, KeyDeleted, Unique;
      }
  }

  lemma DoomedMoves(t: Tables, w: Worker)
    requires Unique(t.rows) && KeyDeleted(t.rows, RowFor(w.submission))
    requires w.phase in {Arrived, Missed, Collided, Failed}
    ensures Moved(t, w).1 in {Arrived, Missed, Collided, Failed}
  {
    var row := RowFor(w.submission);
    FindFacts(t.rows, w.submission.source, w.submission.messageId);
    FindFacts(t.rows, row.source, w.submission.messageId);
    var k :| 0 <= k < |t.rows| && SameKey(t.rows[k], row) && !t.rows[k].active;
    assert Taken(t.rows, row);
    hide Find;
    TakenOnce(t.rows, row);
    hide Unique, Taken;
  }

  /** Under every interleaving: once the case of a message is deleted, no submission of it that has no case yet ever
      gets one. */
  lemma {:induction false} DoomedForGood(steps: seq<Step>, more: seq<Step>, i: nat)
    requires Doomed(Run(steps), i)
    ensures Doomed(Run(steps + more), i)
    decreases |more|
  {
    if more == [] {
      assert steps + more == steps;
    } else {
      var front, last := more[..|more| - 1], more[|more| - 1];
      DoomedForGood(steps, front, i);
      assert steps + more == (steps + front) + [last];
      RunThen(steps + front, last);
      RunKeepsInv(steps + front);
      hide Run, Doomed, Inv;
      NextKeepsDoomed(Run(steps + front), last, i);
    }
  }

  // ---------------------------------------------------------------- submissions one at a time

  function AdvanceTimes(st: State, i: nat, n: nat): (r: State)
    requires i < |st.workers|
    ensures |r.workers| == |st.workers|
  {
    if n == 0 then st else Advanced(AdvanceTimes(st, i, n - 1), i)
  }

  function MovedTimes(t: Tables, w: Worker, n: nat): (Tables, Worker) {
    if n == 0 then (t, w)
    else
      var (before, at) := MovedTimes(t, w, n - 1);
      var (after, phase) := Moved(before, at);
      (after, at.(phase := phase))
  }

  lemma {:induction false} AdvanceIsMoved(st: State, i: nat, n: nat)
    requires i < |st.workers|
    ensures var (t, w) := MovedTimes(st.tables, st.workers[i], n);
            AdvanceTimes(st, i, n) == State(t, st.workers[i := w])
  {
    hide Moved;
    if n > 0 {
      AdvanceIsMoved(st, i, n - 1);
    }
  }

  function ReplyOf(phase: Phase): Reply {
    if phase.Finished? then if phase.duplicate then Duplicate(phase.id) else Accepted(phase.id) else Refused
  }

  lemma MovedFirst(t: Tables, w: Worker, n: nat)
    ensures var (after, phase) := Moved(t, w);
            MovedTimes(t, w, n + 1) == MovedTimes(after, w.(phase := phase), n)
  {
    hide Moved;
    if n > 0 {
      MovedFirst(t, w, n - 1);
    }
  }

  lemma DoneStays(t: Tables, w: Worker, n: nat)
    requires w.phase.Finished? || w.phase.Failed?
    ensures MovedTimes(t, w, n) == (t, w)
  {
  }

  lemma HeldFinishes(t: Tables, w: Worker, n: nat)
    requires w.phase.Held? && Active(t.rows, w.phase.id)
    ensures var id := w.phase.id;
            MovedTimes(t, w, n + 2)
            == (t.(stored := t.stored + multiset{id}, scheduled := t.scheduled + multiset{id}),
                w.(phase := Finished(id, false)))
  {
    var id := w.phase.id;
    MovedFirst(t, w, n + 1);
    var kept := t.(stored := t.stored + multiset{id});
    MovedFirst(kept, w.(phase := Kept(id)), n);
    DoneStays(kept.(scheduled := t.scheduled + multiset{id}), w.(phase := Finished(id, false)), n);
    hide MovedTimes;
  }

  lemma CollidedFinishes(t: Tables, w: Worker)
    requires w.phase.Missed? && Find(t.rows, w.submission.source, w.submission.messageId).None?
    requires Taken(t.rows, RowFor(w.submission))
    ensures var (after, end) := MovedTimes(t, w, 5);
            Alone(t, w.submission) == (after, ReplyOf(end.phase))
  {
    var s := w.submission;
    var found := Find(t.rows, RowFor(s).source, s.messageId);
    FindFacts(t.rows, RowFor(s).source, s.messageId);
    hide MovedTimes, Find, Taken, RowFor;
    MovedFirst(t, w, 4);
    MovedFirst(t, w.(phase := Collided), 3);
    if found.Some? {
      HeldFinishes(t, w.(phase := Held(found.value)), 1);
    } else {
      DoneStays(t, w.(phase := Failed), 3);
    }
  }

  lemma InsertedFinishes(t: Tables, w: Worker)
    requires w.phase.Missed? && Find(t.rows, w.submission.source, w.submission.messageId).None?
    requires !Taken(t.rows, RowFor(w.submission))
    ensures var (after, end) := MovedTimes(t, w, 5);
            Alone(t, w.submission) == (after, ReplyOf(end.phase))
  {
    var row, id := RowFor(w.submission), |t.rows|;
    assert row.active;
    hide MovedTimes, Find, Taken, RowFor;
    MovedFirst(t, w, 4);
    var inserted := t.(rows := t.rows + [row]);
    assert inserted.rows[id] == row;
    MovedFirst(inserted, w.(phase := Inserted(id)), 3);
    HeldFinishes(inserted, w.(phase := Held(id)), 1);
  }

  lemma MovedAlone(t: Tables, s: Submission)
    ensures var (after, w) := MovedTimes(t, Worker(s, Arrived), 6);
            Alone(t, s) == (after, ReplyOf(w.phase))
  {
    var w := Worker(s, Arrived);
    MovedFirst(t, w, 5);
    var found := Find(t.rows, s.source, s.messageId);
    hide MovedTimes, Find;
    if found.Some? {
      DoneStays(t, Worker(s, Finished(found.value, true)), 5);
    } else {
      if Taken(t.rows, RowFor(s)) {
        CollidedFinishes(t, Worker(s, Missed));
      } else {
        InsertedFinishes(t, Worker(s, Missed));
      }
    }
  }

  /** A submission that runs without interruption does what submit_channel_message does. */
  lemma AloneIsUninterrupted(st: State, s: Submission)
    ensures var i := |st.workers|;
            var end := AdvanceTimes(Next(st, Arrive(s)), i, 6);
            (end.tables, ReplyOf(end.workers[i].phase)) == Alone(st.tables, s)
  {
    MovedAlone(st.tables, s);
    AdvanceIsMoved(Next(st, Arrive(s)), |st.workers|, 6);
    hide Alone, MovedTimes, AdvanceTimes;
  }

  function AloneAll(submissions: seq<Submission>): Tables {
    if submissions == [] then Tables([], multiset{}, multiset{})
    else Alone(AloneAll(submissions[..|submissions| - 1]), submissions[|submissions| - 1]).0
  }

  /** A later submission of the same message that names no source: its lookup is skipped. */
  ghost predicate RepeatsUnnamed(submissions: seq<Submission>) {
    exists i, j :: 0 <= i < j < |submissions| && SameKey(RowFor(submissions[i]), RowFor(submissions[j])) &&
        submissions[j].source == ""
  }

  ghost predicate OnceEach(t: Tables) {
    forall id :: 0 <= id < |t.rows| ==> t.stored[id] == 1 && t.scheduled[id] == 1
  }

  ghost predicate Orderly(t: Tables, submissions: seq<Submission>) {
    && Unique(t.rows)
    && (forall id :: 0 <= id < |t.rows| ==> t.rows[id].active && t.stored[id] == t.scheduled[id] >= 1)
    && (forall id :: |t.rows| <= id ==> t.stored[id] == 0 == t.scheduled[id])
    && (forall id :: 0 <= id < |t.rows| ==> Submitted(t.rows[id], submissions))
    && (forall k :: 0 <= k < |submissions| ==> RowFor(submissions[k]) in t.rows)
  }

  ghost predicate Submitted(row: Row, submissions: seq<Submission>) {
    exists k :: 0 <= k < |submissions| && row == RowFor(submissions[k])
  }

  lemma SubmittedGrows(row: Row, front: seq<Submission>, s: Submission)
    requires Submitted(row, front) || row == RowFor(s)
    ensures Submitted(row, front + [s])
  {
    var all := front + [s];
    if Submitted(row, front) {
      var k :| 0 <= k < |front| && row == RowFor(front[k]);
      assert row == RowFor(all[k]);
    } else {
      assert row == RowFor(all[|front|]);
    }
  }

  lemma NoRepeatAdded(front: seq<Submission>, s: Submission)
    requires s.source != "" || forall k :: 0 <= k < |front| ==> !SameKey(RowFor(front[k]), RowFor(s))
    ensures RepeatsUnnamed(front + [s]) <==> RepeatsUnnamed(front)
  {
    hide RowFor, SameKey;
    var all := front + [s];
    if RepeatsUnnamed(front) {
      var i, j :| 0 <= i < j < |front| && SameKey(RowFor(front[i]), RowFor(front[j])) && front[j].source == "";
      assert SameKey(RowFor(all[i]), RowFor(all[j])) && all[j].source == "";
    }
    if RepeatsUnnamed(all) {
      var i, j :| 0 <= i < j < |all| && SameKey(RowFor(all[i]), RowFor(all[j])) && all[j].source == "";
      assert SameKey(RowFor(front[i]), RowFor(front[j])) && front[j].source == "";
    }
  }

  /** Orderly grows with a submission that is already known. */
  lemma KnownStaysOrderly(t: Tables, after: Tables, front: seq<Submission>, s: Submission)
    requires Orderly(t, front) && RowFor(s) in t.rows
    requires after.rows == t.rows
    requires forall id :: after.stored[id] == after.scheduled[id] >= t.stored[id]
    requires forall id :: |t.rows| <= id ==> after.stored[id] == t.stored[id]
    ensures Orderly(after, front + [s])
  {
    hide Unique, RowFor, Submitted;
    forall id | 0 <= id < |t.rows|
      ensures Submitted(t.rows[id], front + [s])
    {
      SubmittedGrows(t.rows[id], front, s);
    }
  }

  lemma NewStaysOrderly(t: Tables, front: seq<Submission>, s: Submission)
    requires Orderly(t, front) && !Taken(t.rows, RowFor(s))
    ensures var n := |t.rows|;
            Orderly(Tables(t.rows + [RowFor(s)], t.stored + multiset{n}, t.scheduled + multiset{n}), front + [s])
  {
    var rows := t.rows + [RowFor(s)];
    GrowsUnique(t.rows, RowFor(s));
    hide Unique, Taken, RowFor, Submitted;
    forall id | 0 <= id < |rows|
      ensures Submitted(rows[id], front + [s])
    {
      SubmittedGrows(rows[id], front, s);
    }
  }

  lemma FoundAlone(t: Tables, front: seq<Submission>, s: Submission)
    requires Orderly(t, front) && Find(t.rows, s.source, s.messageId).Some?
    ensures Alone(t, s).0 == t && s.source != "" && RowFor(s) in t.rows
    ensures forall id :: t.stored[id] == t.scheduled[id]
  {
    FindFacts(t.rows, s.source, s.messageId);
  }

  lemma CollidesAlone(t: Tables, front: seq<Submission>, s: Submission)
    requires Orderly(t, front) && Taken(t.rows, RowFor(s)) && Find(t.rows, s.source, s.messageId).None?
    ensures var after := Alone(t, s).0;
            Orderly(after, front + [s]) && !OnceEach(after) && RepeatsUnnamed(front + [s])
  {
    var after, row := Alone(t, s).0, RowFor(s);
    var made := CollidedRow(t, front, s);
    CollidedRepeats(t, front, s, made);
    hide Unique, Taken, RowFor, SameKey, RepeatsUnnamed, Submitted, Alone, Find;
    assert row in t.rows;
    KnownStaysOrderly(t, after, front, s);
    assert after.stored[made] == t.stored[made] + 1 >= 2;
  }

  lemma CollidedRow(t: Tables, front: seq<Submission>, s: Submission) returns (made: nat)
    requires Orderly(t, front) && Taken(t.rows, RowFor(s)) && Find(t.rows, s.source, s.messageId).None?
    ensures made < |t.rows| && SameKey(t.rows[made], RowFor(s)) && t.rows[made] == RowFor(s) && s.source == ""
    ensures Alone(t, s).0 == Tables(t.rows, t.stored + multiset{made}, t.scheduled + multiset{made})
  {
    var row := RowFor(s);
    FindFacts(t.rows, s.source, s.messageId);
    FindFacts(t.rows, row.source, s.messageId);
    hide Find, Unique, Submitted;
    var id :| 0 <= id < |t.rows| && SameKey(t.rows[id], row);
    made := Find(t.rows, row.source, s.messageId).value;
  }

  lemma CollidedRepeats(t: Tables, front: seq<Submission>, s: Submission, id: nat)
    requires Orderly(t, front) && id < |t.rows| && SameKey(t.rows[id], RowFor(s)) && s.source == ""
    ensures RepeatsUnnamed(front + [s])
  {
    assert Submitted(t.rows[id], front);
    var k :| 0 <= k < |front| && t.rows[id] == RowFor(front[k]);
    var all := front + [s];
    hide RowFor, SameKey, Unique;
    assert all[k] == front[k] && all[|front|] == s;
    assert SameKey(RowFor(all[k]), RowFor(all[|front|])) && all[|front|].source == "";
  }

  lemma InsertsAlone(t: Tables, front: seq<Submission>, s: Submission)
    requires Orderly(t, front) && !Taken(t.rows, RowFor(s)) && Find(t.rows, s.source, s.messageId).None?
    ensures var after := Alone(t, s).0;
            && Orderly(after, front + [s]) && (OnceEach(after) <==> OnceEach(t))
            && (RepeatsUnnamed(front + [s]) <==> RepeatsUnnamed(front))
  {
    var after, row := Alone(t, s).0, RowFor(s);
    hide Find;
    NewStaysOrderly(t, front, s);
    forall k | 0 <= k < |front|
      ensures !SameKey(RowFor(front[k]), row)
    {
      assert RowFor(front[k]) in t.rows;
    }
    NoRepeatAdded(front, s);
    NewIsOnce(t, row);
    hide *;
  }

  lemma NewIsOnce(t: Tables, row: Row)
    requires t.stored[|t.rows|] == 0 == t.scheduled[|t.rows|]
    ensures var n := |t.rows|;
            OnceEach(Tables(t.rows + [row], t.stored + multiset{n}, t.scheduled + multiset{n})) <==> OnceEach(t)
  {
    var n := |t.rows|;
    var after := Tables(t.rows + [row], t.stored + multiset{n}, t.scheduled + multiset{n});
    assert forall id :: 0 <= id < n ==> after.stored[id] == t.stored[id] && after.scheduled[id] == t.scheduled[id];
  }

  lemma AloneStep(t: Tables, front: seq<Submission>, s: Submission)
    requires Orderly(t, front) && (OnceEach(t) <==> !RepeatsUnnamed(front))
    ensures var after := Alone(t, s).0;
            Orderly(after, front + [s]) && (OnceEach(after) <==> !RepeatsUnnamed(front + [s]))
  {
    hide Orderly, OnceEach, RepeatsUnnamed, Find, Taken;
    if Find(t.rows, s.source, s.messageId).Some? {
      FoundAlone(t, front, s);
      KnownStaysOrderly(t, t, front, s);
      NoRepeatAdded(front, s);
    } else if Taken(t.rows, RowFor(s)) {
      CollidesAlone(t, front, s);
    } else {
      InsertsAlone(t, front, s);
    }
  }

  lemma {:induction false} AloneRuns(submissions: seq<Submission>)
    ensures var t := AloneAll(submissions);
            Orderly(t, submissions) && (OnceEach(t) <==> !RepeatsUnnamed(submissions))
  {
    hide Alone, Orderly, OnceEach, RepeatsUnnamed;
    if submissions == [] {
      NothingSubmitted();
    } else {
      var front, s := submissions[..|submissions| - 1], submissions[|submissions| - 1];
      AloneRuns(front);
      AloneStep(AloneAll(front), front, s);
      assert submissions == front + [s];
    }
  }

  lemma NothingSubmitted()
    ensures Orderly(AloneAll([]), []) && OnceEach(AloneAll([])) && !RepeatsUnnamed([])
  {
  }

  /** One at a time, every submitted message has its one case, whose message is stored once and whose processing is
      scheduled once, exactly when no later submission of a message leaves its source empty. */
  lemma OneAtATimeStoresOnceIff(submissions: seq<Submission>)
    ensures var t := AloneAll(submissions);
            && Unique(t.rows)
            && (forall k :: 0 <= k < |submissions| ==> RowFor(submissions[k]) in t.rows)
            && (forall id :: 0 <= id < |t.rows| ==> Submitted(t.rows[id], submissions))
            && ((forall id :: 0 <= id < |t.rows| ==> t.stored[id] == 1 && t.scheduled[id] == 1) <==>
                !RepeatsUnnamed(submissions))
  {
    AloneRuns(submissions);
  }
}
