/**
 The queue and its journal agree in every reachable state, the journal of a task
 stays bounded without losing its live row, and a replaced worker can change nothing.
 */
module TaskJournal {
  import opened Wrappers
  import opened TaskModel

  ghost predicate LiveRow(journal: map<Id, JournalRow>, k: TaskKey, token: Id, id: Id) {
    id in journal && journal[id].key == k && journal[id].status.InProgress? && journal[id].token == token
  }

  ghost predicate Journaled(journal: map<Id, JournalRow>, k: TaskKey, token: Id) {
    exists id :: LiveRow(journal, k, token, id)
  }

  /** A live row belongs to a running task and carries that task's token. */
  ghost predicate RowsOwned(q: Queue) {
    forall id :: id in q.journal && q.journal[id].status.InProgress? ==> Owns(q, q.journal[id].key, q.journal[id].token)
  }

  /** A running task has a live row. */
  ghost predicate TasksJournaled(q: Queue) {
    forall k :: k in q.tasks && q.tasks[k].status.Running? ==> Journaled(q.journal, k, q.tasks[k].token)
  }

  /** Foreign key, the UNIQUE token, and distinct row numbers below the next one. */
  ghost predicate RowsKeyed(q: Queue, issued: set<Id>) {
    && (forall id :: id in q.journal ==>
          id in issued && q.journal[id].token in issued && q.journal[id].row < q.nextRow
          && q.journal[id].key in q.tasks)
    && RowsDistinct(q.journal)
  }

  function RowsOf(journal: map<Id, JournalRow>, k: TaskKey): set<Id> {
    set id | id in journal && journal[id].key == k
  }

  ghost predicate Bounded(journal: map<Id, JournalRow>) {
    forall k :: |RowsOf(journal, k)| <= KEPT_ROWS + 1
  }

  ghost predicate RowsDistinct(journal: map<Id, JournalRow>) {
    forall a, b :: a in journal && b in journal && a != b ==>
      journal[a].token != journal[b].token && journal[a].row != journal[b].row
  }

  ghost predicate JournalOk(q: Queue, issued: set<Id>) {
    RowsOwned(q) && TasksJournaled(q) && RowsKeyed(q, issued) && Bounded(q.journal)
  }

  // -------------------------------------------------------------------- bound

  lemma {:induction false} OldestExists(journal: map<Id, JournalRow>, ids: set<Id>) returns (last: Id)
    requires ids != {} && ids <= journal.Keys
    requires forall a, b :: a in journal && b in journal && a != b ==> journal[a].row != journal[b].row
    ensures last in ids && forall x :: x in ids && x != last ==> Newer(journal[x], journal[last])
    decreases |ids|
  {
    var id :| id in ids;
    if ids == {id} {
      last := id;
    } else {
      var rest := OldestExists(journal, ids - {id});
      last := if Newer(journal[id], journal[rest]) then rest else id;
    }
  }

  /** ORDER BY ... LIMIT 49 keeps at most 49 rows. */
  lemma LimitBounds(journal: map<Id, JournalRow>, key: TaskKey, current: Id, kept: set<Id>)
    requires forall a, b :: a in journal && b in journal && a != b ==> journal[a].row != journal[b].row
    requires forall id :: id in kept ==>
      id in journal && id != current && journal[id].key == key && |NewerRows(journal, key, current, id)| < KEPT_ROWS
    ensures |kept| <= KEPT_ROWS
  {
    if kept != {} {
      var last := OldestExists(journal, kept);
      SubsetSize(kept - {last}, NewerRows(journal, key, current, last));
    }
  }

  lemma PruneKeepsNewest(journal: map<Id, JournalRow>, key: TaskKey, current: Id, a: Id, b: Id)
    requires RowsDistinct(journal)
    requires a in PruneRows(journal, key, current) && a != current && journal[a].key == key
    requires b in journal && journal[b].key == key && b !in PruneRows(journal, key, current)
    ensures Newer(journal[a], journal[b])
  {
    if !Newer(journal[a], journal[b]) {
      assert Newer(journal[b], journal[a]);
      SubsetSize(NewerRows(journal, key, current, b), NewerRows(journal, key, current, a));
    }
  }

  predicate StartedLater(a: JournalRow, b: JournalRow) {
    a.started > b.started || (a.started == b.started && a.row > b.row)
  }

  /** A prune drops exactly the rows of the task, other than the current one, that 49 others started after. */
  lemma WhatIsPruned(journal: map<Id, JournalRow>, key: TaskKey, current: Id, id: Id)
    requires id in journal
    ensures var z := PruneRows(journal, key, current);
      var later := set e |
        e in journal && e != current && journal[e].key == key && StartedLater(journal[e], journal[id]);
      && (id in z <==> !(journal[id].key == key && id != current && |later| >= 49))
      && (id in z ==> z[id] == journal[id])
  {
    var later := set e | e in journal && e != current && journal[e].key == key && StartedLater(journal[e], journal[id]);
    assert later == NewerRows(journal, key, current, id);
  }

  lemma PruneBounds(journal: map<Id, JournalRow>, key: TaskKey, current: Id)
    requires current in journal && journal[current].key == key && RowsDistinct(journal)
    ensures |RowsOf(PruneRows(journal, key, current), key)| <= KEPT_ROWS + 1
  {
    var pruned := PruneRows(journal, key, current);
    var kept := RowsOf(pruned, key) - {current};
    LimitBounds(journal, key, current, kept);
    assert RowsOf(pruned, key) == kept + {current};
  }

  // -------------------------------------------------------------- preservation

  /** What startMailTaskRun leaves of the journal: the new row, and old rows with this task's live row expired. */
  ghost predicate Started(j: map<Id, JournalRow>, z: map<Id, JournalRow>, key: TaskKey, runId: Id, row: JournalRow) {
    && runId in z && z[runId] == row
    && (forall id :: id in z && id != runId ==>
          id in j && z[id] == if j[id].key == key && j[id].status.InProgress? then j[id].(status := Expired) else j[id])
    && (forall id :: id in j && j[id].key != key && id != runId ==> id in z)
  }

  lemma ClaimStarts(q: Queue, key: TaskKey, token: Id, runId: Id, now: int)
    requires key in q.tasks && runId !in q.journal
    ensures var z := ClaimQueue(q, key, token, runId, now);
      && Started(q.journal, z.journal, key, runId,
           JournalRow(q.nextRow, token, key, q.tasks[key].attempts + 1, InProgress, "configuration", now))
      && z.nextRow == q.nextRow + 1
      && z.tasks == q.tasks[key := ClaimTask(q.tasks[key], token, now)]
  {}

  lemma PrunedBounded(j: map<Id, JournalRow>, inserted: map<Id, JournalRow>, key: TaskKey, runId: Id)
    requires Bounded(j) && RowsDistinct(inserted) && runId in inserted && inserted[runId].key == key
    requires forall id :: id in inserted && id != runId ==> id in j && inserted[id].key == j[id].key
    ensures Bounded(PruneRows(inserted, key, runId))
  {
    var pruned := PruneRows(inserted, key, runId);
    PruneBounds(inserted, key, runId);
    forall k ensures |RowsOf(pruned, k)| <= KEPT_ROWS + 1 {
      if k != key { SubsetSize(RowsOf(pruned, k), RowsOf(j, k)); }
    }
  }

  lemma StartedDistinct(j: map<Id, JournalRow>, z: map<Id, JournalRow>, key: TaskKey, runId: Id, row: JournalRow)
    requires RowsDistinct(j) && Started(j, z, key, runId, row)
    requires forall id :: id in j ==> j[id].token != row.token && j[id].row != row.row
    ensures RowsDistinct(z)
  {
    forall a, b | a in z && b in z && a != b ensures z[a].token != z[b].token && z[a].row != z[b].row {
      if a != runId && b != runId { assert a in j && b in j; }
    }
  }

  lemma InsertStarts(j: map<Id, JournalRow>, key: TaskKey, runId: Id, row: JournalRow)
    requires runId !in j
    ensures Started(j, ExpireRows(j, key)[runId := row], key, runId, row)
  {}

  lemma ClaimBounded(q: Queue, issued: set<Id>, key: TaskKey, token: Id, runId: Id, now: int)
    requires RowsKeyed(q, issued) && Bounded(q.journal) && key in q.tasks && token !in issued && runId !in issued
    ensures Bounded(ClaimQueue(q, key, token, runId, now).journal)
  {
    var row := JournalRow(q.nextRow, token, key, q.tasks[key].attempts + 1, InProgress, "configuration", now);
    var inserted := ExpireRows(q.journal, key)[runId := row];
    InsertStarts(q.journal, key, runId, row);
    StartedDistinct(q.journal, inserted, key, runId, row);
    PrunedBounded(q.journal, inserted, key, runId);
  }

  lemma StartedJournaled(q: Queue, z: Queue, key: TaskKey, runId: Id, row: JournalRow)
    requires TasksJournaled(q) && Started(q.journal, z.journal, key, runId, row) && runId !in q.journal
    requires key in q.tasks && key in z.tasks && z.tasks == q.tasks[key := z.tasks[key]]
    requires row.key == key && row.status.InProgress? && row.token == z.tasks[key].token
    ensures TasksJournaled(z)
  {
    forall k | k in z.tasks && z.tasks[k].status.Running? ensures Journaled(z.journal, k, z.tasks[k].token) {
      if k == key {
        assert LiveRow(z.journal, key, row.token, runId);
      } else {
        assert Journaled(q.journal, k, q.tasks[k].token);
        var id :| LiveRow(q.journal, k, q.tasks[k].token, id);
        assert LiveRow(z.journal, k, z.tasks[k].token, id);
      }
    }
  }

  lemma StartedKeyed(q: Queue, z: Queue, issued: set<Id>, key: TaskKey, runId: Id, row: JournalRow)
    requires RowsKeyed(q, issued) && Started(q.journal, z.journal, key, runId, row)
    requires row.row == q.nextRow && z.nextRow == q.nextRow + 1 && row.token !in issued && row.key == key
    requires key in q.tasks && key in z.tasks && z.tasks == q.tasks[key := z.tasks[key]]
    ensures RowsKeyed(z, issued + {row.token, runId})
  {
    StartedDistinct(q.journal, z.journal, key, runId, row);
  }

  lemma StartedOwned(q: Queue, z: Queue, key: TaskKey, runId: Id, row: JournalRow)
    requires RowsOwned(q) && Started(q.journal, z.journal, key, runId, row)
    requires key in z.tasks && key in q.tasks && z.tasks == q.tasks[key := z.tasks[key]]
    requires row.key == key && z.tasks[key].token == row.token && z.tasks[key].status.Running?
    ensures RowsOwned(z)
  {}

  lemma ClaimKeeps(q: Queue, issued: set<Id>, key: TaskKey, token: Id, runId: Id, now: int)
    requires JournalOk(q, issued) && key in q.tasks && token !in issued && runId !in issued
    ensures JournalOk(ClaimQueue(q, key, token, runId, now), issued + {token, runId})
  {
    var z := ClaimQueue(q, key, token, runId, now);
    var row := JournalRow(q.nextRow, token, key, q.tasks[key].attempts + 1, InProgress, "configuration", now);
    ClaimStarts(q, key, token, runId, now);
    ClaimBounded(q, issued, key, token, runId, now);
    StartedJournaled(q, z, key, runId, row);
    StartedKeyed(q, z, issued, key, runId, row);
    StartedOwned(q, z, key, runId, row);
  }

  /** A worker write that ends the run: the row and the task stop together. */
  lemma FinishKeeps(q: Queue, issued: set<Id>, key: TaskKey, token: Id, t: Task, status: RunStatus)
    requires JournalOk(q, issued) && Owns(q, key, token) && !t.status.Running? && !status.InProgress?
    ensures JournalOk(q.(tasks := q.tasks[key := t], journal := FinishRows(q.journal, token, status)), issued)
  {
    var z := q.(tasks := q.tasks[key := t], journal := FinishRows(q.journal, token, status));
    SameRowsBounded(q.journal, z.journal);
    FinishJournaled(q, key, token, t, status);
  }

  lemma SameRowsBounded(j: map<Id, JournalRow>, z: map<Id, JournalRow>)
    requires Bounded(j) && forall id :: id in z ==> id in j && z[id].key == j[id].key
    ensures Bounded(z)
  {
    forall k ensures |RowsOf(z, k)| <= KEPT_ROWS + 1 {
      SubsetSize(RowsOf(z, k), RowsOf(j, k));
    }
  }

  lemma FinishJournaled(q: Queue, key: TaskKey, token: Id, t: Task, status: RunStatus)
    requires TasksJournaled(q) && RowsDistinct(q.journal) && Owns(q, key, token) && !t.status.Running?
    ensures TasksJournaled(q.(tasks := q.tasks[key := t], journal := FinishRows(q.journal, token, status)))
  {
    assert Journaled(q.journal, key, token);
    var own :| LiveRow(q.journal, key, token, own);
    var j := FinishRows(q.journal, token, status);
    forall k | k in q.tasks && k != key && q.tasks[k].status.Running? ensures Journaled(j, k, q.tasks[k].token) {
      assert Journaled(q.journal, k, q.tasks[k].token);
      var id :| LiveRow(q.journal, k, q.tasks[k].token, id);
      assert id != own;
      assert LiveRow(j, k, q.tasks[k].token, id);
    }
  }

  /** A write that keeps every task's status and token, and every journal row except its phase. */
  lemma TouchKeeps(q: Queue, z: Queue, issued: set<Id>)
    requires JournalOk(q, issued) && z.nextRow == q.nextRow
    requires forall k :: k in q.tasks ==>
      k in z.tasks && z.tasks[k].status == q.tasks[k].status && z.tasks[k].token == q.tasks[k].token
    requires forall k :: k in z.tasks && k !in q.tasks ==> !z.tasks[k].status.Running?
    requires forall id :: id in z.journal <==> id in q.journal
    requires forall id :: id in q.journal ==> z.journal[id] == q.journal[id].(phase := z.journal[id].phase)
    ensures JournalOk(z, issued)
  {
    SameRowsBounded(q.journal, z.journal);
    forall k | k in z.tasks && z.tasks[k].status.Running? ensures Journaled(z.journal, k, z.tasks[k].token) {
      assert Journaled(q.journal, k, q.tasks[k].token);
      var id :| LiveRow(q.journal, k, q.tasks[k].token, id);
      assert LiveRow(z.journal, k, z.tasks[k].token, id);
    }
  }

  lemma RetryKeeps(q: Queue, issued: set<Id>, key: TaskKey, now: int)
    requires JournalOk(q, issued)
    ensures JournalOk(RetryQueue(q, key, now).0, issued)
  {}

  lemma DropKeeps(q: Queue, issued: set<Id>, account: Id, folder: Text, uid: int)
    requires JournalOk(q, issued)
    ensures JournalOk(DropQueue(q, account, folder, uid), issued)
  {
    var z := DropQueue(q, account, folder, uid);
    SameRowsBounded(q.journal, z.journal);
    forall k | k in z.tasks && z.tasks[k].status.Running? ensures Journaled(z.journal, k, z.tasks[k].token) {
      assert Journaled(q.journal, k, q.tasks[k].token);
      var id :| LiveRow(q.journal, k, q.tasks[k].token, id);
      assert LiveRow(z.journal, k, z.tasks[k].token, id);
    }
  }

  lemma WorkerStepKeeps(q: Queue, issued: set<Id>, step: Step)
    requires JournalOk(q, issued) && Enabled(q, issued, step)
    requires step.Complete? || step.Fail? || step.SavePayload? || step.RecordPhase?
    ensures JournalOk(Apply(q, step), issued)
  {
    match step
    case Complete(k, token, skipped) =>
      if Owns(q, k, token) {
        FinishKeeps(q, issued, k, token,
          q.tasks[k].(status := if skipped then Skipped else Ready, token := "", leaseUntil := 0, nextAttempt := 0,
            error := ""),
          if skipped then SkippedRun else Succeeded);
      }
    case Fail(k, token, v) =>
      if Owns(q, k, token) {
        FinishKeeps(q, issued, k, token,
          q.tasks[k].(status := v.status, attempts := v.attempts, token := "", leaseUntil := 0, nextAttempt := v.next,
            error := v.error), v.run);
      }
    case SavePayload(k, token, p) => TouchKeeps(q, SavePayloadQueue(q, k, token, p).0, issued);
    case RecordPhase(token, phase) => TouchKeeps(q, PhaseQueue(q, token, phase).0, issued);
  }

  lemma EnqueueKeeps(q: Queue, issued: set<Id>, a: Id, f: Text, u: int, now: int, webhook: bool)
    requires JournalOk(q, issued)
    ensures JournalOk(EnqueueQueue(q, a, f, u, now, webhook), issued)
  {
    var z := EnqueueQueue(q, a, f, u, now, webhook);
    if z != q {
      forall k | k in q.tasks ensures k in z.tasks && z.tasks[k] == q.tasks[k] {
        assert k !in MessageTasks(a, f, u) * q.tasks.Keys;
      }
      TouchKeeps(q, z, issued);
    }
  }

  lemma StepKeeps(q: Queue, issued: set<Id>, step: Step)
    requires JournalOk(q, issued) && Enabled(q, issued, step)
    ensures JournalOk(Apply(q, step), issued + NewIds(step))
  {
    assert issued + {} == issued;
    match step
    case Enqueue(a, f, u, now, w) => EnqueueKeeps(q, issued, a, f, u, now, w);
    case Claim(k, _, _, token, runId, now) => ClaimKeeps(q, issued, k, token, runId, now);
    case Retry(k, now) => RetryKeeps(q, issued, k, now);
    case Drop(a, f, u) => DropKeeps(q, issued, a, f, u);
    case _ => WorkerStepKeeps(q, issued, step);
  }

  function IssuedAfter(issued: set<Id>, steps: seq<Step>): set<Id>
    decreases |steps|
  {
    if steps == [] then issued else IssuedAfter(issued + NewIds(steps[0]), steps[1..])
  }

  lemma {:induction false} RunKeeps(q: Queue, issued: set<Id>, steps: seq<Step>)
    requires JournalOk(q, issued) && ValidRun(q, issued, steps)
    ensures JournalOk(RunSteps(q, steps), IssuedAfter(issued, steps))
    decreases |steps|
  {
    if steps != [] {
      StepKeeps(q, issued, steps[0]);
      RunKeeps(Apply(q, steps[0]), issued + NewIds(steps[0]), steps[1..]);
    }
  }

  /** Live rows of a task: the exact agreement the queue relies on. */
  function LiveRows(journal: map<Id, JournalRow>, k: TaskKey): set<Id> {
    set id | id in journal && journal[id].key == k && journal[id].status.InProgress?
  }

  /**
   From an empty queue, after any interleaving: a task is running exactly when it
   has one live row, that row carries the task's token, and no task keeps more than 50 rows.
   */
  lemma QueueAndJournalAgree(steps: seq<Step>, k: TaskKey)
    requires ValidRun(EMPTY, {}, steps) && k in RunSteps(EMPTY, steps).tasks
    ensures var q := RunSteps(EMPTY, steps);
      && (q.tasks[k].status.Running? <==> |LiveRows(q.journal, k)| == 1)
      && (!q.tasks[k].status.Running? <==> LiveRows(q.journal, k) == {})
      && (forall id :: id in LiveRows(q.journal, k) ==> q.journal[id].token == q.tasks[k].token)
      && |RowsOf(q.journal, k)| <= 50
  {
    forall j ensures RowsOf(EMPTY.journal, j) == {} {}
    assert JournalOk(EMPTY, {});
    RunKeeps(EMPTY, {}, steps);
    var q := RunSteps(EMPTY, steps);
    if q.tasks[k].status.Running? {
      assert Journaled(q.journal, k, q.tasks[k].token);
      var id :| LiveRow(q.journal, k, q.tasks[k].token, id);
      assert LiveRows(q.journal, k) == {id};
    }
  }

  // ------------------------------------------------------------------- fencing

  /** No task runs under this token and no live row carries it. */
  ghost predicate Fenced(q: Queue, token: Id) {
    && (forall k :: !Owns(q, k, token))
    && (forall id :: id in q.journal && q.journal[id].token == token ==> !q.journal[id].status.InProgress?)
  }

  /** Every write of a fenced worker is refused and leaves the queue as it is. */
  lemma FencedWritesNothing(q: Queue, token: Id, k: TaskKey, skipped: bool, v: Verdict, payload: Text, phase: Text)
    requires Fenced(q, token)
    ensures CompleteQueue(q, k, token, skipped) == (q, false)
    ensures FailQueue(q, k, token, v) == (q, false)
    ensures SavePayloadQueue(q, k, token, payload) == (q, false)
    ensures PhaseQueue(q, token, phase) == (q, false)
  {}

  lemma StepKeepsFence(q: Queue, issued: set<Id>, step: Step, token: Id)
    requires Fenced(q, token) && token in issued && token != "" && Enabled(q, issued, step)
    ensures Fenced(Apply(q, step), token)
  {
    forall k ensures !Owns(Apply(q, step), k, token) {
      assert !Owns(q, k, token);
    }
  }

  lemma {:induction false} FencedForever(q: Queue, issued: set<Id>, steps: seq<Step>, token: Id)
    requires Fenced(q, token) && token in issued && token != "" && ValidRun(q, issued, steps)
    ensures Fenced(RunSteps(q, steps), token)
    decreases |steps|
  {
    if steps != [] {
      StepKeepsFence(q, issued, steps[0], token);
      FencedForever(Apply(q, steps[0]), issued + NewIds(steps[0]), steps[1..], token);
    }
  }

  lemma OneOwner(q: Queue, a: TaskKey, b: TaskKey, token: Id)
    requires TasksJournaled(q) && RowsDistinct(q.journal) && Owns(q, a, token) && Owns(q, b, token)
    ensures a == b
  {
    assert Journaled(q.journal, a, token) && Journaled(q.journal, b, token);
    var x :| LiveRow(q.journal, a, token, x);
    var y :| LiveRow(q.journal, b, token, y);
  }

  lemma ReplacedIsFenced(q: Queue, issued: set<Id>, key: TaskKey, token: Id, runId: Id, now: int, old_: Id)
    requires JournalOk(q, issued) && Owns(q, key, old_) && token !in issued && runId !in issued && old_ in issued
    ensures Fenced(ClaimQueue(q, key, token, runId, now), old_)
  {
    var z := ClaimQueue(q, key, token, runId, now);
    ClaimStarts(q, key, token, runId, now);
    forall k ensures !Owns(z, k, old_) {
      if Owns(z, k, old_) { OneOwner(q, k, key, old_); }
    }
    forall id | id in z.journal && z.journal[id].token == old_ ensures !z.journal[id].status.InProgress? {
      if q.journal[id].status.InProgress? { OneOwner(q, q.journal[id].key, key, old_); }
    }
  }

  /** A later claim of the task fences the worker it replaces, for good. */
  lemma ClaimFences(q: Queue, issued: set<Id>, claim: Step, steps: seq<Step>, old_: Id)
    requires JournalOk(q, issued) && claim.Claim? && Owns(q, claim.key, old_) && old_ != ""
    requires ValidRun(q, issued, [claim] + steps)
    ensures Fenced(RunSteps(Apply(q, claim), steps), old_)
  {
    assert ([claim] + steps)[1..] == steps;
    assert Journaled(q.journal, claim.key, old_);
    var own :| LiveRow(q.journal, claim.key, old_, own);
    ReplacedIsFenced(q, issued, claim.key, claim.token, claim.runId, claim.now, old_);
    FencedForever(Apply(q, claim), issued + NewIds(claim), steps, old_);
  }
}
