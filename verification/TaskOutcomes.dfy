/** What the queue operations mean for their callers, over the rest of a run. */
module TaskOutcomes {
  import opened Wrappers
  import opened TaskModel
  import opened TaskJournal
  import opened RetryPolicy

  predicate Drops(step: Step, k: TaskKey) {
    step.Drop? && k in MessageTasks(step.account, step.folder, step.uid)
  }

  // ------------------------------------------------------------------- the claim

  lemma StartedHasOneLiveRow(j: map<Id, JournalRow>, z: map<Id, JournalRow>, key: TaskKey, runId: Id, row: JournalRow)
    requires Started(j, z, key, runId, row) && row.key == key && row.status.InProgress? && runId !in j
    ensures LiveRows(z, key) == {runId}
    ensures forall id :: id in j && j[id].key != key ==> id in z && z[id] == j[id]
    ensures forall id :: id in z && z[id].key != key ==> id in j
  {
    forall id ensures id in LiveRows(z, key) <==> id == runId {}
  }

  /** A claim leaves its task one live row, the new one; rows of other tasks stay as they were. */
  lemma ClaimHasOneLiveRow(q: Queue, issued: set<Id>, key: TaskKey, token: Id, runId: Id, now: int)
    requires JournalOk(q, issued) && key in q.tasks && token !in issued && runId !in issued
    ensures var z := ClaimQueue(q, key, token, runId, now);
      && LiveRows(z.journal, key) == {runId} && runId in z.journal
      && z.journal[runId] ==
           JournalRow(q.nextRow, token, key, q.tasks[key].attempts + 1, InProgress, "configuration", now)
      && |RowsOf(z.journal, key)| <= 50
      && (forall id :: id in q.journal && q.journal[id].key != key ==>
            id in z.journal && z.journal[id] == q.journal[id])
      && (forall id :: id in z.journal && z.journal[id].key != key ==> id in q.journal)
  {
    var z := ClaimQueue(q, key, token, runId, now);
    assert runId !in q.journal;
    ClaimStarts(q, key, token, runId, now);
    var row := JournalRow(q.nextRow, token, key, q.tasks[key].attempts + 1, InProgress, "configuration", now);
    StartedHasOneLiveRow(q.journal, z.journal, key, runId, row);
    ClaimBounded(q, issued, key, token, runId, now);
  }

  // --------------------------------------------------------------------- the end

  predicate Done(q: Queue, k: TaskKey) {
    k in q.tasks && (q.tasks[k].status.Ready? || q.tasks[k].status.Skipped?)
  }

  lemma StepKeepsDone(q: Queue, issued: set<Id>, step: Step, k: TaskKey)
    requires Done(q, k) && Enabled(q, issued, step) && !Drops(step, k)
    ensures Done(Apply(q, step), k) && Apply(q, step).tasks[k] == q.tasks[k]
    ensures !(step.Claim? && step.key == k)
  {
    if step.Enqueue? && k in MessageTasks(step.account, step.folder, step.uid) {
      assert k in MessageTasks(step.account, step.folder, step.uid) * q.tasks.Keys;
    }
  }

  /** A finished task is never touched again: no claim, no retry, no other write reaches it while its message exists. */
  lemma {:induction false} DoneIsFinal(q: Queue, issued: set<Id>, steps: seq<Step>, k: TaskKey)
    requires Done(q, k) && ValidRun(q, issued, steps) && forall step :: step in steps ==> !Drops(step, k)
    ensures Done(RunSteps(q, steps), k) && RunSteps(q, steps).tasks[k] == q.tasks[k]
    ensures forall step :: step in steps ==> !(step.Claim? && step.key == k)
    decreases |steps|
  {
    if steps != [] {
      assert steps[0] in steps;
      StepKeepsDone(q, issued, steps[0], k);
      DoneIsFinal(Apply(q, steps[0]), issued + NewIds(steps[0]), steps[1..], k);
    }
  }

  /**
   A completion that is accepted is final: over the rest of the run the task keeps its result and
   payload and is never claimed again, and the worker's token can write nothing more.
   */
  lemma CompletionIsFinal(q: Queue, issued: set<Id>, k: TaskKey, token: Id, skipped: bool, steps: seq<Step>)
    requires JournalOk(q, issued) && Owns(q, k, token) && token != ""
    requires var z := CompleteQueue(q, k, token, skipped).0;
      ValidRun(z, issued, steps) && forall step :: step in steps ==> !Drops(step, k)
    ensures var z := RunSteps(CompleteQueue(q, k, token, skipped).0, steps);
      && k in z.tasks && z.tasks[k].status == (if skipped then Skipped else Ready)
           && z.tasks[k].payload == q.tasks[k].payload
      && Fenced(z, token)
    ensures forall step :: step in steps ==> !(step.Claim? && step.key == k)
  {
    var z := CompleteQueue(q, k, token, skipped).0;
    CompletionFences(q, issued, k, token, skipped);
    DoneIsFinal(z, issued, steps, k);
    FencedForever(z, issued, steps, token);
  }

  lemma CompletionFences(q: Queue, issued: set<Id>, k: TaskKey, token: Id, skipped: bool)
    requires JournalOk(q, issued) && Owns(q, k, token) && token != ""
    ensures Fenced(CompleteQueue(q, k, token, skipped).0, token) && token in issued
  {
    assert Journaled(q.journal, k, token);
    forall j ensures !Owns(CompleteQueue(q, k, token, skipped).0, j, token) {
      if j != k && Owns(q, j, token) { OneOwner(q, j, k, token); }
    }
  }

  /** The end of an attempt is written to the journal row of its token, and to no other. */
  ghost predicate Journals(q: Queue, z: Queue, token: Id, status: RunStatus) {
    && z.journal.Keys == q.journal.Keys && z.nextRow == q.nextRow
    && (exists id :: id in q.journal && q.journal[id].token == token && z.journal[id].status == status)
    && forall id :: id in q.journal ==>
         z.journal[id] == if q.journal[id].token == token then q.journal[id].(status := status) else q.journal[id]
  }

  lemma OwnedRow(q: Queue, issued: set<Id>, k: TaskKey, token: Id) returns (own: Id)
    requires JournalOk(q, issued) && Owns(q, k, token)
    ensures LiveRow(q.journal, k, token, own)
    ensures forall id :: id in q.journal && q.journal[id].token == token ==> id == own
  {
    assert Journaled(q.journal, k, token);
    own :| LiveRow(q.journal, k, token, own);
  }

  /** A completion changes its task and its journal row only: done, without error or lease, the text kept. */
  lemma CompletionIsRecorded(q: Queue, issued: set<Id>, k: TaskKey, token: Id, skipped: bool)
    requires JournalOk(q, issued) && Owns(q, k, token)
    ensures var z := CompleteQueue(q, k, token, skipped).0;
      var t := q.tasks[k];
      && k in z.tasks && z.tasks == q.tasks[k := z.tasks[k]]
      && z.tasks[k] == Task(if skipped then Skipped else Ready, t.attempts, "", 0, 0, t.payload, "", t.created)
      && Journals(q, z, token, if skipped then SkippedRun else Succeeded)
  {
    var own := OwnedRow(q, issued, k, token);
  }

  /** The queue after the failure of an attempt, as the policy judges it. */
  function FailedAt(q: Queue, k: TaskKey, token: Id, hash: nat, c: Cause, now: int, later: int): Queue
    requires k in q.tasks
  {
    FailQueue(q, k, token, Judge(k.kind, q.tasks[k].attempts, hash, c, now, later)).0
  }

  /** What is tried again: an interruption always; below the limit a timeout, and what is not known to be permanent. */
  predicate TriedAgain(kind: Kind, attempts: int, c: Cause) {
    var limit := match kind case Analysis => 5 case Notification => 8 case Reply => 3;
    c.canceled || (attempts < limit &&
      (c.deadline ||
       if c.explicit.Some? then !c.explicit.value.permanent
       else if c.upstream.Some? then c.upstream.value.code in {408, 409, 425, 429} || c.upstream.value.code >= 500
       else !c.skill && (c.output ==> attempts < 2)))
  }

  /**
   A failure changes its task and its journal row only. It leaves the task waiting exactly when the
   cause is tried again, else failed, with the cause's message; an interruption gives its attempt
   back and is due at once.
   */
  lemma FailureIsRecorded(q: Queue, issued: set<Id>, k: TaskKey, token: Id, hash: nat, c: Cause, now: int, later: int)
    requires JournalOk(q, issued) && Owns(q, k, token)
    ensures var z := FailedAt(q, k, token, hash, c, now, later);
      var t := q.tasks[k];
      && k in z.tasks && z.tasks == q.tasks[k := z.tasks[k]]
      && z.tasks[k] == Task(if TriedAgain(k.kind, t.attempts, c) then Pending else Failed,
                            if c.canceled then Max(0, t.attempts - 1) else t.attempts,
                            "", 0, z.tasks[k].nextAttempt, t.payload, c.message, t.created)
      && (c.canceled ==> Due(z.tasks[k], Unix(later)))
      && Journals(q, z, token, if c.canceled then Interrupted else FailedRun)
  {
    var own := OwnedRow(q, issued, k, token);
  }

  // ----------------------------------------------------------- phases and retries

  /** A phase is recorded exactly while the worker still owns its task, and only in that task's live row. */
  lemma PhaseNeedsTheTask(steps: seq<Step>, token: Id, phase: Text)
    requires ValidRun(EMPTY, {}, steps)
    ensures var q := RunSteps(EMPTY, steps);
      var r := PhaseQueue(q, token, phase);
      && (r.1 <==> exists k :: Owns(q, k, token))
      && r.0.tasks == q.tasks && r.0.journal.Keys == q.journal.Keys
      && (forall id :: id in q.journal && r.0.journal[id] != q.journal[id] ==>
            q.journal[id].token == token && Owns(q, q.journal[id].key, token)
              && r.0.journal[id] == q.journal[id].(phase := phase))
  {
    forall j ensures RowsOf(EMPTY.journal, j) == {} {}
    assert JournalOk(EMPTY, {});
    RunKeeps(EMPTY, {}, steps);
    var q := RunSteps(EMPTY, steps);
    if k :| Owns(q, k, token) {
      assert Journaled(q.journal, k, token);
      var id :| LiveRow(q.journal, k, token, id);
    }
  }

  /**
   An explicit retry takes effect exactly on a failed task: it is due at once with a full
   budget and its frozen payload, and no other task and no journal row is touched. It never
   replays a finished task, nor disturbs a running one.
   */
  lemma RetryRestarts(q: Queue, key: TaskKey, now: int)
    ensures var r := RetryQueue(q, key, now);
      && (r.1 <==> key in q.tasks && q.tasks[key].status.Failed?)
      && (!r.1 ==> r.0 == q)
      && r.0.journal == q.journal && r.0.tasks.Keys == q.tasks.Keys
      && (forall k :: k in q.tasks && k != key ==> r.0.tasks[k] == q.tasks[k])
      && (r.1 ==>
            && Due(r.0.tasks[key], Unix(now))
            && r.0.tasks[key] == q.tasks[key].(status := Pending, attempts := 0, nextAttempt := Unix(now), error := ""))
  {}

  /**
   So a failed notification with a frozen text can be claimed again at once, unless another one
   of its account is running.
   */
  lemma RetriedTaskIsClaimable(q: Queue, key: TaskKey, now: int, summarized: set<TaskKey>)
    requires RetryQueue(q, key, now).1 && key.kind.Notification? && q.tasks[key].payload != ""
    requires LaneActive(q, key.account, NotificationLane, Unix(now)) == {}
    ensures Eligible(RetryQueue(q, key, now).0, key.account, now, NotificationLane, summarized, key)
  {
    var z := RetryQueue(q, key, now).0;
    assert LaneActive(z, key.account, NotificationLane, Unix(now)) <=
           LaneActive(q, key.account, NotificationLane, Unix(now));
  }

  // ------------------------------------------------------------------ Retry-After

  /** A retryable, uninterrupted failure as the queue stores it. */
  predicate PutOff(q: Queue, k: TaskKey, token: Id, c: Cause) {
    Owns(q, k, token) && Classify(k.kind, q.tasks[k].attempts, c).retryable
      && !Classify(k.kind, q.tasks[k].attempts, c).interrupted
  }

  /**
   The table keeps whole seconds: the task is due from the start of the second in which its
   wait ends, so a claim comes less than a second early at most.
   */
  lemma ClaimsWait(q: Queue, k: TaskKey, token: Id, hash: nat, c: Cause, now: int, later: int, claim: int)
    requires PutOff(q, k, token, c)
    ensures var d := Wait(k.kind, q.tasks[k].attempts, hash, c);
      var t := FailedAt(q, k, token, hash, c, now, later).tasks[k];
      && (Due(t, Unix(claim)) <==> claim >= now + d - (now + d) % 1000)
      && (Due(t, Unix(claim)) ==> claim - now > d - 1000)
  {}

  /** A cause whose response header reaches the policy. */
  predicate Backpressure(c: Cause) {
    c.upstream.Some? && !c.canceled && !c.deadline && c.explicit.None?
  }

  /**
   Every claim honours the server's Retry-After exactly when the wait, less the fraction of a
   second that the table drops, still covers it.
   */
  lemma ClaimsHonourRetryAfter(q: Queue, k: TaskKey, token: Id, hash: nat, c: Cause, now: int, later: int)
    requires PutOff(q, k, token, c) && Backpressure(c)
    ensures var d := Wait(k.kind, q.tasks[k].attempts, hash, c);
      var t := FailedAt(q, k, token, hash, c, now, later).tasks[k];
      var asked := Requested(c.upstream.value.header);
      (forall claim :: Due(t, Unix(claim)) ==> claim - now >= asked) <==> asked <= d - (now + d) % 1000
  {
    var d := Wait(k.kind, q.tasks[k].attempts, hash, c);
    var t := FailedAt(q, k, token, hash, c, now, later).tasks[k];
    var first := now + d - (now + d) % 1000;
    ClaimsWait(q, k, token, hash, c, now, later, first);
    assert Due(t, Unix(first));
    forall claim | Due(t, Unix(claim)) ensures claim >= first {
      ClaimsWait(q, k, token, hash, c, now, later, claim);
    }
  }

  /** A minute asked for at 0.999 s: the task is due after 59.001 s. */
  lemma EarlyClaimExample(q: Queue, k: TaskKey, token: Id, hash: nat, later: int)
    requires Owns(q, k, token) && q.tasks[k].attempts == 1
    ensures var c := Cause(false, false, None, Some(Upstream(503, Seconds(60))), false, false, false, false, "");
      Due(FailedAt(q, k, token, hash, c, 999, later).tasks[k], Unix(60_000)) && 60_000 - 999 < Requested(Seconds(60))
  {
    OwnDelayBounds(1, hash);
    assert Backoff(1) == FIRST_DELAY;
  }
}
