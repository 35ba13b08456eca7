/** What a claim grants, and what holds a claim back. */
module TaskLeases {
  import opened TaskModel
  import opened TaskOutcomes

  // -------------------------------------------------------------------- leases

  /** A claim changes its own task only: three minutes under the new token, and one more attempt. */
  lemma ClaimGrantsLease(q: Queue, k: TaskKey, token: Id, runId: Id, now: int)
    requires k in q.tasks
    ensures var t := q.tasks[k];
      var z := ClaimQueue(q, k, token, runId, now).tasks;
      && z == q.tasks[k := z[k]]
      && z[k] == Task(Running, t.attempts + 1, token, Unix(now + 180_000), t.nextAttempt, t.payload, t.error, t.created)
      && forall r :: Due(z[k], Unix(r)) <==> Unix(r) >= Unix(now + 180_000)
  {}

  predicate LeasedTo(q: Queue, k: TaskKey, token: Id, until: int) {
    Owns(q, k, token) && q.tasks[k].leaseUntil == until
  }

  /** The worker ends the task itself, or the message goes. */
  predicate Ends(step: Step, k: TaskKey, token: Id) {
    ((step.Complete? || step.Fail?) && step.key == k && step.token == token) || Drops(step, k)
  }

  predicate Claims(step: Step, k: TaskKey) { step.Claim? && step.key == k }

  lemma StepKeepsLease(q: Queue, issued: set<Id>, step: Step, k: TaskKey, token: Id, until: int)
    requires LeasedTo(q, k, token, until) && Enabled(q, issued, step) && !Ends(step, k, token) && !Claims(step, k)
    ensures LeasedTo(Apply(q, step), k, token, until)
  {
    if step.Enqueue? && k in MessageTasks(step.account, step.folder, step.uid) {
      assert k in MessageTasks(step.account, step.folder, step.uid) * q.tasks.Keys;
    }
  }

  /** Within the lease no claim in a lane of its kind gets through for the account. */
  lemma LeaseBlocks(q: Queue, issued: set<Id>, step: Step, k: TaskKey, token: Id, until: int)
    requires LeasedTo(q, k, token, until) && Enabled(q, issued, step) && step.Claim?
    requires step.key.account == k.account && Unix(step.now) < until
    ensures !InLane(step.lane, k.kind) && step.key != k
  {
    assert k in LaneActive(q, k.account, step.lane, Unix(step.now)) <==> InLane(step.lane, k.kind);
  }

  /** Whether a claim at this place of the run respects the lease. */
  predicate Respects(step: Step, k: TaskKey, until: int) {
    step.Claim? && step.key.account == k.account && Unix(step.now) < until ==>
      step.key != k && !InLane(step.lane, k.kind)
  }

  lemma {:induction false} LeaseOverRuns(q: Queue, issued: set<Id>, steps: seq<Step>, k: TaskKey, token: Id, until: int)
    requires LeasedTo(q, k, token, until) && ValidRun(q, issued, steps)
    requires forall s :: s in steps ==> !Ends(s, k, token) && (Claims(s, k) ==> Unix(s.now) < until)
    ensures LeasedTo(RunSteps(q, steps), k, token, until)
    ensures forall s :: s in steps ==> Respects(s, k, until) && !Claims(s, k)
    decreases |steps|
  {
    if steps != [] {
      assert steps[0] in steps;
      if steps[0].Claim? && steps[0].key.account == k.account && Unix(steps[0].now) < until {
        LeaseBlocks(q, issued, steps[0], k, token, until);
      }
      StepKeepsLease(q, issued, steps[0], k, token, until);
      LeaseOverRuns(Apply(q, steps[0]), issued + NewIds(steps[0]), steps[1..], k, token, until);
    }
  }

  /**
   A claim grants three minutes. Until its worker ends the task, its message goes, or the task is
   claimed at a reading after the lease: nobody claims the task, nor at a reading within the lease
   anything else of the account in a lane of its kind; every write of the worker succeeds; and the
   task is due again exactly from the end of the lease.
   */
  lemma LeaseExcludes(q: Queue, issued: set<Id>, claim: Step, steps: seq<Step>, skipped: bool, v: Verdict, p: Text)
    requires claim.Claim? && ValidRun(q, issued, [claim] + steps)
    requires forall s :: s in steps ==>
      !Ends(s, claim.key, claim.token) && (Claims(s, claim.key) ==> Unix(s.now) < Unix(claim.now + 180_000))
    ensures forall s :: s in steps ==> !Claims(s, claim.key) && Respects(s, claim.key, Unix(claim.now + 180_000))
    ensures var z := RunSteps(Apply(q, claim), steps);
      && claim.key in z.tasks && z.tasks[claim.key].token == claim.token
      && CompleteQueue(z, claim.key, claim.token, skipped).1 && FailQueue(z, claim.key, claim.token, v).1
      && SavePayloadQueue(z, claim.key, claim.token, p).1
      && forall r :: Due(z.tasks[claim.key], Unix(r)) <==> Unix(r) >= Unix(claim.now + 180_000)
  {
    assert ([claim] + steps)[1..] == steps;
    ClaimGrantsLease(q, claim.key, claim.token, claim.runId, claim.now);
    LeaseOverRuns(Apply(q, claim), issued + NewIds(claim), steps, claim.key, claim.token, Unix(claim.now + 180_000));
  }

  predicate Unexpired(t: Task, now: int) { t.status == Running && t.leaseUntil > now }

  /** The kinds a lane serves; without a lane all of them. */
  predicate Serves(lane: Lane, kind: Kind) {
    lane == AllLanes || ((kind == Notification) == (lane == NotificationLane))
  }

  /**
   Outside the notification lane a task can be taken exactly if the lane serves it, its wait or its
   last lease is over, no unexpired lease of the account is in the lane, and, for AI work, fewer than
   four are unexpired over all accounts.
   */
  lemma WhoIsEligible(q: Queue, account: Id, k: TaskKey, now: int, lane: Lane, summarized: set<TaskKey>)
    requires lane != NotificationLane
    ensures Eligible(q, account, now, lane, summarized, k) <==>
      && k in q.tasks && k.account == account && Serves(lane, k.kind)
      && ((q.tasks[k].status == Pending && q.tasks[k].nextAttempt <= Unix(now))
          || (q.tasks[k].status == Running && q.tasks[k].leaseUntil <= Unix(now)))
      && (forall e :: e in q.tasks && e.account == account && Serves(lane, e.kind) ==>
            !Unexpired(q.tasks[e], Unix(now)))
      && (k.kind == Notification
          || |set e | e in q.tasks && e.kind != Notification && Unexpired(q.tasks[e], Unix(now))| < 4)
  {
    var busy := set e | e in q.tasks && e.kind != Notification && Unexpired(q.tasks[e], Unix(now));
    assert LiveAI(q, Unix(now)) == busy;
    var active := LaneActive(q, account, lane, Unix(now));
    assert active == {} <==> forall e :: e in q.tasks ==> e !in active;
  }

  // ------------------------------------------------------------- notifications

  /** A new message gets its tasks once: due at once, with a full budget; other tasks and the journal stay. */
  lemma EnqueuedWork(q: Queue, account: Id, folder: Text, uid: int, now: int, webhook: bool)
    ensures var z := EnqueueQueue(q, account, folder, uid, now, webhook);
      var a := TaskKey(account, folder, uid, Analysis);
      var n := TaskKey(account, folder, uid, Notification);
      var r := TaskKey(account, folder, uid, Reply);
      if a in q.tasks || n in q.tasks || r in q.tasks then z == q
      else
        && z.tasks.Keys == q.tasks.Keys + (if webhook then {a, n, r} else {a, r})
        && (forall k :: k in q.tasks ==> z.tasks[k] == q.tasks[k])
        && (forall k :: k in z.tasks && k !in q.tasks ==>
              z.tasks[k] == Task(Pending, 0, "", 0, Unix(now), "", "", Unix(now)) && Due(z.tasks[k], Unix(now)))
        && z.journal == q.journal && z.nextRow == q.nextRow
  {
    var a := TaskKey(account, folder, uid, Analysis);
    var n := TaskKey(account, folder, uid, Notification);
    var r := TaskKey(account, folder, uid, Reply);
    var both := MessageTasks(account, folder, uid) * q.tasks.Keys;
    assert both == {} <==> a !in both && n !in both && r !in both;
  }

  function FirstTry(k: TaskKey): TaskKey { k.(kind := Analysis) }

  /** The first attempt of the analysis has not ended. */
  predicate BeforeFirstTry(q: Queue, k: TaskKey) {
    k in q.tasks && (q.tasks[k].status.Running? || (q.tasks[k].status.Pending? && q.tasks[k].attempts == 0))
  }

  /**
   A due notification on a free lane is held back exactly while it is less than 30 seconds old, has
   no frozen text and no summary, and the first attempt of its message's analysis has not ended.
   */
  lemma WhatHoldsBack(q: Queue, k: TaskKey, now: int, summarized: set<TaskKey>)
    requires k in q.tasks && k.kind.Notification? && Due(q.tasks[k], Unix(now))
    requires forall e :: e in q.tasks && e.account == k.account && e.kind == Notification ==>
      !Unexpired(q.tasks[e], Unix(now))
    ensures !Eligible(q, k.account, now, NotificationLane, summarized, k) <==>
      && q.tasks[k].created > Unix(now - 30_000) && q.tasks[k].payload == "" && k !in summarized
      && BeforeFirstTry(q, FirstTry(k))
  {
    assert LaneActive(q, k.account, NotificationLane, Unix(now)) == {};
  }

  predicate Untouched(q: Queue, k: TaskKey, created: int) {
    && k in q.tasks && q.tasks[k].status.Pending? && q.tasks[k].payload == "" && q.tasks[k].created == created
    && BeforeFirstTry(q, FirstTry(k))
  }

  predicate EndsAttempt(step: Step, k: TaskKey) {
    ((step.Complete? || step.Fail?) && step.key == k) || Drops(step, k)
  }

  lemma StepKeepsUntouched(q: Queue, issued: set<Id>, step: Step, k: TaskKey, created: int)
    requires Untouched(q, k, created) && Enabled(q, issued, step) && k.kind.Notification?
    requires !EndsAttempt(step, FirstTry(k)) && !Claims(step, k)
    ensures Untouched(Apply(q, step), k, created)
  {
    if step.Enqueue? && k in MessageTasks(step.account, step.folder, step.uid) {
      assert k in MessageTasks(step.account, step.folder, step.uid) * q.tasks.Keys;
    }
  }

  lemma {:induction false} UntouchedOverRuns(q: Queue, issued: set<Id>, steps: seq<Step>, k: TaskKey, created: int,
                                             claim: Step)
    requires Untouched(q, k, created) && k.kind.Notification? && ValidRun(q, issued, steps + [claim])
    requires forall s :: s in steps ==> !EndsAttempt(s, FirstTry(k)) && !Claims(s, k)
    requires Claims(claim, k) && claim.lane.NotificationLane?
    ensures k in claim.summarized || created <= Unix(claim.now - 30_000)
    decreases |steps|
  {
    if steps == [] {
      assert (steps + [claim])[0] == claim;
    } else {
      assert steps[0] in steps && (steps + [claim])[1..] == steps[1..] + [claim];
      StepKeepsUntouched(q, issued, steps[0], k, created);
      UntouchedOverRuns(Apply(q, steps[0]), issued + NewIds(steps[0]), steps[1..], k, created, claim);
    }
  }

  /**
   From a message's arrival until the first attempt of its analysis ends, the notification lane
   takes the notification only with a summary or after 30 seconds, whatever else happens.
   */
  lemma AnalysisComesFirst(q: Queue, issued: set<Id>, account: Id, folder: Text, uid: int, now: int, steps: seq<Step>,
                           claim: Step)
    requires MessageTasks(account, folder, uid) !! q.tasks.Keys && claim.Claim? && claim.lane.NotificationLane?
    requires claim.key == TaskKey(account, folder, uid, Notification)
    requires ValidRun(q, issued, [Enqueue(account, folder, uid, now, true)] + steps + [claim])
    requires forall s :: s in steps ==> !EndsAttempt(s, FirstTry(claim.key)) && !Claims(s, claim.key)
    ensures claim.key in claim.summarized || Unix(now) <= Unix(claim.now - 30_000)
  {
    var enqueue := Enqueue(account, folder, uid, now, true);
    assert ([enqueue] + steps + [claim])[1..] == steps + [claim];
    EnqueuedWork(q, account, folder, uid, now, true);
    UntouchedOverRuns(Apply(q, enqueue), issued + NewIds(enqueue), steps, claim.key, Unix(now), claim);
  }
}
