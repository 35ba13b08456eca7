/** Concurrency caps of the queue, at any real time no earlier than the clock readings used so far. */
module TaskCaps {
  import opened Wrappers
  import opened TaskModel

  ghost predicate OneAI(q: Queue, t: int) {
    forall a, b :: a in q.tasks && b in q.tasks && a.account == b.account && IsAI(a.kind) && IsAI(b.kind) ==>
      LiveTask(q.tasks[a], t) && LiveTask(q.tasks[b], t) ==> a == b
  }

  ghost predicate OneNotification(q: Queue, t: int) {
    forall a, b ::
      a in q.tasks && b in q.tasks && a.account == b.account && a.kind.Notification? && b.kind.Notification? ==>
      LiveTask(q.tasks[a], t) && LiveTask(q.tasks[b], t) ==> a == b
  }

  /** At most four unexpired AI leases in all, and one AI and one notification lease per account. */
  ghost predicate CapsOk(q: Queue, t: int) {
    |LiveAI(q, t)| <= MAX_CONCURRENT_AI && OneAI(q, t) && OneNotification(q, t)
  }

  predicate ReadBy(step: Step, t: int) {
    step.Claim? ==> Unix(step.now) <= t
  }

  lemma NoneActiveLater(q: Queue, account: Id, lane: Lane, now: int, t: int)
    requires LaneActive(q, account, lane, now) == {} && now <= t
    ensures forall a :: a in q.tasks && a.account == account && InLane(lane, a.kind) ==> !LiveTask(q.tasks[a], t)
  {
    assert LaneActive(q, account, lane, t) <= LaneActive(q, account, lane, now);
    assert forall a :: a in q.tasks && a.account == account && InLane(lane, a.kind) && LiveTask(q.tasks[a], t) ==>
      a in LaneActive(q, account, lane, t);
  }

  lemma ClaimKeepsOne(q: Queue, z: Queue, k: TaskKey, lane: Lane, t: int)
    requires k in q.tasks && k in z.tasks && z.tasks == q.tasks[k := z.tasks[k]] && InLane(lane, k.kind)
    requires forall a :: a in q.tasks && a.account == k.account && InLane(lane, a.kind) ==> !LiveTask(q.tasks[a], t)
    ensures OneAI(q, t) ==> OneAI(z, t)
    ensures OneNotification(q, t) ==> OneNotification(z, t)
  {}

  lemma ClaimKeepsFour(q: Queue, z: Queue, k: TaskKey, now: int, t: int)
    requires k in q.tasks && k in z.tasks && z.tasks == q.tasks[k := z.tasks[k]] && now <= t
    requires |LiveAI(q, t)| <= MAX_CONCURRENT_AI && (IsAI(k.kind) ==> |LiveAI(q, now)| < MAX_CONCURRENT_AI)
    ensures |LiveAI(z, t)| <= MAX_CONCURRENT_AI
  {
    if IsAI(k.kind) { SubsetSize(LiveAI(z, t), LiveAI(q, now) + {k}); }
    else { SubsetSize(LiveAI(z, t), LiveAI(q, t)); }
  }

  /** A claim checked at its own reading is safe at every later time. */
  lemma ClaimKeepsCaps(q: Queue, k: TaskKey, lane: Lane, summarized: set<TaskKey>, token: Id, runId: Id, now: int,
                       t: int)
    requires CapsOk(q, t) && Unix(now) <= t && Eligible(q, k.account, now, lane, summarized, k)
    ensures CapsOk(ClaimQueue(q, k, token, runId, now), t)
  {
    var z := ClaimQueue(q, k, token, runId, now);
    NoneActiveLater(q, k.account, lane, Unix(now), t);
    ClaimKeepsOne(q, z, k, lane, t);
    ClaimKeepsFour(q, z, k, Unix(now), t);
  }

  /** No other step starts a lease. */
  lemma OtherStepKeepsCaps(q: Queue, issued: set<Id>, step: Step, t: int)
    requires CapsOk(q, t) && !step.Claim? && Enabled(q, issued, step)
    ensures CapsOk(Apply(q, step), t)
  {
    var z := Apply(q, step);
    forall k | k in z.tasks && LiveTask(z.tasks[k], t) ensures k in q.tasks && LiveTask(q.tasks[k], t) {}
    SubsetSize(LiveAI(z, t), LiveAI(q, t));
  }

  lemma {:induction false} CapsOverRuns(q: Queue, issued: set<Id>, steps: seq<Step>, t: int)
    requires CapsOk(q, t) && ValidRun(q, issued, steps) && forall step :: step in steps ==> ReadBy(step, t)
    ensures CapsOk(RunSteps(q, steps), t)
    decreases |steps|
  {
    if steps != [] {
      var step := steps[0];
      assert step in steps && forall s :: s in steps[1..] ==> s in steps;
      if step.Claim? { ClaimKeepsCaps(q, step.key, step.lane, step.summarized, step.token, step.runId, step.now, t); }
      else { OtherStepKeepsCaps(q, issued, step, t); }
      CapsOverRuns(Apply(q, step), issued + NewIds(step), steps[1..], t);
    }
  }

  /** From an empty queue, for any mix of lanes and any order of clock readings up to t. */
  lemma CapsHold(steps: seq<Step>, t: int)
    requires ValidRun(EMPTY, {}, steps) && forall step :: step in steps ==> ReadBy(step, t)
    ensures CapsOk(RunSteps(EMPTY, steps), t)
  {
    CapsOverRuns(EMPTY, {}, steps, t);
  }
}
