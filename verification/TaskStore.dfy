/** The queue operations as the store runs them, and the order in which a claim picks its task. */
module TaskStore {
  import opened Wrappers
  import opened Strings
  import opened TaskModel
  import opened RetryPolicy
  import Runs

  lemma RankLessTransitive(a: Rank, b: Rank, c: Rank)
    requires RankLess(a, b) && RankLess(b, c)
    ensures RankLess(a, c)
  {
    if TextLess(a.folder, b.folder) && TextLess(b.folder, c.folder) {
      TextLessTransitive(a.folder, b.folder, c.folder);
    }
  }

  lemma RankLessTotal(a: Rank, b: Rank)
    ensures a == b || RankLess(a, b) || RankLess(b, a)
    ensures !(RankLess(a, b) && RankLess(b, a))
  {
    TextLessTotal(a.folder, b.folder);
  }

  /** Within an account and lane, the order columns identify the task. */
  lemma RanksDistinct(q: Queue, lane: Lane, a: TaskKey, b: TaskKey)
    requires a in q.tasks && b in q.tasks && a.account == b.account && InLane(lane, a.kind) && InLane(lane, b.kind)
    requires RankOf(lane, a, q.tasks[a]) == RankOf(lane, b, q.tasks[b])
    ensures a == b
  {}

  /** The choice is determined: at most one task can be first. */
  lemma ChoiceIsUnique(q: Queue, account: Id, now: int, lane: Lane, summarized: set<TaskKey>, a: TaskKey, b: TaskKey)
    requires IsChoice(q, account, now, lane, summarized, a) && IsChoice(q, account, now, lane, summarized, b)
    ensures a == b
  {
    if a != b {
      RankLessTotal(RankOf(lane, a, q.tasks[a]), RankOf(lane, b, q.tasks[b]));
    }
  }

  /**
   The AI lane takes analyses before replies, and within a kind the oldest; notifications go oldest
   first. Without a lane the lowest message number goes first, its analysis before its notification
   before its reply. Ties go by folder, then by number.
   */
  lemma LanesTakeTheOldest(q: Queue, account: Id, now: int, lane: Lane, summarized: set<TaskKey>, k: TaskKey,
                           e: TaskKey)
    requires IsChoice(q, account, now, lane, summarized, k) && Eligible(q, account, now, lane, summarized, e)
    ensures lane != AllLanes ==>
      && (k.kind.Reply? ==> e.kind.Reply?)
      && (k.kind == e.kind ==>
            && q.tasks[k].created <= q.tasks[e].created
            && (q.tasks[k].created == q.tasks[e].created && k.folder != e.folder ==> TextLess(k.folder, e.folder))
            && (q.tasks[k].created == q.tasks[e].created && k.folder == e.folder ==> k.uid <= e.uid))
    ensures lane == AllLanes ==>
      && k.uid <= e.uid
      && (k.uid == e.uid ==>
            && (k.kind.Reply? ==> e.kind.Reply?) && (e.kind.Analysis? ==> k.kind.Analysis?)
            && (k.kind == e.kind && k.folder != e.folder ==> TextLess(k.folder, e.folder)))
    ensures q.tasks[k].status.Running? ==> q.tasks[k].leaseUntil <= Unix(now)
  {
    TextLessTotal(k.folder, e.folder);
  }

  /** A store call of another worker or of a user. */
  datatype Act =
    | ClaimAct(account: Id, lane: Lane, now: int, summarized: set<TaskKey>, token: Id, runId: Id)
    | CompleteAct(key: TaskKey, token: Id, skipped: bool)
    | FailAct(key: TaskKey, token: Id, attempts: int, hash: nat, cause: Cause, now: int, later: int)
    | PayloadAct(key: TaskKey, token: Id, payload: Text)
    | PhaseAct(token: Id, phase: Text)
    | RetryAct(key: TaskKey, now: int)
    | EnqueueAct(account: Id, folder: Text, uid: int, now: int, webhook: bool)
    | DropAct(account: Id, folder: Text, uid: int)

  function ActIds(act: Act): set<Id> {
    if act.ClaimAct? then {act.token, act.runId} else {}
  }

  function AllIds(acts: seq<Act>): set<Id> {
    if acts == [] then {} else ActIds(acts[0]) + AllIds(acts[1..])
  }

  predicate FreshIds(used: set<Id>, token: Id, runId: Id) {
    token !in used && runId !in used && token != runId && token != ""
  }

  predicate FreshActs(used: set<Id>, acts: seq<Act>)
    decreases |acts|
  {
    acts == [] ||
    ((acts[0].ClaimAct? ==> FreshIds(used, acts[0].token, acts[0].runId))
      && FreshActs(used + ActIds(acts[0]), acts[1..]))
  }

  lemma NextAct(used: set<Id>, ids: set<Id>, acts: seq<Act>, i: nat)
    requires i < |acts| && FreshActs(used + ids, acts[i..])
    ensures acts[i].ClaimAct? ==> FreshIds(used + ids, acts[i].token, acts[i].runId)
    ensures FreshActs(used + (ids + ActIds(acts[i])), acts[i + 1..])
    ensures ids + ActIds(acts[i]) + AllIds(acts[i + 1..]) == ids + AllIds(acts[i..])
  {
    assert acts[i..][0] == acts[i] && acts[i..][1..] == acts[i + 1..];
    assert used + ids + ActIds(acts[i]) == used + (ids + ActIds(acts[i]));
  }

  /**
   One pass of the runner's loop: the clock, the new ids, what others do to the queue while the
   task executes, and what the execution comes to.
   */
  datatype Round = Round(now: int, later: int, summarized: set<TaskKey>, token: Id, runId: Id,
                         others: seq<Act>, failure: Option<Cause>, skipped: bool, hash: nat)

  function RoundIds(r: Round): set<Id> { {r.token, r.runId} + AllIds(r.others) }

  predicate FreshRound(used: set<Id>, r: Round) {
    FreshIds(used, r.token, r.runId) && FreshActs(used + {r.token, r.runId}, r.others)
  }

  predicate FreshRounds(used: set<Id>, rounds: seq<Round>)
    decreases |rounds|
  {
    rounds == [] || (FreshRound(used, rounds[0]) && FreshRounds(used + RoundIds(rounds[0]), rounds[1..]))
  }

  function IdsOf(steps: seq<Step>): set<Id> {
    if steps == [] then {} else NewIds(steps[0]) + IdsOf(steps[1..])
  }

  /** The runs of the queue are runs in the general sense. */
  lemma {:induction false} SameRun(q: Queue, used: set<Id>, steps: seq<Step>)
    ensures ValidRun(q, used, steps) <==>
      Runs.Valid(TaskModel.Apply, TaskModel.Enabled, TaskModel.NewIds, q, used, steps)
    decreases |steps|
  {
    if steps != [] { SameRun(Apply(q, steps[0]), used + NewIds(steps[0]), steps[1..]); }
  }

  lemma {:induction false} SameEnd(q: Queue, steps: seq<Step>)
    ensures RunSteps(q, steps) == Runs.After(TaskModel.Apply, q, steps)
    decreases |steps|
  {
    if steps != [] { SameEnd(Apply(q, steps[0]), steps[1..]); }
  }

  lemma {:induction false} SameIds(steps: seq<Step>)
    ensures IdsOf(steps) == Runs.IdsOf(TaskModel.NewIds, steps)
  {
    if steps != [] { SameIds(steps[1..]); }
  }

  lemma FewerIdsAllowMore()
    ensures Runs.Monotone(TaskModel.Enabled)
  {}

  /** All there is to say about two runs, one after the other. */
  lemma Continue(q: Queue, used: set<Id>, a: seq<Step>, aIds: set<Id>, b: seq<Step>, bIds: set<Id>)
    requires ValidRun(q, used, a) && IdsOf(a) <= aIds && ValidRun(RunSteps(q, a), used + aIds, b) && IdsOf(b) <= bIds
    ensures ValidRun(q, used, a + b) && RunSteps(q, a + b) == RunSteps(RunSteps(q, a), b) && IdsOf(a + b) <= aIds + bIds
  {
    FewerIdsAllowMore();
    SameRun(q, used, a);
    SameEnd(q, a);
    SameIds(a);
    SameRun(RunSteps(q, a), used + aIds, b);
    Runs.Append(TaskModel.Apply, TaskModel.Enabled, TaskModel.NewIds, q, used, a, b, used + aIds);
    SameRun(q, used, a + b);
    SameEnd(q, a + b);
    SameEnd(RunSteps(q, a), b);
    SameIds(b);
    SameIds(a + b);
  }

  lemma OneStep(q: Queue, used: set<Id>, step: Step)
    requires Enabled(q, used, step)
    ensures ValidRun(q, used, [step]) && RunSteps(q, [step]) == Apply(q, step) && IdsOf([step]) == NewIds(step)
  {
    assert [step][1..] == [];
    assert RunSteps(Apply(q, step), []) == Apply(q, step);
    assert ValidRun(Apply(q, step), used + NewIds(step), []);
  }

  datatype Claimed = NoTask | GotTask(key: TaskKey, task: Task)

  class Store {
    var tasks: map<TaskKey, Task>
    var journal: map<Id, JournalRow>
    var nextRow: nat

    ghost function View(): Queue
      reads this
    {
      Queue(tasks, journal, nextRow)
    }

    constructor ()
      ensures View() == EMPTY
    {
      tasks, journal, nextRow := map[], map[], 0;
    }

    /** SELECT ... ORDER BY ... LIMIT 1 over the candidate rows. */
    method Select(account: Id, now: int, lane: Lane, summarized: set<TaskKey>) returns (best: Option<TaskKey>)
      ensures best.Some? ==> IsChoice(View(), account, now, lane, summarized, best.value)
      ensures best.None? ==> forall k :: k in tasks ==> !Eligible(View(), account, now, lane, summarized, k)
    {
      var q := Queue(tasks, journal, nextRow);
      var rest := tasks.Keys;
      best := None;
      while rest != {}
        invariant rest <= tasks.Keys && q == View()
        invariant best.Some? ==> Eligible(q, account, now, lane, summarized, best.value) && best.value !in rest
        invariant forall e :: e in tasks && e !in rest && Eligible(q, account, now, lane, summarized, e) ==>
          best.Some? && (e == best.value
            || RankLess(RankOf(lane, best.value, q.tasks[best.value]), RankOf(lane, e, q.tasks[e])))
        decreases rest
      {
        var k :| k in rest;
        rest := rest - {k};
        if Eligible(q, account, now, lane, summarized, k) {
          if best.None? {
            best := Some(k);
          } else {
            var mine, theirs := RankOf(lane, k, tasks[k]), RankOf(lane, best.value, tasks[best.value]);
            RankLessTotal(mine, theirs);
            if mine == theirs { RanksDistinct(q, lane, k, best.value); }
            if RankLess(mine, theirs) {
              forall e | e in tasks && e !in rest && e != k && Eligible(q, account, now, lane, summarized, e)
                ensures RankLess(mine, RankOf(lane, e, q.tasks[e]))
              {
                if e != best.value { RankLessTransitive(mine, theirs, RankOf(lane, e, q.tasks[e])); }
              }
              best := Some(k);
            }
          }
        }
      }
    }

    /** startMailTaskRun: close the row an expired lease left open, insert the new one, prune. */
    method StartRun(key: TaskKey, token: Id, runId: Id, attempt: int, now: int)
      modifies this`journal, this`nextRow
      ensures View() == TaskModel.StartRun(old(View()), key, token, runId, attempt, now)
    {
      journal := ExpireRows(journal, key);
      journal := journal[runId := JournalRow(nextRow, token, key, attempt, InProgress, "configuration", now)];
      nextRow := nextRow + 1;
      journal := PruneRows(journal, key, runId);
    }

    method ClaimInLane(account: Id, now: int, lane: Lane, summarized: set<TaskKey>, token: Id, runId: Id)
      returns (got: Claimed)
      modifies this
      ensures got.NoTask? ==> View() == old(View())
      ensures got.NoTask? ==> forall k :: k in old(tasks) ==> !Eligible(old(View()), account, now, lane, summarized, k)
      ensures got.GotTask? ==> IsChoice(old(View()), account, now, lane, summarized, got.key)
      ensures got.GotTask? ==> View() == ClaimQueue(old(View()), got.key, token, runId, now)
      ensures got.GotTask? ==> got.key in tasks && tasks[got.key] == got.task && got.task.token == token
      ensures got.GotTask? ==> got.task.attempts == old(tasks)[got.key].attempts + 1
      ensures got.GotTask? ==> forall r :: Due(got.task, Unix(r)) <==> Unix(r) >= Unix(now + 180_000)
    {
      var best := Select(account, now, lane, summarized);
      if best.None? { return NoTask; }
      var key := best.value;
      var t := tasks[key];
      t := t.(status := Running, attempts := t.attempts + 1);
      t := t.(token := token, leaseUntil := Unix(now + LEASE_MS));
      tasks := tasks[key := t];
      StartRun(key, token, runId, t.attempts, now);
      return GotTask(key, t);
    }

    method CompleteTask(key: TaskKey, token: Id, skipped: bool) returns (ok: bool)
      modifies this`tasks, this`journal
      ensures View() == CompleteQueue(old(View()), key, token, skipped).0
      ensures ok == CompleteQueue(old(View()), key, token, skipped).1
    {
      ok := key in tasks && tasks[key].token == token && tasks[key].status.Running?;
      if !ok { return; }
      var t := tasks[key].(status := if skipped then Skipped else Ready);
      tasks := tasks[key := t.(token := "", leaseUntil := 0, nextAttempt := 0, error := "")];
      journal := FinishRows(journal, token, if skipped then SkippedRun else Succeeded);
    }

    method FailTask(key: TaskKey, token: Id, attempts: int, hash: nat, cause: Cause, now: int, later: int)
      returns (ok: bool)
      modifies this`tasks, this`journal
      ensures View() == FailQueue(old(View()), key, token, Judge(key.kind, attempts, hash, cause, now, later)).0
      ensures ok == FailQueue(old(View()), key, token, Judge(key.kind, attempts, hash, cause, now, later)).1
    {
      var v := JudgeFailure(key.kind, attempts, hash, cause, now, later);
      ok := key in tasks && tasks[key].token == token && tasks[key].status.Running?;
      if !ok { return; }
      var t := tasks[key].(status := v.status, attempts := v.attempts);
      tasks := tasks[key := t.(token := "", leaseUntil := 0, nextAttempt := v.next, error := v.error)];
      journal := FinishRows(journal, token, v.run);
    }

    method SaveTaskPayload(key: TaskKey, token: Id, payload: Text) returns (ok: bool)
      modifies this`tasks
      ensures View() == SavePayloadQueue(old(View()), key, token, payload).0
      ensures ok == SavePayloadQueue(old(View()), key, token, payload).1
    {
      ok := key in tasks && tasks[key].token == token && tasks[key].status.Running?;
      if ok {
        tasks := tasks[key := tasks[key].(payload := payload)];
      }
    }

    method RecordPhase(token: Id, phase: Text) returns (ok: bool)
      modifies this`journal
      ensures View() == PhaseQueue(old(View()), token, phase).0 && ok == PhaseQueue(old(View()), token, phase).1
    {
      ok := exists id :: id in journal && journal[id].token == token && journal[id].status.InProgress?;
      if ok {
        journal := map id | id in journal ::
          if journal[id].token == token && journal[id].status.InProgress? then journal[id].(phase := phase)
            else journal[id];
      }
    }

    method RetryTask(key: TaskKey, now: int) returns (ok: bool)
      modifies this`tasks
      ensures View() == RetryQueue(old(View()), key, now).0 && ok == RetryQueue(old(View()), key, now).1
    {
      ok := key in tasks && tasks[key].status.Failed?;
      if ok {
        tasks := tasks[key := tasks[key].(status := Pending, attempts := 0, nextAttempt := Unix(now), error := "")];
      }
    }

    method EnqueueTasks(account: Id, folder: Text, uid: int, now: int, webhook: bool)
      modifies this`tasks
      ensures View() == EnqueueQueue(old(View()), account, folder, uid, now, webhook)
    {
      var existing := MessageTasks(account, folder, uid) * tasks.Keys;
      if existing != {} { return; }
      tasks := tasks[TaskKey(account, folder, uid, Analysis) := NewTask(now)];
      if webhook {
        tasks := tasks[TaskKey(account, folder, uid, Notification) := NewTask(now)];
      }
      tasks := tasks[TaskKey(account, folder, uid, Reply) := NewTask(now)];
      assert tasks == EnqueueQueue(old(View()), account, folder, uid, now, webhook).tasks;
    }

    method DropMessage(account: Id, folder: Text, uid: int)
      modifies this`tasks, this`journal
      ensures View() == DropQueue(old(View()), account, folder, uid)
    {
      var gone := MessageTasks(account, folder, uid);
      tasks := tasks - gone;
      journal := map id | id in journal && journal[id].key !in gone :: journal[id];
    }

    /** A store call that is not a claim is one step of the queue. */
    method PerformOther(act: Act) returns (ghost step: Step)
      requires !act.ClaimAct?
      modifies this
      ensures NewIds(step) == {} && View() == Apply(old(View()), step)
      ensures forall q, used :: Enabled(q, used, step)
    {
      match act
      case CompleteAct(key, token, skipped) =>
        var ok := CompleteTask(key, token, skipped);
        step := Complete(key, token, skipped);
      case FailAct(key, token, attempts, hash, cause, now, later) =>
        var ok := FailTask(key, token, attempts, hash, cause, now, later);
        step := Fail(key, token, Judge(key.kind, attempts, hash, cause, now, later));
      case PayloadAct(key, token, payload) =>
        var ok := SaveTaskPayload(key, token, payload);
        step := SavePayload(key, token, payload);
      case PhaseAct(token, phase) =>
        var ok := RecordPhase(token, phase);
        step := TaskModel.RecordPhase(token, phase);
      case RetryAct(key, now) =>
        var ok := RetryTask(key, now);
        step := Retry(key, now);
      case EnqueueAct(account, folder, uid, now, webhook) =>
        EnqueueTasks(account, folder, uid, now, webhook);
        step := Enqueue(account, folder, uid, now, webhook);
      case DropAct(account, folder, uid) =>
        DropMessage(account, folder, uid);
        step := Drop(account, folder, uid);
    }

    /** A store call of somebody else, as the steps it is. */
    method Perform(act: Act, ghost used: set<Id>) returns (ghost steps: seq<Step>)
      requires act.ClaimAct? ==> FreshIds(used, act.token, act.runId)
      modifies this
      ensures ValidRun(old(View()), used, steps) && View() == RunSteps(old(View()), steps)
      ensures IdsOf(steps) <= ActIds(act)
    {
      if act.ClaimAct? {
        var got;
        got, steps := ClaimSteps(act.account, act.now, act.lane, act.summarized, act.token, act.runId, used);
      } else {
        ghost var step := PerformOther(act);
        OneStep(old(View()), used, step);
        steps := [step];
      }
    }

    method PerformAll(acts: seq<Act>, ghost used: set<Id>) returns (ghost steps: seq<Step>)
      requires FreshActs(used, acts)
      modifies this
      ensures ValidRun(old(View()), used, steps) && View() == RunSteps(old(View()), steps)
      ensures IdsOf(steps) <= AllIds(acts)
    {
      steps := [];
      ghost var ids: set<Id> := {};
      var i := 0;
      assert acts[0..] == acts && used + ids == used;
      while i < |acts|
        invariant 0 <= i <= |acts| && FreshActs(used + ids, acts[i..]) && ids + AllIds(acts[i..]) <= AllIds(acts)
        invariant ValidRun(old(View()), used, steps) && View() == RunSteps(old(View()), steps) && IdsOf(steps) <= ids
      {
        NextAct(used, ids, acts, i);
        ghost var more := Perform(acts[i], used + ids);
        Continue(old(View()), used, steps, ids, more, ActIds(acts[i]));
        steps, ids := steps + more, ids + ActIds(acts[i]);
        i := i + 1;
      }
    }

    /** A claim as the step it is, if it found a task. */
    method ClaimSteps(account: Id, now: int, lane: Lane, summarized: set<TaskKey>, token: Id, runId: Id,
                      ghost used: set<Id>)
      returns (got: Claimed, ghost steps: seq<Step>)
      requires FreshIds(used, token, runId)
      modifies this
      ensures ValidRun(old(View()), used, steps) && View() == RunSteps(old(View()), steps)
      ensures IdsOf(steps) <= {token, runId}
      ensures |steps| == (if got.GotTask? then 1 else 0)
    {
      got := ClaimInLane(account, now, lane, summarized, token, runId);
      steps := [];
      if got.GotTask? {
        steps := [Claim(got.key, lane, summarized, token, runId, now)];
        OneStep(old(View()), used, steps[0]);
      }
    }

    /** The failure or completion a round ends with, and whether the lease was still there to end. */
    method EndRound(key: TaskKey, attempts: int, r: Round, ghost used: set<Id>)
      returns (ok: bool, executed: bool, ghost steps: seq<Step>)
      modifies this
      ensures ValidRun(old(View()), used, steps) && View() == RunSteps(old(View()), steps) && IdsOf(steps) == {}
      ensures |steps| == 1
      ensures executed <==> attempts <= MaxAttempts(key.kind)
      ensures ok <==> Owns(old(View()), key, r.token)
    {
      var failure := r.failure;
      executed := attempts <= MaxAttempts(key.kind);
      if !executed { failure := Some(ATTEMPT_LIMIT); }
      ghost var finish: Step;
      if failure.Some? {
        ok := FailTask(key, r.token, attempts, r.hash, failure.value, r.now, r.later);
        finish := Fail(key, r.token, Judge(key.kind, attempts, r.hash, failure.value, r.now, r.later));
      } else {
        ok := CompleteTask(key, r.token, r.skipped);
        finish := Complete(key, r.token, r.skipped);
      }
      OneStep(old(View()), used, finish);
      steps := [finish];
    }

    /**
     One pass of the runner's loop: a claim, whatever others do meanwhile, then the failure or
     completion it comes to.
     */
    method ProcessRound(account: Id, lane: Lane, r: Round, ghost used: set<Id>)
      returns (goOn: bool, executed: seq<(TaskKey, int)>, ghost steps: seq<Step>)
      requires FreshRound(used, r)
      modifies this
      ensures ValidRun(old(View()), used, steps) && View() == RunSteps(old(View()), steps)
      ensures IdsOf(steps) <= RoundIds(r)
      ensures |executed| <= 1 && forall e :: e in executed ==> e.1 <= MaxAttempts(e.0.kind)
    {
      executed := [];
      var got;
      got, steps := ClaimSteps(account, r.now, lane, r.summarized, r.token, r.runId, used);
      goOn := got.GotTask?;
      if !goOn { return; }
      ghost var first := {r.token, r.runId};
      ghost var between := PerformAll(r.others, used + first);
      Continue(old(View()), used, steps, first, between, AllIds(r.others));
      steps := steps + between;
      ghost var end;
      var done;
      goOn, done, end := EndRound(got.key, got.task.attempts, r, used + RoundIds(r));
      Continue(old(View()), used, steps, RoundIds(r), end, {});
      steps := steps + end;
      if done { executed := [(got.key, got.task.attempts)]; }
    }

    /**
     mailTaskRunner.process: claim, refuse to execute beyond the attempt limit, otherwise
     execute, then fail or complete; it stops without a task, and when its lease was lost.
     Together with everything that others do meanwhile it is a valid run of the queue, and no
     execution starts above the limit.
     */
    method Process(account: Id, lane: Lane, rounds: seq<Round>, ghost issued: set<Id>)
      returns (executed: seq<(TaskKey, int)>, ghost steps: seq<Step>)
      requires FreshRounds(issued, rounds)
      modifies this
      ensures ValidRun(old(View()), issued, steps) && View() == RunSteps(old(View()), steps)
      ensures forall e :: e in executed ==> e.1 <= MaxAttempts(e.0.kind)
      ensures |executed| <= |rounds|
    {
      executed, steps := [], [];
      ghost var ids: set<Id> := {};
      var i := 0;
      assert rounds[0..] == rounds && issued + ids == issued;
      while i < |rounds|
        invariant 0 <= i <= |rounds| && FreshRounds(issued + ids, rounds[i..]) && IdsOf(steps) <= ids
        invariant ValidRun(old(View()), issued, steps) && View() == RunSteps(old(View()), steps)
        invariant |executed| <= i && forall e :: e in executed ==> e.1 <= MaxAttempts(e.0.kind)
      {
        assert rounds[i..][0] == rounds[i] && rounds[i..][1..] == rounds[i + 1..];
        var goOn, done;
        ghost var more;
        goOn, done, more := ProcessRound(account, lane, rounds[i], issued + ids);
        Continue(old(View()), issued, steps, ids, more, RoundIds(rounds[i]));
        assert issued + ids + RoundIds(rounds[i]) == issued + (ids + RoundIds(rounds[i]));
        steps, ids := steps + more, ids + RoundIds(rounds[i]);
        executed := executed + done;
        i := i + 1;
        if !goOn { return; }
      }
    }
  }
}
