/**
 Workers around the queue: the notification protocol that freezes its text before
 it sends, and the retry budget. The state adds, beside the queue, what each worker
 remembers from its claim and a history of executions, interruptions and sends.
 */
module TaskWorkers {
  import opened Wrappers
  import opened TaskModel
  import opened RetryPolicy
  import TaskCaps
  import TaskJournal

  /** A worker remembers the task row its claim returned; text is that row's payload, or the one it froze. */
  datatype Worker = Worker(key: TaskKey, attempts: int, text: Text)

  datatype Account = Account(executed: nat, interrupted: nat)

  datatype System = System(
    queue: Queue, issued: set<Id>,
    workers: map<Id, Worker>,            // by token
    spent: map<TaskKey, Account>,        // since enqueue or the last explicit retry
    sent: map<TaskKey, seq<Text>>)       // notification texts handed to the webhook

  datatype Step =
    | Enqueue(account: Id, folder: Text, uid: int, now: int, webhook: bool)
    | Claim(key: TaskKey, lane: Lane, summarized: set<TaskKey>, token: Id, runId: Id, now: int)
    | Freeze(token: Id, text: Text)
    | Send(token: Id)
    | Complete(token: Id, skipped: bool)
    | Fail(token: Id, hash: nat, cause: Cause, now: int, later: int)
    | Retry(key: TaskKey, now: int)
    | Drop(account: Id, folder: Text, uid: int)

  /** The queue step a worker step performs. */
  function QueueStep(y: System, step: Step): Option<TaskModel.Step>
    requires step.Freeze? || step.Send? || step.Complete? || step.Fail? ==> step.token in y.workers
  {
    match step
    case Enqueue(a, f, u, now, w) => Some(TaskModel.Enqueue(a, f, u, now, w))
    case Claim(k, lane, s, token, runId, now) => Some(TaskModel.Claim(k, lane, s, token, runId, now))
    case Freeze(token, text) => Some(TaskModel.SavePayload(y.workers[token].key, token, text))
    case Send(_) => None
    case Complete(token, skipped) => Some(TaskModel.Complete(y.workers[token].key, token, skipped))
    case Fail(token, hash, c, now, later) =>
      var w := y.workers[token];
      Some(TaskModel.Fail(w.key, token, Judge(w.key.kind, w.attempts, hash, c, now, later)))
    case Retry(k, now) => Some(TaskModel.Retry(k, now))
    case Drop(a, f, u) => Some(TaskModel.Drop(a, f, u))
  }

  /** mailTaskRunner.process: over the limit there is no execution, only a permanent failure. */
  predicate OverLimit(w: Worker) { w.attempts > MaxAttempts(w.key.kind) }

  /** What a worker may do next: only its own key, a nonempty text it has not got yet, a text it has. */
  predicate Enabled(y: System, step: Step) {
    && (step.Freeze? || step.Send? || step.Complete? || step.Fail? ==> step.token in y.workers)
    && match step
       case Freeze(token, text) =>
         var w := y.workers[token]; w.key.kind.Notification? && !OverLimit(w) && w.text == "" && text != ""
       case Send(token) =>
         var w := y.workers[token]; w.key.kind.Notification? && !OverLimit(w) && w.text != ""
       case Complete(token, _) => !OverLimit(y.workers[token])
       case Fail(token, _, c, _, _) => OverLimit(y.workers[token]) ==> c == ATTEMPT_LIMIT
       case Claim(k, lane, s, token, runId, now) => TaskModel.Enabled(y.queue, y.issued,
         TaskModel.Claim(k, lane, s, token, runId, now))
       case _ => true
  }

  function Spent(y: System, k: TaskKey): Account {
    SpentOn(y.spent, k)
  }

  function Sent(y: System, k: TaskKey): seq<Text> {
    if k in y.sent then y.sent[k] else []
  }

  function Apply(y: System, step: Step): System
    requires Enabled(y, step)
  {
    var qs := QueueStep(y, step);
    var z := if qs.Some? then TaskModel.Apply(y.queue, qs.value) else y.queue;
    match step
    case Claim(k, _, _, token, runId, _) =>
      var t := y.queue.tasks[k];
      var w := Worker(k, t.attempts + 1, t.payload);
      var a := Spent(y, k);
      y.(queue := z, issued := y.issued + {token, runId}, workers := y.workers[token := w],
         spent := y.spent[k := if OverLimit(w) then a else a.(executed := a.executed + 1)])
    case Freeze(token, text) =>
      if Owns(y.queue, y.workers[token].key, token)
      then y.(queue := z, workers := y.workers[token := y.workers[token].(text := text)])
      else y.(workers := y.workers - {token})      // the lease was lost: this worker sends nothing
    case Send(token) =>
      var k := y.workers[token].key;
      y.(sent := y.sent[k := Sent(y, k) + [y.workers[token].text]])
    case Complete(token, _) => y.(queue := z, workers := y.workers - {token})
    case Fail(token, _, c, _, _) =>
      var w := y.workers[token];
      var a := Spent(y, w.key);
      y.(queue := z, workers := y.workers - {token},
         spent := if Owns(y.queue, w.key, token) && Classify(w.key.kind, w.attempts, c).interrupted
                  then y.spent[w.key := a.(interrupted := a.interrupted + 1)] else y.spent)
    case Retry(k, now) =>
      y.(queue := z, spent := if RetryQueue(y.queue, k, now).1 then y.spent - {k} else y.spent)
    case Drop(a, f, u) =>
      var gone := MessageTasks(a, f, u);
      y.(queue := z, spent := y.spent - gone, sent := y.sent - gone,
         workers := WithoutKeys(y.workers, gone))
    case _ => y.(queue := z)
  }

  function RunSteps(y: System, steps: seq<Step>): System
    requires ValidRun(y, steps)
    decreases |steps|
  {
    if steps == [] then y else RunSteps(Apply(y, steps[0]), steps[1..])
  }

  predicate ValidRun(y: System, steps: seq<Step>)
    decreases |steps|
  {
    steps == [] || (Enabled(y, steps[0]) && ValidRun(Apply(y, steps[0]), steps[1..]))
  }

  // ---------------------------------------------------------------- invariants

  type Tasks = map<TaskKey, Task>

  predicate Runs(tasks: Tasks, k: TaskKey, token: Id) {
    k in tasks && tasks[k].token == token && tasks[k].status.Running?
  }

  /** Texts that workers hold equal the stored payload. */
  ghost predicate HeldOk(tasks: Tasks, workers: map<Id, Worker>) {
    forall w :: w in workers && workers[w].text != "" && workers[w].key in tasks ==>
      tasks[workers[w].key].payload == workers[w].text
  }

  /** Texts that were sent equal the stored payload. */
  ghost predicate SentOk(tasks: Tasks, sent: map<TaskKey, seq<Text>>) {
    forall k, i :: k in sent && 0 <= i < |sent[k]| && k in tasks ==> sent[k][i] != "" && sent[k][i] == tasks[k].payload
  }

  /** The worker that owns the task knows its payload and its attempt number. */
  ghost predicate OwnersKnow(tasks: Tasks, workers: map<Id, Worker>) {
    forall w :: w in workers && Runs(tasks, workers[w].key, w) ==>
      workers[w].text == tasks[workers[w].key].payload && workers[w].attempts == tasks[workers[w].key].attempts
  }

  /** Workers, sends and budgets belong to tasks in the table, and workers use issued tokens. */
  ghost predicate WorkersTracked(tasks: Tasks, workers: map<Id, Worker>, issued: set<Id>) {
    forall w :: w in workers ==> w in issued && w != "" && workers[w].key in tasks
  }

  ghost predicate Tracked(y: System) {
    && WorkersTracked(y.queue.tasks, y.workers, y.issued)
    && y.sent.Keys <= y.queue.tasks.Keys && y.spent.Keys <= y.queue.tasks.Keys
  }

  function MinInt(a: int, b: int): int { if a < b then a else b }

  function SpentOn(spent: map<TaskKey, Account>, k: TaskKey): Account {
    if k in spent then spent[k] else Account(0, 0)
  }

  /** Executions minus interruptions follow the attempt counter up to the limit. */
  ghost predicate BudgetOk(tasks: Tasks, spent: map<TaskKey, Account>) {
    forall k :: k in tasks ==>
      && tasks[k].attempts >= 0
      && (tasks[k].status.Running? ==> tasks[k].attempts >= 1)
      && SpentOn(spent, k).executed - SpentOn(spent, k).interrupted == MinInt(tasks[k].attempts, MaxAttempts(k.kind))
  }

  ghost predicate TextsOk(y: System) {
    HeldOk(y.queue.tasks, y.workers) && SentOk(y.queue.tasks, y.sent) && OwnersKnow(y.queue.tasks, y.workers)
  }

  ghost predicate WorkersOk(y: System) {
    TextsOk(y) && Tracked(y) && BudgetOk(y.queue.tasks, y.spent)
  }

  /** The invariant read off the components of a state. */
  lemma Assemble(y: System, tasks: Tasks, workers: map<Id, Worker>, sent: map<TaskKey, seq<Text>>,
                 spent: map<TaskKey, Account>, issued: set<Id>)
    requires y.queue.tasks == tasks && y.workers == workers && y.sent == sent && y.spent == spent && y.issued == issued
    requires HeldOk(tasks, workers) && SentOk(tasks, sent) && OwnersKnow(tasks, workers) && BudgetOk(tasks, spent)
    requires WorkersTracked(tasks, workers, issued) && sent.Keys <= tasks.Keys && spent.Keys <= tasks.Keys
    ensures WorkersOk(y)
  {}

  lemma EnqueueTasks(q: Queue, a: Id, f: Text, u: int, now: int, webhook: bool)
    ensures var z := EnqueueQueue(q, a, f, u, now, webhook).tasks;
      && (forall k :: k in q.tasks ==> k in z && z[k] == q.tasks[k])
      && (forall k :: k in z && k !in q.tasks ==> z[k] == NewTask(now))
  {
    var z := EnqueueQueue(q, a, f, u, now, webhook).tasks;
    forall k | k in q.tasks ensures k in z && z[k] == q.tasks[k] {
      if MessageTasks(a, f, u) * q.tasks.Keys == {} {
        assert k !in MessageTasks(a, f, u) * q.tasks.Keys;
      }
    }
  }

  lemma MoreTasks(y: System, tasks: Tasks, now: int)
    requires WorkersOk(y)
    requires forall k :: k in y.queue.tasks ==> k in tasks && tasks[k] == y.queue.tasks[k]
    requires forall k :: k in tasks && k !in y.queue.tasks ==> tasks[k] == NewTask(now)
    ensures HeldOk(tasks, y.workers) && SentOk(tasks, y.sent) && OwnersKnow(tasks, y.workers)
    ensures BudgetOk(tasks, y.spent)
  {}

  lemma EnqueueKeeps(y: System, step: Step)
    requires WorkersOk(y) && step.Enqueue?
    ensures WorkersOk(Apply(y, step))
  {
    EnqueueTasks(y.queue, step.account, step.folder, step.uid, step.now, step.webhook);
    MoreTasks(y, EnqueueQueue(y.queue, step.account, step.folder, step.uid, step.now, step.webhook).tasks, step.now);
  }

  /** A claim: the new worker takes a snapshot, and the old one stops owning the task. */
  lemma ClaimTexts(tasks: Tasks, workers: map<Id, Worker>, sent: map<TaskKey, seq<Text>>, k: TaskKey, t: Task,
                   token: Id)
    requires HeldOk(tasks, workers) && SentOk(tasks, sent) && OwnersKnow(tasks, workers)
    requires k in tasks && t.payload == tasks[k].payload && t.token == token && token !in workers
    ensures var w := workers[token := Worker(k, t.attempts, t.payload)];
      HeldOk(tasks[k := t], w) && SentOk(tasks[k := t], sent) && OwnersKnow(tasks[k := t], w)
  {}

  lemma ClaimBudget(tasks: Tasks, spent: map<TaskKey, Account>, k: TaskKey, t: Task)
    requires BudgetOk(tasks, spent) && k in tasks && t.attempts == tasks[k].attempts + 1
    ensures var a := SpentOn(spent, k);
      BudgetOk(tasks[k := t],
        spent[k := if t.attempts > MaxAttempts(k.kind) then a else a.(executed := a.executed + 1)])
  {}

  lemma ClaimTracked(tasks: Tasks, workers: map<Id, Worker>, issued: set<Id>, k: TaskKey, t: Task, w: Worker,
                     token: Id, runId: Id)
    requires WorkersTracked(tasks, workers, issued) && k in tasks && w.key == k && token != ""
    ensures WorkersTracked(tasks[k := t], workers[token := w], issued + {token, runId})
  {}

  lemma ClaimEffect(y: System, step: Step)
    requires step.Claim? && Enabled(y, step)
    ensures var t := ClaimTask(y.queue.tasks[step.key], step.token, step.now);
      var a := SpentOn(y.spent, step.key);
      var z := Apply(y, step);
      && z.queue.tasks == y.queue.tasks[step.key := t]
      && z.workers == y.workers[step.token := Worker(step.key, t.attempts, t.payload)]
      && z.spent == y.spent[step.key := if t.attempts > MaxAttempts(step.key.kind) then a
           else a.(executed := a.executed + 1)]
      && z.sent == y.sent && z.issued == y.issued + {step.token, step.runId}
  {}

  lemma ClaimKeeps(y: System, step: Step)
    requires WorkersOk(y) && step.Claim? && Enabled(y, step)
    ensures WorkersOk(Apply(y, step))
  {
    var t := ClaimTask(y.queue.tasks[step.key], step.token, step.now);
    ClaimEffect(y, step);
    ClaimTexts(y.queue.tasks, y.workers, y.sent, step.key, t, step.token);
    ClaimBudget(y.queue.tasks, y.spent, step.key, t);
    ClaimTracked(y.queue.tasks, y.workers, y.issued, step.key, t, Worker(step.key, t.attempts, t.payload), step.token,
      step.runId);
  }

  /** The owner freezes its text: nobody else had one, and nothing was sent before. */
  lemma FreezeTexts(tasks: Tasks, workers: map<Id, Worker>, sent: map<TaskKey, seq<Text>>, token: Id, text: Text)
    requires HeldOk(tasks, workers) && SentOk(tasks, sent) && OwnersKnow(tasks, workers)
    requires token in workers && Runs(tasks, workers[token].key, token) && workers[token].text == "" && text != ""
    ensures var k := workers[token].key;
      var z := tasks[k := tasks[k].(payload := text)];
      var w := workers[token := workers[token].(text := text)];
      HeldOk(z, w) && SentOk(z, sent) && OwnersKnow(z, w)
  {
    assert tasks[workers[token].key].payload == "";
  }

  lemma BudgetUnchanged(tasks: Tasks, spent: map<TaskKey, Account>, k: TaskKey, t: Task)
    requires BudgetOk(tasks, spent) && k in tasks && t.attempts == tasks[k].attempts
    requires (t.status.Running? ==> tasks[k].status.Running?)
    ensures BudgetOk(tasks[k := t], spent)
  {}

  lemma WorkerGone(tasks: Tasks, workers: map<Id, Worker>, token: Id)
    requires HeldOk(tasks, workers) && OwnersKnow(tasks, workers)
    ensures HeldOk(tasks, workers - {token}) && OwnersKnow(tasks, workers - {token})
  {}

  lemma FreezeEffect(y: System, step: Step)
    requires step.Freeze? && Enabled(y, step)
    ensures var w := y.workers[step.token];
      var z := Apply(y, step);
      && z.sent == y.sent && z.spent == y.spent && z.issued == y.issued
      && if Owns(y.queue, w.key, step.token) then
           && z.queue.tasks == y.queue.tasks[w.key := y.queue.tasks[w.key].(payload := step.text)]
           && z.workers == y.workers[step.token := w.(text := step.text)]
         else z.queue == y.queue && z.workers == y.workers - {step.token}
  {}

  lemma FreezeTracked(tasks: Tasks, workers: map<Id, Worker>, issued: set<Id>, token: Id, w: Worker, t: Task)
    requires WorkersTracked(tasks, workers, issued) && token in workers && w.key == workers[token].key && w.key in tasks
    ensures WorkersTracked(tasks[w.key := t], workers[token := w], issued)
    ensures WorkersTracked(tasks, workers - {token}, issued)
  {}

  lemma FreezeKeeps(y: System, step: Step)
    requires WorkersOk(y) && step.Freeze? && Enabled(y, step)
    ensures WorkersOk(Apply(y, step))
  {
    var w := y.workers[step.token];
    var tasks, z := y.queue.tasks, Apply(y, step);
    FreezeEffect(y, step);
    FreezeTracked(tasks, y.workers, y.issued, step.token, w.(text := step.text), tasks[w.key].(payload := step.text));
    if Owns(y.queue, w.key, step.token) {
      FreezeTexts(tasks, y.workers, y.sent, step.token, step.text);
      BudgetUnchanged(tasks, y.spent, w.key, tasks[w.key].(payload := step.text));
    } else {
      WorkerGone(tasks, y.workers, step.token);
    }
    Assemble(z, z.queue.tasks, z.workers, z.sent, z.spent, z.issued);
  }

  lemma SendKeeps(y: System, step: Step)
    requires WorkersOk(y) && step.Send? && Enabled(y, step)
    ensures WorkersOk(Apply(y, step))
  {
    var k := y.workers[step.token].key;
    SendTexts(y.queue.tasks, y.sent, k, Sent(y, k), y.workers[step.token].text);
  }

  lemma SendTexts(tasks: Tasks, sent: map<TaskKey, seq<Text>>, k: TaskKey, before: seq<Text>, text: Text)
    requires SentOk(tasks, sent) && k in tasks && text != "" && tasks[k].payload == text
    requires before == if k in sent then sent[k] else []
    ensures SentOk(tasks, sent[k := before + [text]])
  {}

  /** A finished task: no longer running, same payload, and the worker is gone. */
  lemma StopTexts(tasks: Tasks, workers: map<Id, Worker>, sent: map<TaskKey, seq<Text>>, k: TaskKey, t: Task, token: Id)
    requires HeldOk(tasks, workers) && SentOk(tasks, sent) && OwnersKnow(tasks, workers)
    requires k in tasks && t.payload == tasks[k].payload && !t.status.Running?
    ensures HeldOk(tasks[k := t], workers - {token}) && SentOk(tasks[k := t], sent)
    ensures OwnersKnow(tasks[k := t], workers - {token})
  {}

  lemma CompleteKeeps(y: System, step: Step)
    requires WorkersOk(y) && step.Complete? && Enabled(y, step)
    ensures WorkersOk(Apply(y, step))
  {
    var k := y.workers[step.token].key;
    if Owns(y.queue, k, step.token) {
      var t := CompleteQueue(y.queue, k, step.token, step.skipped).0.tasks[k];
      StopTexts(y.queue.tasks, y.workers, y.sent, k, t, step.token);
      BudgetUnchanged(y.queue.tasks, y.spent, k, t);
    } else {
      WorkerGone(y.queue.tasks, y.workers, step.token);
    }
  }

  /** A recorded failure: only an interruption gives the attempt back, and only an execution can be interrupted. */
  lemma FailBudget(tasks: Tasks, spent: map<TaskKey, Account>, k: TaskKey, t: Task, interrupted: bool)
    requires BudgetOk(tasks, spent) && k in tasks && tasks[k].status.Running? && !t.status.Running?
    requires t.attempts == if interrupted then tasks[k].attempts - 1 else tasks[k].attempts
    requires interrupted ==> tasks[k].attempts <= MaxAttempts(k.kind)
    ensures var a := SpentOn(spent, k);
      BudgetOk(tasks[k := t], if interrupted then spent[k := a.(interrupted := a.interrupted + 1)] else spent)
  {}

  /** The row a recorded failure writes. */
  lemma FailedTask(q: Queue, k: TaskKey, token: Id, attempts: int, hash: nat, c: Cause, now: int, later: int)
    requires Owns(q, k, token)
    ensures var v := Judge(k.kind, attempts, hash, c, now, later);
      var t := FailQueue(q, k, token, v).0.tasks[k];
      var gave := Classify(k.kind, attempts, c).interrupted;
      && FailQueue(q, k, token, v).0.tasks == q.tasks[k := t]
      && t.payload == q.tasks[k].payload && !t.status.Running?
      && t.attempts == if gave then Max(0, attempts - 1) else attempts
  {}

  lemma FailEffect(y: System, step: Step)
    requires step.Fail? && Enabled(y, step) && Owns(y.queue, y.workers[step.token].key, step.token)
    ensures var w := y.workers[step.token];
      var v := Judge(w.key.kind, w.attempts, step.hash, step.cause, step.now, step.later);
      var gave := Classify(w.key.kind, w.attempts, step.cause).interrupted;
      var a := SpentOn(y.spent, w.key);
      var z := Apply(y, step);
      && z.queue == FailQueue(y.queue, w.key, step.token, v).0 && z.workers == y.workers - {step.token}
      && z.spent == (if gave then y.spent[w.key := a.(interrupted := a.interrupted + 1)] else y.spent)
      && z.sent == y.sent && z.issued == y.issued
      && (gave ==> w.attempts <= MaxAttempts(w.key.kind))
  {}

  /** A failure of a worker that lost its task only ends that worker. */
  lemma LateFailEffect(y: System, step: Step)
    requires step.Fail? && Enabled(y, step) && !Owns(y.queue, y.workers[step.token].key, step.token)
    ensures Apply(y, step) == y.(workers := y.workers - {step.token})
  {}

  lemma TrackedWithout(tasks: Tasks, workers: map<Id, Worker>, issued: set<Id>, token: Id, k: TaskKey, t: Task)
    requires WorkersTracked(tasks, workers, issued) && k in tasks
    ensures WorkersTracked(tasks, workers - {token}, issued) && WorkersTracked(tasks[k := t], workers - {token}, issued)
  {}

  lemma OwnedFailKeeps(y: System, step: Step)
    requires WorkersOk(y) && step.Fail? && Enabled(y, step) && Owns(y.queue, y.workers[step.token].key, step.token)
    ensures WorkersOk(Apply(y, step))
  {
    var w := y.workers[step.token];
    var k := w.key;
    var z := Apply(y, step);
    assert Runs(y.queue.tasks, k, step.token);
    FailEffect(y, step);
    FailedTask(y.queue, k, step.token, w.attempts, step.hash, step.cause, step.now, step.later);
    var t := z.queue.tasks[k];
    TrackedWithout(y.queue.tasks, y.workers, y.issued, step.token, k, t);
    StopTexts(y.queue.tasks, y.workers, y.sent, k, t, step.token);
    FailBudget(y.queue.tasks, y.spent, k, t, Classify(k.kind, w.attempts, step.cause).interrupted);
    Assemble(z, y.queue.tasks[k := t], y.workers - {step.token}, y.sent, z.spent, y.issued);
  }

  lemma FailKeeps(y: System, step: Step)
    requires WorkersOk(y) && step.Fail? && Enabled(y, step)
    ensures WorkersOk(Apply(y, step))
  {
    var k := y.workers[step.token].key;
    if Owns(y.queue, k, step.token) {
      OwnedFailKeeps(y, step);
    } else {
      LateFailEffect(y, step);
      TrackedWithout(y.queue.tasks, y.workers, y.issued, step.token, k, y.queue.tasks[k]);
      WorkerGone(y.queue.tasks, y.workers, step.token);
    }
  }

  lemma RetryTexts(tasks: Tasks, workers: map<Id, Worker>, sent: map<TaskKey, seq<Text>>, spent: map<TaskKey, Account>,
                   k: TaskKey, t: Task)
    requires HeldOk(tasks, workers) && SentOk(tasks, sent) && OwnersKnow(tasks, workers) && BudgetOk(tasks, spent)
    requires k in tasks && t.payload == tasks[k].payload && t.status.Pending? && t.attempts == 0
    ensures HeldOk(tasks[k := t], workers) && SentOk(tasks[k := t], sent) && OwnersKnow(tasks[k := t], workers)
    ensures BudgetOk(tasks[k := t], spent - {k})
  {}

  lemma RetryKeeps(y: System, step: Step)
    requires WorkersOk(y) && step.Retry?
    ensures WorkersOk(Apply(y, step))
  {
    if RetryQueue(y.queue, step.key, step.now).1 {
      RetryTexts(y.queue.tasks, y.workers, y.sent, y.spent, step.key,
        RetryQueue(y.queue, step.key, step.now).0.tasks[step.key]);
    }
  }

  function WithoutKeys(workers: map<Id, Worker>, gone: set<TaskKey>): map<Id, Worker> {
    map t | t in workers && workers[t].key !in gone :: workers[t]
  }

  lemma DropTexts(tasks: Tasks, workers: map<Id, Worker>, sent: map<TaskKey, seq<Text>>, gone: set<TaskKey>)
    requires HeldOk(tasks, workers) && SentOk(tasks, sent) && OwnersKnow(tasks, workers)
    ensures var w := WithoutKeys(workers, gone);
      HeldOk(tasks - gone, w) && SentOk(tasks - gone, sent - gone) && OwnersKnow(tasks - gone, w)
  {}

  lemma DropBudget(tasks: Tasks, spent: map<TaskKey, Account>, gone: set<TaskKey>)
    requires BudgetOk(tasks, spent)
    ensures BudgetOk(tasks - gone, spent - gone)
  {
    forall k | k in tasks - gone ensures SpentOn(spent - gone, k) == SpentOn(spent, k) {}
  }

  lemma DropTracked(tasks: Tasks, workers: map<Id, Worker>, issued: set<Id>, gone: set<TaskKey>)
    requires WorkersTracked(tasks, workers, issued)
    ensures WorkersTracked(tasks - gone, WithoutKeys(workers, gone), issued)
  {}

  lemma DropEffect(y: System, step: Step)
    requires step.Drop? && Enabled(y, step)
    ensures var gone := MessageTasks(step.account, step.folder, step.uid);
      var z := Apply(y, step);
      && z.queue.tasks == y.queue.tasks - gone && z.workers == WithoutKeys(y.workers, gone)
      && z.sent == y.sent - gone && z.spent == y.spent - gone && z.issued == y.issued
  {}

  lemma DropKeeps(y: System, step: Step)
    requires WorkersOk(y) && step.Drop?
    ensures WorkersOk(Apply(y, step))
  {
    var gone := MessageTasks(step.account, step.folder, step.uid);
    DropEffect(y, step);
    DropTexts(y.queue.tasks, y.workers, y.sent, gone);
    DropBudget(y.queue.tasks, y.spent, gone);
    DropTracked(y.queue.tasks, y.workers, y.issued, gone);
  }

  lemma StepKeeps(y: System, step: Step)
    requires WorkersOk(y) && Enabled(y, step)
    ensures WorkersOk(Apply(y, step))
  {
    match step
    case Enqueue(_, _, _, _, _) => EnqueueKeeps(y, step);
    case Claim(_, _, _, _, _, _) => ClaimKeeps(y, step);
    case Freeze(_, _) => FreezeKeeps(y, step);
    case Send(_) => SendKeeps(y, step);
    case Complete(_, _) => CompleteKeeps(y, step);
    case Fail(_, _, _, _, _) => FailKeeps(y, step);
    case Retry(_, _) => RetryKeeps(y, step);
    case Drop(_, _, _) => DropKeeps(y, step);
  }

  lemma {:induction false} RunKeeps(y: System, steps: seq<Step>)
    requires WorkersOk(y) && ValidRun(y, steps)
    ensures WorkersOk(RunSteps(y, steps))
    decreases |steps|
  {
    if steps != [] {
      StepKeeps(y, steps[0]);
      RunKeeps(Apply(y, steps[0]), steps[1..]);
    }
  }

  const START := System(EMPTY, {}, map[], map[], map[])

  /**
   Over every interleaving of workers, lease takeovers, retries and crashes: all
   notifications sent for a task carry one nonempty text, the stored payload.
   */
  lemma NotificationsCarryOneText(steps: seq<Step>, k: TaskKey, i: nat)
    requires ValidRun(START, steps) && k in RunSteps(START, steps).sent && i < |RunSteps(START, steps).sent[k]|
    ensures var z := RunSteps(START, steps);
      k in z.queue.tasks && z.sent[k][i] == z.queue.tasks[k].payload && z.sent[k][i] != ""
  {
    RunKeeps(START, steps);
  }

  predicate Drops(step: Step, k: TaskKey) {
    step.Drop? && k in MessageTasks(step.account, step.folder, step.uid)
  }

  lemma StepKeepsPayload(y: System, step: Step, k: TaskKey)
    requires OwnersKnow(y.queue.tasks, y.workers) && Enabled(y, step) && !Drops(step, k)
    requires k in y.queue.tasks && y.queue.tasks[k].payload != ""
    ensures k in Apply(y, step).queue.tasks && Apply(y, step).queue.tasks[k].payload == y.queue.tasks[k].payload
  {
    if step.Enqueue? { EnqueueTasks(y.queue, step.account, step.folder, step.uid, step.now, step.webhook); }
  }

  /** A payload changes at most once, from empty to nonempty, as long as its message exists. */
  lemma {:induction false} PayloadIsFrozen(y: System, steps: seq<Step>, k: TaskKey)
    requires WorkersOk(y) && ValidRun(y, steps) && forall step :: step in steps ==> !Drops(step, k)
    requires k in y.queue.tasks && y.queue.tasks[k].payload != ""
    ensures k in RunSteps(y, steps).queue.tasks && RunSteps(y, steps).queue.tasks[k].payload == y.queue.tasks[k].payload
    decreases |steps|
  {
    if steps != [] {
      assert steps[0] in steps;
      StepKeeps(y, steps[0]);
      StepKeepsPayload(y, steps[0], k);
      PayloadIsFrozen(Apply(y, steps[0]), steps[1..], k);
    }
  }

  /** Executions that were not interrupted never exceed the limit of the task's type between resets. */
  lemma RetryBudget(steps: seq<Step>, k: TaskKey)
    requires ValidRun(START, steps) && k in RunSteps(START, steps).queue.tasks
    ensures var a := Spent(RunSteps(START, steps), k);
      && a.interrupted <= a.executed
      && a.executed - a.interrupted <= MaxAttempts(k.kind)
      && a.executed - a.interrupted == MinInt(RunSteps(START, steps).queue.tasks[k].attempts, MaxAttempts(k.kind))
  {
    RunKeeps(START, steps);
  }

  /** Freezing before sending pays off: whoever claims the task later works with the frozen text. */
  lemma LaterWorkersGetTheFrozenText(y: System, freeze: Step, steps: seq<Step>, claim: Step)
    requires WorkersOk(y) && freeze.Freeze? && Enabled(y, freeze)
    requires Owns(y.queue, y.workers[freeze.token].key, freeze.token)
    requires claim.Claim? && claim.key == y.workers[freeze.token].key && ValidRun(Apply(y, freeze), steps)
    requires forall step :: step in steps ==> !Drops(step, claim.key)
    requires Enabled(RunSteps(Apply(y, freeze), steps), claim)
    ensures Apply(RunSteps(Apply(y, freeze), steps), claim).workers[claim.token].text == freeze.text
  {
    StepKeeps(y, freeze);
    PayloadIsFrozen(Apply(y, freeze), steps, claim.key);
  }

  // ---------------------------------------------------------------- projection

  /** The queue steps of a run of workers. */
  function QueueSteps(y: System, steps: seq<Step>): seq<TaskModel.Step>
    requires ValidRun(y, steps)
    decreases |steps|
  {
    if steps == [] then []
    else
      var qs := QueueStep(y, steps[0]);
      (if qs.Some? then [qs.value] else []) + QueueSteps(Apply(y, steps[0]), steps[1..])
  }

  /** One worker step is at most one step of the queue. */
  lemma StepProjects(y: System, step: Step)
    requires Enabled(y, step)
    ensures var qs := QueueStep(y, step);
      if qs.Some? then
        && TaskModel.Enabled(y.queue, y.issued, qs.value) && Apply(y, step).queue == TaskModel.Apply(y.queue, qs.value)
        && Apply(y, step).issued == y.issued + TaskModel.NewIds(qs.value)
      else Apply(y, step).queue == y.queue && Apply(y, step).issued == y.issued
  {}

  /** A run of workers is a run of the queue. */
  lemma {:induction false} RunProjects(y: System, steps: seq<Step>)
    requires ValidRun(y, steps)
    ensures TaskModel.ValidRun(y.queue, y.issued, QueueSteps(y, steps))
    ensures TaskModel.RunSteps(y.queue, QueueSteps(y, steps)) == RunSteps(y, steps).queue
    decreases |steps|
  {
    if steps != [] {
      StepProjects(y, steps[0]);
      RunProjects(Apply(y, steps[0]), steps[1..]);
      var qs := QueueStep(y, steps[0]);
      var rest := QueueSteps(Apply(y, steps[0]), steps[1..]);
      assert qs.Some? ==> ([qs.value] + rest)[1..] == rest;
      assert qs.None? ==> [] + rest == rest;
    }
  }

  predicate ReadBy(step: Step, t: int) {
    step.Claim? ==> Unix(step.now) <= t
  }

  lemma {:induction false} ReadingsProject(y: System, steps: seq<Step>, t: int)
    requires ValidRun(y, steps) && forall step :: step in steps ==> ReadBy(step, t)
    ensures forall qs :: qs in QueueSteps(y, steps) ==> TaskCaps.ReadBy(qs, t)
    decreases |steps|
  {
    if steps != [] {
      assert steps[0] in steps && forall s :: s in steps[1..] ==> s in steps;
      ReadingsProject(Apply(y, steps[0]), steps[1..], t);
    }
  }

  /** Queue and journal agree in every run of workers. */
  lemma JournalAgreesForWorkers(steps: seq<Step>, k: TaskKey)
    requires ValidRun(START, steps) && k in RunSteps(START, steps).queue.tasks
    ensures var q := RunSteps(START, steps).queue;
      var live := TaskJournal.LiveRows(q.journal, k);
      && (q.tasks[k].status.Running? <==> |live| == 1) && (!q.tasks[k].status.Running? <==> live == {})
      && (forall id :: id in live ==> q.journal[id].token == q.tasks[k].token)
      && |TaskJournal.RowsOf(q.journal, k)| <= 50
  {
    RunProjects(START, steps);
    TaskJournal.QueueAndJournalAgree(QueueSteps(START, steps), k);
  }

  /** The concurrency caps hold in every run of workers. */
  lemma CapsHoldForWorkers(steps: seq<Step>, t: int)
    requires ValidRun(START, steps) && forall step :: step in steps ==> ReadBy(step, t)
    ensures TaskCaps.CapsOk(RunSteps(START, steps).queue, t)
  {
    RunProjects(START, steps);
    ReadingsProject(START, steps, t);
    TaskCaps.CapsHold(QueueSteps(START, steps), t);
  }
}
