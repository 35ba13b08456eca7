/**
 The durable mail task queue and its attempt journal, as values. Each store method
 is one transaction, so an interleaving of workers, users and crashes is a sequence
 of these functions. Clock readings are milliseconds; the tables keep seconds.
 */
module TaskModel {
  import opened Strings

  type Id = string
  type Text = string

  const LEASE_MS := 180_000
  const NOTIFICATION_WAIT_MS := 30_000
  const MAX_CONCURRENT_AI := 4
  const KEPT_ROWS := 49

  datatype Kind = Analysis | Notification | Reply
  datatype TaskKey = TaskKey(account: Id, folder: Text, uid: int, kind: Kind)
  datatype TaskStatus = Pending | Running | Ready | Skipped | Failed
  datatype Task = Task(status: TaskStatus, attempts: int, token: Id, leaseUntil: int, nextAttempt: int,
                       payload: Text, error: Text, created: int)

  datatype RunStatus = InProgress | Expired | Succeeded | SkippedRun | FailedRun | Interrupted
  datatype JournalRow = JournalRow(row: nat, token: Id, key: TaskKey, attempt: int, status: RunStatus, phase: Text,
    started: int)

  /** mail_tasks, mail_task_runs by id, and the next row number of the journal. */
  datatype Queue = Queue(tasks: map<TaskKey, Task>, journal: map<Id, JournalRow>, nextRow: nat)

  datatype Lane = AllLanes | AiLane | NotificationLane

  function Unix(ms: int): int { ms / 1000 }

  predicate IsAI(kind: Kind) { kind.Analysis? || kind.Reply? }

  predicate LiveTask(t: Task, now: int) { t.status.Running? && t.leaseUntil > now }

  predicate InLane(lane: Lane, kind: Kind) {
    match lane
    case AllLanes => true
    case AiLane => IsAI(kind)
    case NotificationLane => kind.Notification?
  }

  /** Unexpired AI leases over all accounts. */
  function LiveAI(q: Queue, now: int): set<TaskKey> {
    set k | k in q.tasks && IsAI(k.kind) && LiveTask(q.tasks[k], now)
  }

  /** Unexpired leases of one account that a claim in this lane must wait for. */
  function LaneActive(q: Queue, account: Id, lane: Lane, now: int): set<TaskKey> {
    set k | k in q.tasks && k.account == account && InLane(lane, k.kind) && LiveTask(q.tasks[k], now)
  }

  predicate Due(t: Task, now: int) {
    (t.status.Pending? && t.nextAttempt <= now) || (t.status.Running? && t.leaseUntil <= now)
  }

  /** A notification waits up to 30 seconds for the first analysis of its message, unless it was frozen before. */
  predicate Released(q: Queue, k: TaskKey, now: int, summarized: set<TaskKey>)
    requires k in q.tasks
  {
    var analysis := TaskKey(k.account, k.folder, k.uid, Analysis);
    || q.tasks[k].payload != ""
    || q.tasks[k].created <= Unix(now - NOTIFICATION_WAIT_MS)
    || k in summarized
    || !(analysis in q.tasks &&
         (q.tasks[analysis].status.Running? || (q.tasks[analysis].status.Pending? && q.tasks[analysis].attempts == 0)))
  }

  predicate Eligible(q: Queue, account: Id, now: int, lane: Lane, summarized: set<TaskKey>, k: TaskKey) {
    && k in q.tasks && k.account == account && Due(q.tasks[k], Unix(now)) && InLane(lane, k.kind)
    && LaneActive(q, account, lane, Unix(now)) == {}
    && (k.kind.Notification? || |LiveAI(q, Unix(now))| < MAX_CONCURRENT_AI)
    && (lane.NotificationLane? ==> Released(q, k, now, summarized))
  }

  // -------------------------------------------------------------- queue order

  datatype Rank = Rank(first: int, second: int, folder: Text, last: int)

  function KindRank(kind: Kind): int {
    match kind case Analysis => 0 case Notification => 1 case Reply => 2
  }

  /** The ORDER BY columns of a lane. */
  function RankOf(lane: Lane, k: TaskKey, t: Task): Rank {
    match lane
    case AllLanes => Rank(k.uid, KindRank(k.kind), k.folder, 0)
    case AiLane => Rank(if k.kind.Analysis? then 0 else 1, t.created, k.folder, k.uid)
    case NotificationLane => Rank(t.created, 0, k.folder, k.uid)
  }

  predicate RankLess(a: Rank, b: Rank) {
    || a.first < b.first
    || (a.first == b.first &&
        (|| a.second < b.second
         || (a.second == b.second && (TextLess(a.folder, b.folder) || (a.folder == b.folder && a.last < b.last)))))
  }

  /** The task a claim takes: eligible, and ahead of every other eligible task. */
  predicate IsChoice(q: Queue, account: Id, now: int, lane: Lane, summarized: set<TaskKey>, k: TaskKey) {
    && Eligible(q, account, now, lane, summarized, k)
    && forall e :: e in q.tasks && e != k && Eligible(q, account, now, lane, summarized, e) ==>
         RankLess(RankOf(lane, k, q.tasks[k]), RankOf(lane, e, q.tasks[e]))
  }

  // -------------------------------------------------------------------- claim

  function ClaimTask(t: Task, token: Id, now: int): Task {
    t.(status := Running, attempts := t.attempts + 1, token := token, leaseUntil := Unix(now + LEASE_MS))
  }

  function ExpireRows(journal: map<Id, JournalRow>, key: TaskKey): map<Id, JournalRow> {
    map id | id in journal ::
      if journal[id].key == key && journal[id].status.InProgress? then journal[id].(status := Expired) else journal[id]
  }

  predicate Newer(a: JournalRow, b: JournalRow) {
    a.started > b.started || (a.started == b.started && a.row > b.row)
  }

  /** The other rows of the task that come before this one in ORDER BY started_at DESC, rowid DESC. */
  function NewerRows(journal: map<Id, JournalRow>, key: TaskKey, current: Id, id: Id): set<Id>
    requires id in journal
  {
    set other | other in journal && other != current && journal[other].key == key && Newer(journal[other], journal[id])
  }

  /** Rows of the task outside the current one and the 49 newest others are deleted. */
  function PruneRows(journal: map<Id, JournalRow>, key: TaskKey, current: Id): map<Id, JournalRow> {
    map id | id in journal
      && (journal[id].key != key || id == current || |NewerRows(journal, key, current, id)| < KEPT_ROWS) :: journal[id]
  }

  function StartRun(q: Queue, key: TaskKey, token: Id, runId: Id, attempt: int, now: int): Queue {
    var expired := ExpireRows(q.journal, key);
    var inserted := expired[runId := JournalRow(q.nextRow, token, key, attempt, InProgress, "configuration", now)];
    q.(journal := PruneRows(inserted, key, runId), nextRow := q.nextRow + 1)
  }

  function ClaimQueue(q: Queue, key: TaskKey, token: Id, runId: Id, now: int): Queue
    requires key in q.tasks
  {
    var task := ClaimTask(q.tasks[key], token, now);
    StartRun(q.(tasks := q.tasks[key := task]), key, token, runId, task.attempts, now)
  }

  // ------------------------------------------------------------------- finish

  /** The guard of every worker write: the task still runs under this worker's token. */
  predicate Owns(q: Queue, key: TaskKey, token: Id) {
    key in q.tasks && q.tasks[key].token == token && q.tasks[key].status.Running?
  }

  function FinishRows(journal: map<Id, JournalRow>, token: Id, status: RunStatus): map<Id, JournalRow> {
    map id | id in journal ::
      if journal[id].token == token && journal[id].status.InProgress? then journal[id].(status := status)
        else journal[id]
  }

  function CompleteQueue(q: Queue, key: TaskKey, token: Id, skipped: bool): (Queue, bool) {
    if !Owns(q, key, token) then (q, false)
    else
      var done := q.tasks[key].(status := if skipped then Skipped else Ready, token := "", leaseUntil := 0,
        nextAttempt := 0, error := "");
      (q.(tasks := q.tasks[key := done],
        journal := FinishRows(q.journal, token, if skipped then SkippedRun else Succeeded)), true)
  }

  /** What failMailTask writes, once the failure is classified. */
  datatype Verdict = Verdict(status: TaskStatus, attempts: int, next: int, error: Text, run: RunStatus)

  function FailQueue(q: Queue, key: TaskKey, token: Id, v: Verdict): (Queue, bool) {
    if !Owns(q, key, token) then (q, false)
    else
      var t := q.tasks[key].(status := v.status, attempts := v.attempts, token := "", leaseUntil := 0,
        nextAttempt := v.next, error := v.error);
      (q.(tasks := q.tasks[key := t], journal := FinishRows(q.journal, token, v.run)), true)
  }

  function SavePayloadQueue(q: Queue, key: TaskKey, token: Id, payload: Text): (Queue, bool) {
    if !Owns(q, key, token) then (q, false)
    else (q.(tasks := q.tasks[key := q.tasks[key].(payload := payload)]), true)
  }

  /** Phase and context records touch the running row of a token, and fail when there is none. */
  function PhaseQueue(q: Queue, token: Id, phase: Text): (Queue, bool) {
    if exists id :: id in q.journal && q.journal[id].token == token && q.journal[id].status.InProgress? then
      (q.(journal := map id | id in q.journal ::
        if q.journal[id].token == token && q.journal[id].status.InProgress? then q.journal[id].(phase := phase)
          else q.journal[id]), true)
    else (q, false)
  }

  function RetryQueue(q: Queue, key: TaskKey, now: int): (Queue, bool) {
    if key in q.tasks && q.tasks[key].status.Failed?
    then (q.(tasks :=
      q.tasks[key := q.tasks[key].(status := Pending, attempts := 0, nextAttempt := Unix(now), error := "")]), true)
    else (q, false)
  }

  function NewTask(now: int): Task {
    Task(Pending, 0, "", 0, Unix(now), "", "", Unix(now))
  }

  function MessageTasks(account: Id, folder: Text, uid: int): set<TaskKey> {
    {TaskKey(account, folder, uid, Analysis), TaskKey(account, folder, uid, Notification),
      TaskKey(account, folder, uid, Reply)}
  }

  /** Nothing when the message already has a task; a notification only with an enabled webhook. */
  function EnqueueQueue(q: Queue, account: Id, folder: Text, uid: int, now: int, webhook: bool): Queue {
    if MessageTasks(account, folder, uid) * q.tasks.Keys != {} then q
    else q.(tasks := q.tasks +
      map k | k in MessageTasks(account, folder, uid) && (k.kind.Notification? ==> webhook) :: NewTask(now))
  }

  /** Deleting a message deletes its tasks and their journal rows. */
  function DropQueue(q: Queue, account: Id, folder: Text, uid: int): Queue {
    var gone := MessageTasks(account, folder, uid);
    q.(tasks := q.tasks - gone, journal := map id | id in q.journal && q.journal[id].key !in gone :: q.journal[id])
  }

  // -------------------------------------------------------------------- steps

  datatype Step =
    | Enqueue(account: Id, folder: Text, uid: int, now: int, webhook: bool)
    | Claim(key: TaskKey, lane: Lane, summarized: set<TaskKey>, token: Id, runId: Id, now: int)
    | Complete(key: TaskKey, token: Id, skipped: bool)
    | Fail(key: TaskKey, token: Id, verdict: Verdict)
    | SavePayload(key: TaskKey, token: Id, payload: Text)
    | RecordPhase(token: Id, phase: Text)
    | Retry(key: TaskKey, now: int)
    | Drop(account: Id, folder: Text, uid: int)

  function Apply(q: Queue, step: Step): Queue {
    match step
    case Enqueue(a, f, u, now, w) => EnqueueQueue(q, a, f, u, now, w)
    case Claim(k, _, _, token, runId, now) => if k in q.tasks then ClaimQueue(q, k, token, runId, now) else q
    case Complete(k, token, skipped) => CompleteQueue(q, k, token, skipped).0
    case Fail(k, token, v) => FailQueue(q, k, token, v).0
    case SavePayload(k, token, p) => SavePayloadQueue(q, k, token, p).0
    case RecordPhase(token, phase) => PhaseQueue(q, token, phase).0
    case Retry(k, now) => RetryQueue(q, k, now).0
    case Drop(a, f, u) => DropQueue(q, a, f, u)
  }

  /** A claim takes the chosen task, with ids no earlier claim used. */
  predicate Enabled(q: Queue, issued: set<Id>, step: Step) {
    match step
    case Claim(k, lane, summarized, token, runId, now) =>
      IsChoice(q, k.account, now, lane, summarized, k) && token !in issued && runId !in issued && token != runId
        && token != ""
    case Fail(_, _, v) => !v.status.Running? && !v.run.InProgress?
    case _ => true
  }

  function NewIds(step: Step): set<Id> {
    if step.Claim? then {step.token, step.runId} else {}
  }

  function RunSteps(q: Queue, steps: seq<Step>): Queue
    decreases |steps|
  {
    if steps == [] then q else RunSteps(Apply(q, steps[0]), steps[1..])
  }

  predicate ValidRun(q: Queue, issued: set<Id>, steps: seq<Step>)
    decreases |steps|
  {
    steps == [] || (Enabled(q, issued, steps[0]) && ValidRun(Apply(q, steps[0]), issued + NewIds(steps[0]), steps[1..]))
  }

  const EMPTY := Queue(map[], map[], 0)
}
