# Protocols of the mail store

A Dafny model of the store behind a mail client: the SQLite tables of AI chat
sessions and generated documents, the durable queue of mail tasks, the local mirror
of an IMAP mailbox, the outbox, the skill registry, and the algorithms these rely on.
Every write transaction of the store begins with the write lock
(mailstore/store.go:191-195), so each store method is one atomic step, and an
interleaving of workers, users and crashes is a sequence of method calls.

Each protocol comes in two parts. A specification module gives the tables as
values, every operation as a function from one state to the next, and the theorems
over all runs; runs are sequences of steps, with history variables where a property
speaks about the past. A store module holds a class whose methods change the tables
step by step, as the source does, and are proved equal to those functions. Work
inside a transaction happens on a local copy that the commit makes visible.

| protocol | specification | store and loops |
|---|---|---|
| chat turns and linked documents | ChatModel, ChatTranscript, ChatRuns, ChatVersion, ChatLease, ChatAnswers, ChatDocuments, ChatLinks | ChatStore |
| mail task queue, journal, workers | TaskModel, TaskJournal, TaskCaps, TaskWorkers, TaskOutcomes, TaskLeases, RetryPolicy, Runs | TaskStore, RetryPolicy |
| seen flags and the sync worker | FlagModel, FlagRuns, FlagChoices | FlagStore |
| messages and attachment index | MessageIndex, MessageRecords | MessageStore |
| skill dependency graph and registry | SkillGraph, SkillRegistry, SkillEdits | SkillGraph, SkillRegistry |
| outbox | OutboxModel, OutboxResults | OutboxStore |
| keyset pagination | Keyset | Keyset, Pagination |
| category forest | CategoryModel, CategoryEdits | CategoryStore |
| evidence coverage, section splitting | Coverage, Sections | Coverage, Sections, ProductReader |

Clock readings, new ids and tokens, hashes, the set of available attachments, the
outcome of a server call and the recognition of inline attachments are parameters.
New ids are required to be unused. Clock readings may come in any order unless a
lemma says otherwise; where a fact depends on time it is stated at every time no
earlier than the readings used so far.

Where the code does not do what its comments or names suggest, the exact condition
is proved, with an example:

- The session version covers the stored transcript, the snapshot, the current card and
  its document, but not the rendered transcript: saving an older card adds its
  `savedDocumentId` at an unchanged version (ChatVersion.LinkWithoutVersion).
- A Retry-After is cut to 24 hours, and the wait to whole seconds from below, so a claim may
  come up to a second before it is over (TaskOutcomes.ClaimsHonourRetryAfter).
- The WHERE guard of the message upsert does not look at the thread headers nor at the
  attachment marker, so a full fetch that changes only these is not stored, although the
  comment above calls it authoritative (MessageIndex.GuardIsHarmless, StaleRowExample).
- The authentication, unsubscribe, invitation and brand columns are meant to survive a list
  fetch, but an absent value is written as the text null, which is not empty, so the fetch
  overwrites all four (MessageIndex.ExtrasFollowTheRecord, HeadersForgetExtras).
- The SQL rule for mirrored outgoing mail and OutgoingMirrorMessageID differ on very
  short ids and on ids that already look prefixed (OutboxModel.MirrorRules).
- sourceFullyRead says no to a completely read text when some range starts behind a gap
  beyond the end (Coverage.WhenSweepAndSetDiffer).

## Model

| member | source | states |
|---|---|---|
| ChatModel.NextPosition | mailstore/ai_chat_sessions.go:398 | The new position is above every stored one and directly follows the greatest; it is 0 for an empty transcript. |
| ChatTranscript.NextIsCount | mailstore/ai_chat_sessions.go:398 | On a contiguous transcript the next position is the number of messages. |
| ChatTranscript.AppendKeepsContiguous | mailstore/ai_chat_sessions.go:398 | Inserting at the next position keeps positions 0..n-1 without gap or repeat. |
| ChatTranscript.ClearedKeeps | mailstore/ai_chat_sessions.go:663-671 | Clearing leaves an intact (empty) transcript and no run. |
| ChatRuns.StepChanges | mailstore/ai_chat_sessions.go:425-713 | Every operation changes a session in one of four ways only: quietly, by a question, by an answer, or by clearing. |
| ChatRuns.HoldersKept | mailstore/ai_chat_sessions.go:475-512 | A turn handed out by Begin keeps knowing its own run: token, question and version agree as long as the token is stored. |
| ChatRuns.StepKeeps | mailstore/ai_chat_sessions.go:425-713 | Every operation, for any clock readings, keeps the transcript invariant of every session, the issued ids and the turns. |
| ChatRuns.TranscriptsOverRuns | mailstore/ai_chat_sessions.go:425-713 | The invariants hold over every run of chat and library operations. |
| ChatRuns.TranscriptIntegrity | mailstore/ai_chat_sessions.go:378-678 | From an empty store, after any interleaving and any clock readings: positions are 0..n-1, a completed answer stands exactly one after its own question, and every message is the question or the answer of exactly one request. |
| ChatVersion.BeginValidates | mailstore/ai_chat_sessions.go:425-525 | Begin never lowers the version, and an unchanged version means unchanged messages, snapshot, card and links. |
| ChatVersion.FinishValidates | mailstore/ai_chat_sessions.go:545-597 | The same for Finish, successful or refused. |
| ChatVersion.SaveValidates | mailstore/documents.go:144-226 | A library save that changes what a session sees of its linked document raises that session's version. |
| ChatVersion.DeletionValidates | mailstore/documents.go:229-271 | So does a deletion. |
| ChatVersion.StepValidates | mailstore/ai_chat_document_links.go:87-103 | One step of any kind: equal versions mean an equal reader's view. |
| ChatVersion.VersionIsFaithful | mailstore/ai_chat_document_links.go:87-103 | Over every run, two states of a session with the same version have the same messages, snapshot, current card and linked document (content and revision, or missing); versions never fall. |
| ChatVersion.FinishProvesUnchanged | mailstore/ai_chat_sessions.go:545-597 | If the Finish of a turn commits, the reader's view, with the linked document, is the one its Begin left, whatever ran in between. |
| ChatVersion.LinkWithoutVersion | mailstore/documents.go:214-221 | Exactly when a save changes the rendered transcript (the savedDocumentId of a card) at an unchanged version: it links a card that is not the current one and not already linked, and the document is not the current card's. |
| ChatVersion.OtherStepsKeepRendering | mailstore/ai_chat_sessions.go:265-278 | No other operation changes the rendered transcript without changing the version. |
| ChatVersion.OldCardExample | mailstore/documents.go:214-221 | A concrete save of an older card that shows the gap. |
| ChatLease.LeasesOverRuns | mailstore/ai_chat_sessions.go:468-474 | At every time no earlier than the readings used so far, and for any order of those readings, at most one run of a session is live and it was asked at the session's version. |
| ChatLease.LiveTurnIsAtHead | mailstore/ai_chat_sessions.go:545-566 | A turn that passes the token and lease test finds the session at its own version. |
| ChatLease.FinishSucceedsExactlyWithLease | mailstore/ai_chat_sessions.go:545-597 | So an accepted Finish succeeds exactly when its run holds the lease: the version test never fails on its own. |
| ChatLease.CompleteIsAbsorbing | mailstore/ai_chat_sessions.go:545-602 | A completed run keeps status and response over every run that does not clear or delete the session. |
| ChatLease.ReplayIsStable | mailstore/ai_chat_sessions.go:680-696 | Until then every later Begin and Replay of the request with its hash returns the stored response and changes nothing; another hash is refused. |
| ChatLease.NewerBeginFences | mailstore/ai_chat_sessions.go:475-512 | A newer Begin of the same request overtakes the earlier turn. |
| ChatLease.CancelFences | mailstore/ai_chat_sessions.go:605-620 | So does a cancel, once and for all. |
| ChatLease.SavingLinkedDocumentFences | mailstore/ai_chat_document_links.go:87-103 | So does saving the document the session's current card is linked to. |
| ChatLease.FencedForever | mailstore/ai_chat_sessions.go:545-602 | An overtaken turn stays overtaken over every run, and its Finish, Fail and memory writes have no effect. |
| ChatAnswers.HowBeginAnswers | mailstore/ai_chat_sessions.go:444-474 | A completed request is answered with its response; a turn starts exactly for a request that may start over, or a new one at the session's version, if nobody else runs; everything else is refused. |
| ChatAnswers.StrangersAreRefused | mailstore/ai_chat_sessions.go:425-443 | Who is not the owner of the session's account reads and changes nothing. |
| ChatAnswers.QuestionIsStored | mailstore/ai_chat_sessions.go:475-525 | A turn that starts stores its question at the end of the transcript, with draft, request input and a lease of eleven minutes; a repeated request keeps its question; a refusal changes nothing. |
| ChatAnswers.AnswerIsStored | mailstore/ai_chat_sessions.go:545-597 | A Finish that succeeds stores the given answer under the id it reports, reports the session's new version and the given text, and makes a card of the answer the current one; nothing else changes. |
| ChatAnswers.NextQuestionCarriesTheVersion | mailstore/ai_chat_sessions.go:545-597 | After it a new question starts exactly at the version that was reported. |
| ChatAnswers.MessagesAreImmutable | mailstore/ai_chat_sessions.go:378-678 | No run that keeps the session changes, moves or removes a message. |
| ChatAnswers.AnswerStays | mailstore/ai_chat_sessions.go:680-696 | Over every run that keeps the session: the transcript holds the answer, and a repeated request is told the same id, version and text again. |
| ChatAnswers.EditIsCompareAndSwap | mailstore/ai_chat_sessions.go:622-678 | Business data, clearing and deleting are accepted exactly at the current version while nobody runs, and what each leaves. |
| ChatAnswers.StaleVersionIsRefused | mailstore/ai_chat_sessions.go:622-678 | Over every run: once a session is past a version, or gone, edits, clearing, deletion and new questions at that version are refused and change nothing. |
| ChatAnswers.EditIsNotLost | mailstore/ai_chat_sessions.go:622-678 | So of all edits of one version one is accepted at most. |
| ChatAnswers.CancelEndsTheRequest | mailstore/ai_chat_sessions.go:605-620 | A cancel ends a request that is not complete and drops its input; it changes nothing else. |
| ChatAnswers.CreatedSession | mailstore/ai_chat_sessions.go:92-130 | A new session is empty, at version zero, and belongs to an account of its owner. |
| ChatStore.Store.MaxPosition | mailstore/ai_chat_sessions.go:398 | The loop over the session's rows finds the next position. |
| ChatStore.Store.CountLive | mailstore/ai_chat_sessions.go:468-474 | Counting live pending runs decides whether the session is busy. |
| ChatStore.Store.CheckBegin | mailstore/ai_chat_sessions.go:444-474 | The order of the tests before a turn starts decides between retry, new turn, replay and conflict. |
| ChatStore.Store.BeginTurn | mailstore/ai_chat_sessions.go:425-525 | The transaction changes the tables as the specification says, or not at all. |
| ChatStore.Store.FinishTurn | mailstore/ai_chat_sessions.go:545-597 | Completing the run, inserting the given answer and raising the version happen together or are rolled back; the response carries the stored id and the new version. |
| ChatLease.FailFences | mailstore/ai_chat_sessions.go:599-602 | A failed turn is overtaken: nothing it writes afterwards has an effect. |
| ChatLease.FailedTurnCanBeRetried | mailstore/ai_chat_sessions.go:451-482 | While its lease runs a Begin of the request is refused; after the failure it starts again, with the same question at the same version. |
| ChatStore.Store.CancelRequest | mailstore/ai_chat_sessions.go:605-620 | A run that is not complete fails and loses its retry input; only the owner can do it. |
| ChatStore.Store.UpdateBusiness | mailstore/ai_chat_sessions.go:622-633 | A compare-and-swap on the version, refused while a run is live. |
| ChatStore.Store.DeleteSession | mailstore/ai_chat_sessions.go:636-678 | The same test, then the session's rows or the session itself go. |
| ChatLease.MemoryIsSavedExactlyWithLease | mailstore/ai_chat_sessions.go:700-713 | Over every run: a memory write takes effect exactly when the turn still holds its lease (the version test adds nothing), and then only the memory changes. |
| ChatStore.Store.InvalidateReaders | mailstore/ai_chat_document_links.go:87-103 | Exactly the sessions whose current card is linked to a given document are fenced and raised by one. |
| ChatStore.Store.SaveDocumentRow | mailstore/documents.go:144-226 | Origin test, revision compare-and-swap, link and invalidation in one transaction; an accepted save stores the given content one revision after the expected one. |
| ChatDocuments.SaveIsCompareAndSwap | mailstore/documents.go:182-213 | An accepted save writes one document of its owner under the next revision: over the expected revision, or, if zero was expected, only where there was none; a refused one changes nothing. |
| ChatDocuments.SaveIsAccepted | mailstore/documents.go:144-213 | Exactly when a save is accepted, with the conditions on the message it comes from. |
| ChatDocuments.SaveReachesReaders | mailstore/documents.go:214-226 | What it does to every session: at most one link, and the readers of the document fail their runs and move on one version. |
| ChatDocuments.RevisionsGrow | mailstore/documents.go:144-226 | Over every run that does not delete it: a document keeps its owner, its revision never falls, and one revision is one content. |
| ChatDocuments.SavedOverIsRefused | mailstore/documents.go:144-226 | No save is lost: after an accepted save every save or deletion based on the revision it replaced is refused, whatever runs in between short of deleting the document. |
| ChatDocuments.DeletionIsExact | mailstore/documents.go:229-271 | A deletion takes exactly the owner's documents of its list. |
| ChatDocuments.DeletionReachesReaders | mailstore/documents.go:229-271 | And exactly the readers of the listed ids follow. |
| ChatDocuments.RevisionDeletionIsExact | mailstore/documents.go:574-594 | A single revision is deleted only while it is current. |
| ChatLinks.LinksNameTheirCards | mailstore/documents.go:144-226 | Over every run: a link belongs to an answer with a JSON card that is still there, and names the document saved under the message's own id. |
| ChatStore.Store.DeleteDocumentRows | mailstore/documents.go:229-271 | Deletes the owner's documents and invalidates the readers of every named id. |
| ChatStore.Store.DeleteDocumentRevision | mailstore/documents.go:574-594 | Deletes only the named revision, else a conflict. |
| TaskStore.ChoiceIsUnique | mailstore/mail_tasks.go:91-127 | The order columns of a lane single out one eligible task. |
| TaskStore.LanesTakeTheOldest | mailstore/mail_tasks.go:96-107 | The AI lane takes analyses before replies and the oldest within a kind, the notification lane the oldest, and without a lane the lowest message number goes first; how ties go; an unexpired lease is never taken. |
| TaskStore.Store.Select | mailstore/mail_tasks.go:91-127 | The selected task is eligible and first in the lane's order; none is selected only if none is eligible. |
| TaskStore.Store.ClaimInLane | mailstore/mail_tasks.go:91-143 | A claim takes that task under a new token, with three minutes of lease and its journal row, or changes nothing. |
| TaskLeases.ClaimGrantsLease | mailstore/mail_tasks.go:91-143 | A claim changes its own task only; the task is due again exactly 180 seconds later. |
| TaskLeases.LeaseExcludes | mailstore/mail_tasks.go:91-143 | Over every run until the worker ends the task, the message goes or the lease is over: nobody claims the task, nor, at a reading within the lease, anything of the account in a lane of its kind; all its worker's writes succeed; and it is due exactly from the end of the lease. |
| TaskLeases.WhoIsEligible | mailstore/mail_tasks.go:109-126 | Exactly which task a claim may take: due, served by the lane, no unexpired lease of the account in the lane, fewer than four AI leases. |
| TaskLeases.WhatHoldsBack | mailstore/mail_tasks.go:111-115 | Exactly when a due notification has to wait for the first analysis of its message. |
| TaskLeases.AnalysisComesFirst | mailstore/mail_tasks.go:111-115 | Over every run from the arrival of a message until the first attempt of its analysis ends, the notification lane takes its notification only with a summary or after 30 seconds. |
| TaskOutcomes.ClaimHasOneLiveRow | mailstore/mail_task_runs.go:99-116 | A claim leaves its task one live row, its own, and at most 50 rows; the rows of other tasks stay as they were. |
| TaskOutcomes.CompletionIsFinal | mailstore/mail_tasks.go:158-176 | An accepted completion is final: over the rest of every run the task keeps its result and payload, is never claimed again, and the token can write nothing more. |
| TaskOutcomes.DoneIsFinal | mailstore/mail_tasks.go:91-291 | No operation reaches a finished task while its message exists. |
| TaskOutcomes.CompletionIsRecorded | mailstore/mail_tasks.go:158-176 | What a completion writes: the task done, without lease or error, its text kept, and its own journal row. |
| TaskStore.Store.FailTask | mailstore/mail_tasks.go:197-222 | So is failure, with the outcome the failure policy gives. |
| TaskOutcomes.FailureIsRecorded | mailstore/mail_tasks.go:197-222 | A failure leaves the task waiting exactly when its cause is tried again, with the cause's message; an interruption gives the attempt back and is due at once; only its own journal row changes. |
| TaskWorkers.LaterWorkersGetTheFrozenText | mailstore/mail_tasks.go:224-237 | Over every run: whoever claims the task after its text was frozen works with exactly that text. |
| TaskOutcomes.PhaseNeedsTheTask | mailstore/mail_task_runs.go:66-73 | Over every run: a phase is recorded exactly while some task is owned under the token, and only in that task's rows; tasks are not touched. |
| TaskOutcomes.RetryRestarts | mailstore/mail_tasks.go:278-291 | Takes effect exactly on a failed task: due at once, full budget, payload, journal and other tasks untouched; otherwise nothing changes. |
| TaskOutcomes.RetriedTaskIsClaimable | mailstore/mail_tasks.go:278-291 | A retried notification with a frozen text is eligible at once when no other notification of the account is live. |
| TaskStore.Store.EnqueueTasks | mailstore/mail_tasks.go:52-65 | A message that has a task gets no more; a notification only with an enabled webhook. |
| TaskLeases.EnqueuedWork | mailstore/mail_tasks.go:52-65 | New tasks are due at once with a full budget; other tasks and the journal stay. |
| TaskStore.Store.Process | mailstore/mail_task_runner.go:78-119 | The runner's loop, together with whatever other workers and users do between a claim and its outcome, is one valid run of queue steps, and never executes above the attempt limit. |
| TaskJournal.PruneBounds | mailstore/mail_task_runs.go:112-115 | Pruning leaves at most 50 rows of the task. |
| TaskJournal.PruneKeepsNewest | mailstore/mail_task_runs.go:112-115 | Whatever a prune keeps is newer than whatever it drops. |
| TaskJournal.WhatIsPruned | mailstore/mail_task_runs.go:112-115 | A prune drops exactly the rows of the task, other than the current one, that 49 others started after. |
| TaskJournal.StepKeeps | mailstore/mail_tasks.go:91-291 | Every queue operation keeps tasks and journal in step. |
| TaskJournal.QueueAndJournalAgree | mailstore/mail_task_runs.go:99-122 | After any interleaving: a task is running exactly when it has one running row, that row carries its token, and it has at most 50 rows. |
| TaskJournal.FencedWritesNothing | mailstore/mail_tasks.go:224-237 | A worker without the token changes neither task, payload nor journal row. |
| TaskJournal.ClaimFences | mailstore/mail_tasks.go:91-143 | A later claim takes all of that from the earlier worker, for the rest of every run. |
| RetryPolicy.RetryDelay | mailstore/mail_tasks.go:189-195 | The doubling loop computes min(15 * 2^(a-1), 1800) seconds. |
| RetryPolicy.OwnDelayBounds | mailstore/task_failure.go:114-120 | The spread delay is within a fifth of that, and at most half an hour. |
| RetryPolicy.JudgeFailure | mailstore/mail_tasks.go:197-209 | Status, attempts, next attempt and journal status after a failure. |
| RetryPolicy.RetryWaits | mailstore/task_failure.go:75-120 | A retryable failure below the limit waits its own delay or the server's, whichever is longer, and keeps its attempt number. |
| RetryPolicy.WhatIsKept | mailstore/task_failure.go:35-44 | What is kept of a Retry-After: nothing of an absent, past or oversized one, at most a day of any other. |
| RetryPolicy.DelayCoversRetryAfter | mailstore/task_failure.go:35-44 | As durations: the delay used covers the server's Retry-After (section 10.2.3 of RFC 9110) exactly when that is at most 24 hours. |
| RetryPolicy.LongRetryAfterExample | mailstore/task_failure.go:43 | A two-day Retry-After is cut short. |
| RetryPolicy.LimitEndsTask | mailstore/task_failure.go:108-110 | At the limit only an interruption is retried, and it gives its attempt back. |
| TaskOutcomes.ClaimsWait | mailstore/mail_tasks.go:197-209 | A task put off by d is due exactly from the start of the second in which d ends, so it is claimed less than a second early at most. |
| TaskOutcomes.ClaimsHonourRetryAfter | mailstore/mail_tasks.go:197-209 | No claim comes before the server's Retry-After is over exactly when the delay, less the fraction of a second the table drops, covers it. |
| TaskOutcomes.EarlyClaimExample | mailstore/mail_tasks.go:116-120 | A minute asked for at 0.999 s; the task is due after 59.001 s. |
| TaskCaps.ClaimKeepsCaps | mailstore/mail_tasks.go:99-127 | A claim checked at its own reading keeps the caps at every later time. |
| TaskCaps.CapsHold | mailstore/mail_tasks.go:91-127 | For any mix of lanes and any order of readings up to t: at t at most four AI leases are unexpired in all, and one AI and one notification lease per account. |
| TaskWorkers.StepKeeps | mailstore/mail_task_worker.go:121-164 | Every worker step keeps what workers hold, what was sent, and the retry account. |
| TaskWorkers.NotificationsCarryOneText | mailstore/mail_task_worker.go:136-164 | All notifications sent for a task carry one nonempty text, the stored payload, even with overlapping workers. |
| TaskWorkers.PayloadIsFrozen | mailstore/mail_task_worker.go:153-159 | A nonempty payload never changes while its message exists. |
| TaskWorkers.RetryBudget | mailstore/mail_task_runner.go:78-119 | Executions minus interrupted executions never exceed 5, 8 or 3 between enqueue or explicit retries, and equal the attempt counter up to the limit. |
| TaskWorkers.RunProjects | mailstore/mail_task_worker.go:121-164 | A run of workers is a run of the queue, with the same tasks and journal. |
| TaskWorkers.JournalAgreesForWorkers | mailstore/mail_task_runs.go:99-122 | So in every run of workers tasks and journal agree as above. |
| TaskWorkers.CapsHoldForWorkers | mailstore/mail_tasks.go:91-127 | And the lease caps hold. |
| FlagModel.StateIsSet | mailstore/pending_flags.go:35-52 | The flag is present afterwards exactly if added; the other flags and their order stay; repeating changes nothing. |
| FlagModel.MarkedIsCounted | mailstore/pending_flags.go:116-124 | A message marked as read here is not counted as unread, whatever spelling the server used. |
| FlagChoices.WithinIsAnywhere | mailstore/pending_flags.go:116-124 | The search for the spelling finds it wherever it stands in the list. |
| FlagModel.CountIsExact | mailstore/pending_flags.go:116-124 | For any flags the recount is the number of messages without \Seen exactly when as many read messages lack the exact spelling as unread ones contain it in another flag. |
| FlagModel.PlainCountIsRight | mailstore/pending_flags.go:116-124 | It is right for every folder whose flags spell \Seen exactly and contain it in no longer flag. |
| FlagRuns.UnreadCountsAreRight | mailstore/pending_flags.go:116-124 | Over every run in which mail arrives with such flags: a choice makes the unread count right in every folder it changes and keeps it right elsewhere, and a recount makes it right in its folder. |
| FlagRuns.UnreadCountExample | mailstore/messages.go:719-770 | BatchSyncFlags stores what its caller passes: called with another spelling, it leads the next recount to a wrong number. |
| FlagStore.Store.UpdateFolderStats | mailstore/messages.go:678-688 | The unread count of the folder, and of no other, becomes the recount. |
| FlagStore.FlagsWithState | mailstore/pending_flags.go:35-52 | The loop computes that list, and reports a change exactly when presence had to change. |
| FlagStore.Store.QueueSeenUpdates | mailstore/pending_flags.go:58-129 | All keys toggle with their log rows and recounted folders, or nothing does; repeated keys count once. |
| FlagChoices.DeliverySettles | mailstore/pending_flags.go:161-183 | Under the listed version the row goes, or waits with one more attempt until the given time; under any other nothing changes. |
| FlagRuns.StaleDeliveryIsIgnored | mailstore/pending_flags.go:161-183 | A delivery listed before a choice is acknowledged or put off without effect exactly when the choice changed the message. |
| FlagRuns.PostponeKeeps | mailstore/pending_flags.go:169-183 | Putting a delivery off keeps the invariant of log, mirror and server. |
| FlagStore.Store.BatchSyncFlags | mailstore/messages.go:719-770 | Cached messages take the fetched flags with our pending change laid over them; the result counts the changed rows. |
| FlagChoices.SyncShows | mailstore/messages.go:719-770 | After a sync every cached message of the folder shows its fetched flags under our pending change; nothing else changes. |
| FlagChoices.SyncCounts | mailstore/messages.go:719-770 | It reports how many messages it changed, if no number is fetched twice. |
| FlagChoices.UpsertShows | mailstore/messages.go:29-160 | An upsert shows the fetched flags of every message that is not on its way out, cached before or not. |
| FlagStore.RetryDelay | mailstore/sync.go:366-375 | The doubling loop computes min(5 * 2^n, 300) seconds. |
| FlagStore.Store.FlushPendingFlags | mailstore/sync.go:474-505 | With any user actions before each statement, a flush is a valid run of worker and users, and what was delivered has arrived; undisturbed, every listed change is delivered and removed, or kept with one more attempt and its delay. |
| FlagRuns.ChoiceTakesEffect | mailstore/pending_flags.go:73-114 | After an accepted choice every named message shows it, and every touched row has a newer version. |
| FlagChoices.ChoiceIsAccepted | mailstore/pending_flags.go:58-114 | A choice is accepted exactly if every key names a stored message. |
| FlagChoices.ChoiceStores | mailstore/pending_flags.go:73-114 | It then sets the flag and a log row, due at once under the next version, for exactly the named messages that were not as asked, counting each once; nothing else changes. |
| FlagChoices.WhyRefused | mailstore/pending_flags.go:73-90 | A refusal tells apart a bad key and a missing message, by the first key that is not good. |
| FlagRuns.PullKeeps | mailstore/messages.go:719-770 | Applying fetched flags or messages keeps the invariant although the user may have toggled since the fetch. |
| FlagRuns.AckKeeps | mailstore/sync.go:498-502 | An acknowledgement that removes a row leaves mirror and server in agreement, also when the user toggled after the listing. |
| FlagChoices.DeliveryRound | mailstore/sync.go:474-505 | A listed change that is delivered and acknowledged is on the server, and gone from the log. |
| FlagChoices.PullRound | mailstore/messages.go:719-770 | A folder that is fetched and synced shows the server's flags, except for our own pending changes. |
| FlagRuns.StepKeeps | mailstore/sync.go:474-505 | Every step of user, worker and server keeps the invariant. |
| FlagRuns.LogAndMirrorAgree | mailstore/pending_flags.go:54-57 | Over every run: a pending change shows locally, and without one local and server \Seen (section 2.3.2 of RFC 3501) agree. |
| FlagRuns.NoChoiceIsLost | mailstore/pending_flags.go:54-57 | Over every run the mirror shows the last choice made for each message, and the server has it unless the log still holds exactly that choice. |
| MessageStore.Store.ReplaceMessageAttachments | mailstore/messages.go:237-255 | The rows become the projection of the list; repeated keys or an absent message undo the batch. |
| MessageIndex.ExtrasFollowTheRecord | mailstore/messages.go:257-262 | After an upsert each of the four extra columns holds the record's value, or null for a record without one; it is the old text only if the two are equal. |
| MessageIndex.HeadersForgetExtras | mailstore/messages.go:58-61 | A list fetch therefore overwrites all four with null. |
| MessageStore.Store.UpsertMessages | mailstore/messages.go:29-160 | A batch of records is written with its index rows, or rolled back; a mirror that shows the last records shows them again afterwards. |
| MessageRecords.RecordIsStored | mailstore/messages.go:43-65 | After an upsert the row has the record's headers and flags, its body and HTML if it carries one, its attachment list if it carries one; the rest of the row and all other rows stay. |
| MessageRecords.NewMessageIsStored | mailstore/messages.go:43-45 | A new row has every column from its record. |
| MessageRecords.ThreadNeedsAnotherChange | mailstore/messages.go:46-81 | Thread headers and attachment marker of a stored message follow the record exactly when another column changes. |
| MessageRecords.MirrorShowsTheLastRecords | mailstore/messages.go:29-255 | Over every run: each row shows the last headers and flags, the content of the last record that carried one, and the last attachment list that arrived. |
| MessageStore.Store.BatchUpdateAttachmentMetadata | mailstore/messages.go:169-221 | The same for attachment-only updates. |
| MessageRecords.UpdateIsStored | mailstore/messages.go:169-221 | An attachment update stores the marked list and its marker, and nothing else. |
| MessageStore.HasRegularAttachment | mailstore/messages.go:329-336 | Some attachment is not inline. |
| MessageIndex.IndexAgreesOverRuns | mailstore/messages.go:29-255 | Over any sequence of header-only, full and attachment-only writes, deletions and resets, the index of every message is the projection of its stored list. |
| MessageRecords.AttachmentIsIndexed | mailstore/messages.go:237-255 | So every attachment is found under its part number, its id, or its place. |
| MessageIndex.GuardIsHarmless | mailstore/messages.go:46-81 | What the guard skips would have changed only thread headers and the attachment marker; exactly when the guarded and the unguarded write agree. |
| MessageIndex.StaleRowExample | mailstore/messages.go:50-56 | Upserting a full record into an older row: its thread headers and its attachment marker are offered, and nothing is stored. |
| MessageIndex.UpsertForgetsNothing | mailstore/messages.go:64-65 | An upsert takes no cached marker back and removes no message. |
| MessageIndex.HeadersKeepContents | mailstore/messages.go:50-65 | A batch of header-only records changes no stored body, HTML, attachment list or marker, nor the index. |
| SkillGraph.Resolver.Add | mailstore/ai_skills.go:173-204 | The recursive search: on success the output stays topological and grows by the skill last; on failure the root is not resolvable. |
| SkillGraph.Resolve | mailstore/ai_skills.go:161-210 | Succeeds exactly when everything reachable is present, enabled, of one kind, acyclic and at most 24000 bytes long together; then it lists every reachable skill once, dependencies first, the root last, with their texts. |
| SkillGraph.OnlyLengthCanFail | mailstore/ai_skills.go:161-210 | In an acyclic, dangling-free, same-kind, enabled-closed registry an enabled root fails only for its length. |
| SkillGraph.Validator.Visit | mailstore/ai_skills.go:222-247 | The second search finishes exactly without a bad dependency or a cycle on its way. |
| SkillGraph.Validate | mailstore/ai_skills.go:212-262 | Accepts exactly the valid registries, in whatever order the records come. The error of a refusal names a fault that is there. |
| SkillGraph.ActiveResolves | mailstore/ai_skills.go:258-260 | In a valid registry the selected summary skill resolves. |
| SkillRegistry.Normalize | mailstore/ai_skills.go:136-159 | Accepts exactly well-formed texts and at most 12 distinct, well-formed dependencies other than the skill itself, and trims them. |
| SkillRegistry.RegistryStaysValid | mailstore/ai_skills.go:264-443 | From a valid registry, any sequence of saves, deletions and selections keeps it valid and its summary skill resolvable. |
| SkillRegistry.EnabledResolves | mailstore/ai_skills.go:248-257 | Every enabled skill of a valid registry resolves. |
| SkillRegistry.StaleEditIsRefused | mailstore/ai_skills.go:303-324 | No update is lost: after a save, an edit based on the same revision is refused, whatever runs in between short of deleting the skill. |
| SkillEdits.SkillIsStored | mailstore/ai_skills.go:267-341 | Exactly when a save is accepted, and the row it stores under the next revision. |
| SkillEdits.OtherEditsAreStored | mailstore/ai_skills.go:343-423 | The same for deletions and selections. |
| SkillEdits.SavedInstructionsAreUsed | mailstore/ai_skills.go:192-206 | After an accepted save every execution that reaches the skill contains its new instructions. |
| SkillEdits.WhatNormalizes | mailstore/ai_skills.go:136-159 | Which texts and dependencies a record may have. |
| SkillRegistry.Store.SaveAISkill | mailstore/ai_skills.go:267-341 | Create at revision 0, compare-and-swap otherwise, kind fixed; written only if the whole graph stays valid; each error names its own cause. |
| SkillRegistry.Store.DeleteAISkill | mailstore/ai_skills.go:343-385 | Deleted only under its revision, and only if the rest is valid; each error names its own cause. |
| SkillRegistry.Store.SetMailSummarySkill | mailstore/ai_skills.go:396-423 | Selected only if it resolves as a summary skill, under its revision; each error names its own cause. |
| SkillRegistry.Store.ResolveMailSummarySkill | mailstore/ai_skills.go:425-443 | Never refused while the registry is valid. |
| OutboxStore.Store.CreateOutgoing | mailstore/outbox.go:99-155 | A known client key answers with its record; a replacement supersedes a failed or unknown record together with its insert, or nothing happens. |
| OutboxResults.DraftIsStored | mailstore/outbox.go:99-155 | Exactly when a creation is answered, refused or stored, and what it stores and supersedes. |
| OutboxStore.Store.ClaimOutgoing | mailstore/outbox.go:185-189 | Takes one of the oldest queued records and counts the attempt; nothing only if none is queued. |
| OutboxResults.ClaimIsCounted | mailstore/outbox.go:185-189 | The claimed record is in flight with one more attempt and no error; the rest stays. |
| OutboxModel.OneResultPerClaim | mailstore/outbox.go:191-215 | Over every run: once a result is recorded, every further result of the record is refused until it is claimed again. |
| OutboxResults.ResultIsStored | mailstore/outbox.go:191-215 | A result is accepted exactly for the account's record in flight, and stored with the given status and error; the stamped message only if sent. |
| OutboxResults.SentIsFinal | mailstore/outbox.go:183-254 | Over every run: mail recorded as sent is never claimed again, every retry of it is refused, and its record stays as it is until deleted. |
| OutboxResults.FailureWaitsForTheUser | mailstore/outbox.go:183-254 | Over every run: a recorded failure or unknown result is not claimed until the user acts, and a retry queues it exactly with its payload and without a mirrored copy. |
| OutboxResults.CrashWaitsForTheUser | mailstore/outbox.go:217-254 | The same for mail that was in flight when the store restarted. |
| OutboxStore.Store.RetryOutgoing | mailstore/outbox.go:217-232 | Only a failed or unknown record with a payload and without a mirrored copy is queued again. |
| OutboxResults.RetryQueuesAgain | mailstore/outbox.go:217-232 | Exactly which records a retry queues, unchanged apart from status and error. |
| OutboxResults.WhatIsDeleted | mailstore/outbox.go:234-247 | A record is deleted exactly for its account and not while it is in flight. |
| OutboxModel.InFlightRecordIsKept | mailstore/outbox.go:234-247 | Over every run without a restart or its own result, a record in flight stays exactly as it was: it is neither deleted, replaced, retried nor claimed. |
| OutboxModel.ClaimedResultIsRecorded | mailstore/outbox.go:183-215 | So the result of a claim is recorded with its status and error in the record that was claimed, whatever runs in between. |
| OutboxStore.Store.RecoverOutgoing | mailstore/outbox.go:249-254 | After a restart nothing is in flight, and nothing is queued that was not queued before. |
| OutboxResults.RestartMakesUnknown | mailstore/outbox.go:249-254 | A restart turns exactly what was in flight into unknown. |
| OutboxStore.OutgoingMirrorMessageID | mailstore/outbox.go:43-56 | Strips exactly the provider's prefix. |
| OutboxModel.MirrorRules | mailstore/outbox.go:28-56 | The lookup rule, which counts bytes, and the SQL rule agree on every stored copy of an id exactly unless a Tencent id in angle brackets is at most two bytes long or already looks prefixed. |
| OutboxResults.WhatIsPrefixed | mailstore/outbox.go:43-56 | The prefix is a bracket, sixteen hexadecimal digits and a plus sign. |
| OutboxModel.StepKeeps | mailstore/outbox.go:99-254 | Every operation keeps the accounts of claims, keys and replacements. |
| OutboxModel.ClaimsArePaid | mailstore/outbox.go:99-254 | Over every run: attempts equal claims, each paid for by composing the record or by an explicit retry; client keys are unique; each record is replaced at most once. |
| OutboxModel.NoRetryNoSend | mailstore/outbox.go:183-254 | A record outside the queue is not claimed in any run without an explicit retry of it; restarts included. |
| OutboxModel.SettledForever | mailstore/outbox.go:183-254 | Sent and superseded records are never claimed again. |
| OutboxModel.CreateIsIdempotent | mailstore/outbox.go:97-155 | Until it is deleted, a record answers every creation under its client key, and nothing changes. |
| Keyset.ReadPage | mailstore/search_page.go:60-84 | Limit plus one rows after the cursor, cut to the limit: the least rows beyond the cursor, and whether more remain. |
| Keyset.ListingIsUnique | mailstore/search_page.go:61 | A sorted listing of the same rows is unique. |
| Keyset.WalkAscends | mailstore/search_page.go:51-59 | Pages read one after the other never repeat a row nor go back, whatever happens to the table in between. |
| Keyset.StayingRowIsReturned | mailstore/search_page.go:51-59 | A row that stays in the table is returned, whatever is inserted or deleted around it. |
| Keyset.FixedTableIsListed | mailstore/search_page.go:51-84 | Over an unchanged table the pages are exactly its sorted rows. |
| Keyset.NewerRowsDoNotDisturb | mailstore/search_page.go:30-33 | Rows inserted before everything the first page saw neither appear nor cost a row. |
| Pagination.MailOrder | mailstore/search_page.go:57-61 | Date descending, folder ascending, number descending is a strict total order. |
| Pagination.SearchMessagePage | mailstore/search_page.go:40-85 | Limit normalization, cursor test and next cursor around such a page. |
| Pagination.FollowSearch | mailstore/search_page.go:40-85 | Following NextCursor to the end over a fixed mailbox ends and gives exactly the sorted matches. |
| Pagination.NewMailDoesNotDisturb | mailstore/search_page.go:30-32 | Newer mail between the pages costs no older match. |
| Pagination.SessionOrder | mailstore/ai_chat_sessions.go:329-334 | Last update descending, id ascending is a strict total order. |
| Pagination.ListAIChatSessionPage | mailstore/ai_chat_sessions.go:308-375 | Limit normalization, cursor test and next cursor of the session list. |
| Pagination.FollowSessions | mailstore/ai_chat_sessions.go:308-375 | Following the returned cursor to the end over an unchanged list ends and gives exactly the sorted sessions. |
| Pagination.SessionPagesList | mailstore/ai_chat_sessions.go:308-375 | Over a list that changes between the pages: in order, and no untouched session is missed. |
| Pagination.SessionsAreListedOnce | mailstore/ai_chat_sessions.go:308-375 | And no session id is listed twice, although updates may move sessions meanwhile. |
| Pagination.ReverseInPlace | mailstore/ai_chat_sessions.go:286-289 | Swapping from both ends reverses the page. |
| Pagination.MessagePage | mailstore/ai_chat_sessions.go:239-293 | The newest messages before a position, oldest first, and the next older boundary. |
| Pagination.FollowHistory | mailstore/ai_chat_sessions.go:235-293 | Following nextBefore from the newest page to the oldest ends and gives the whole history in order. |
| CategoryModel.MoveIsSafe | mailstore/product_navigation.go:111-129 | Moving a category keeps the tree acyclic exactly when the new parent is not in its subtree. |
| CategoryModel.EveryCategoryHasARoot | mailstore/product_navigation.go:97-110 | In a forest every category has a finite way up to the top. |
| CategoryModel.SaveCategoryKeeps | mailstore/product_navigation.go:85-148 | Creating, renaming and moving keep the forest. |
| CategoryModel.DeleteCategoryKeeps | mailstore/product_navigation.go:150-177 | Deleting keeps it, and no product keeps a deleted category. |
| CategoryEdits.CategoryIsStored | mailstore/product_navigation.go:85-148 | A category is saved exactly if its name is free and short enough and its parent exists outside its own subtree; it then has that name and parent. |
| CategoryEdits.CategoryIsDeleted | mailstore/product_navigation.go:150-177 | A category goes exactly if it has no children; its products become uncategorized, one version on. |
| CategoryModel.ForestOverRuns | mailstore/product_navigation.go:85-177 | Over any sequence of category and product edits: acyclic, parents present, names unique, every product's category empty or present. |
| CategoryModel.StaleProductEditIsRefused | mailstore/products.go:212-224 | No update is lost: an edit or deletion based on a saved-over version is refused for good, whatever runs in between short of deleting the product. |
| CategoryStore.Store.Subtree | mailstore/product_navigation.go:122 | The recursive query finds exactly the category and its descendants. |
| CategoryStore.Store.SaveProductCategory | mailstore/product_navigation.go:85-148 | The tests in the source's order, then the insert or update. |
| CategoryStore.Store.DeleteProductCategory | mailstore/product_navigation.go:150-177 | Only without children; its products become uncategorized. |
| CategoryEdits.ProductIsStored | mailstore/products.go:186-254 | A product is saved exactly if its texts are short enough, its category exists and the edit was based on the stored version; it then holds the given texts under the next version, and nothing else changes. |
| CategoryEdits.ProductIsDeleted | mailstore/products.go:295-318 | A product is deleted exactly under its version. |
| CategoryModel.CategoryDeletionOutdatesEdits | mailstore/product_navigation.go:150-177 | Deleting a category outdates, for good, every edit of its products that was prepared before. |
| CategoryModel.DeletionOutdatesEdits | mailstore/products.go:295-318 | After a deletion no edit or deletion of the product is ever accepted, whatever runs in between. |
| CategoryModel.DeletedProductStaysGone | mailstore/products.go:186-318 | An absent product is not brought back by any edit: writing to it is refused without a change. |
| Coverage.Scope.AddSource | mailstore/mail_analysis.go:84-96 | The first entry of the message grows by the range, or a new entry is appended; changed evidence is refused. |
| Coverage.EntriesHoldTheReads | mailstore/mail_analysis.go:84-96 | After any reads an entry holds exactly the ranges read of its first evidence, in order. |
| Coverage.Sweep | mailstore/mail_analysis.go:101-108 | Over sorted ranges the sweep decides coverage up to the total or the last start, whichever is greater. |
| Coverage.SourceFullyRead | mailstore/mail_analysis.go:98-109 | The same for ranges in any order, overlapping or empty, through the sorted copy. |
| Coverage.WithinTheTotal | mailstore/mail_analysis.go:98-109 | If no range starts beyond the total, the result is true exactly when every position below the total lies in some range. |
| Coverage.WhenSweepAndSetDiffer | mailstore/mail_analysis.go:98-109 | In general the two differ exactly when the total is covered and a range starts behind an uncovered position. |
| Coverage.RangeBeyondTheEndExample | mailstore/mail_analysis.go:98-109 | Ranges for which they differ. |
| Strings.TrimTakesBlanks | mailstore/store.go:1726 | Trimming takes the blanks off both ends, all of them and nothing else. |
| Strings.NumbersAreRead | mailstore/store.go:1725-1731 | A message number is read back from its decimal form exactly if it is positive and fits 32 bits. |
| Strings.OnlyDigitsAreRead | mailstore/store.go:1725-1731 | Nothing but digits between blanks is a number. |
| Sections.LinesCover | mailstore/products.go:391 | The lines together are as long as the text. |
| Sections.Splitter.TakeLine | mailstore/products.go:404-413 | Making room for a line of any length keeps the sections a chain of at most 1800 each. |
| Sections.SplitProductSections | mailstore/products.go:377-420 | The sections are numbered from 0, start at 0, abut, sum to the length and are 1 to 1800 long (one empty section for an empty text); each carries the last heading at or before its start; every heading line starts a section. |
| ProductReader.SelectWindow | mailstore/products.go:540-546 | At most 20 consecutive sections, the first of which holds the offset. |
| ProductReader.Store.ReadProduct | mailstore/products.go:516-552 | The refusals in order, else the text of the page with its window and next offset. |
| ProductReader.Store.FollowPages | mailstore/products.go:528-537 | Pages along nextOffset reproduce the text. |

## Left out

- AI chat attachments, their references and their expiry: whether a message's attachments are available is a parameter of the turn.
- CreateAIChatSession on an existing session, mail-session import, and the legacy conversation tables that a deletion also empties.
- Session kind, document type, creation and update times of chat rows; the document fields beside the HTML text; trimming of owner and document ids, which callers are taken to have done.
- Migrations and backfills: runs start from an empty store or from a state that meets the invariant.
- The error columns, durations and context JSON of journal rows; ListMailTasks and ListMailTaskRuns.
- Generation of summaries and replies, webhook and mail server protocols, and the timers and channels that wake the workers.
- TaskWorkers.NotificationsCarryOneText: deleting a message ends the history of its tasks, so a message fetched again starts anew.
- The order and the limit of 500 of ListPendingFlagUpdates: a flush may list any part of the log.
- FlagRuns.UnreadCountExample: whether the IMAP library ever hands BatchSyncFlags another spelling of \Seen is not part of this model; with the exact spelling the count is proved right.
- UpdateFlags, which bypasses the log, a second sync path beside the account worker, foreign IMAP clients that change \Seen, and the count heuristic that decides when to prune.
- Case folding, trimming and white space beyond ASCII, apart from the two characters that fold onto s and k; UTF-8 validity of texts.
- Recognition of inline attachments in HTML: a function parameter that is only known to leave an empty list empty where a lemma says so.
- The fingerprint of a resolved skill.
- SkillGraph.Validate: of several faults the error names the one met first in the order of the records; that it names a fault that is there is proved, not which one.
- The seeding of the built-in skills: runs start from a valid registry.
- OutboxStore.Store.FinishOutgoing: reads and updates in one step; the source reads the message first, but no other operation changes it meanwhile.
- The match conditions of the mail search and of its fingerprint: a search is the set of rows it matches.
- Pagination.NewMailDoesNotDisturb: newer means a later date than every match the first page saw.
- Product images, catalogs, prices and the full-text index; ids and rows of other owners.
- Tags, drafts, API keys, account settings, translations and the tables of summaries.
