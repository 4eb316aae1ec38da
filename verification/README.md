# TaskFlow backend: a verified model

TaskFlow keeps users, groups, tasks and comments in a relational database and mirrors them into a search
index. This project models the parts of its backend that carry state, and proves what they promise.

**Outbox and index** (`Schema`, `SyncProtocol`, `RetryAccounting`, `OutboxWorker`, `OutboxTheorems`,
`OutboxDrain`, `Reindex`). A committed write stores a row and an outbox event together. A worker marks an
event, re-reads the row, changes the index and marks the event again, each in a step of its own; a retry
job sends failed events back. `SyncProtocol` is that protocol as a state machine in which writes, faults and
crashes may fall between any two steps; `OutboxWorker` is the job as it is written, with its loops and
commits, and `OutboxTheorems` shows that every call of the job is a run of the machine. One worker is
assumed, as are status commits that do not fail; an index call may raise before or after taking effect.
`OutboxService` is modelled as if the base constructor (`backend/app/service/base.py:84`) had set its
repository, which `backend/app/service/outbox.py:54-55` skips.

**Transactions** (`Store`, `Transactions`, `TransactionInvariants`, `TransactionRuns`, `TransactionPromises`,
`TransactionLaws`, `ErrorLaws`, `Integrity`, `UnitOfWork`, `TransactionBase`, `GroupTransactions`,
`TaskTransactions`, `CommentTransactions`, `TransactionService`, `WholeService`, `SettledService`). Groups, memberships, roles, join requests, tasks, comments and profiles.
Each transaction is there twice: as a body that changes a unit of work step by step, and as a function from the
database to what it commits or raises. Each body is proved against its function; invariants and runs are proved
about the functions; and `TransactionService.Service.Serve` brings both together: it runs any list of bodies,
half-written sessions included, and what it leaves is a run of the functions with every invariant kept.
Declared unique and foreign-key constraints turn an insert into an error. A query that may return any of
several rows returns any of them. `TransactionLaws` says of each function when it commits and what it leaves, and
over all of them who becomes a member or an assignee; `ErrorLaws` says what an error tells; `Integrity` proves that
the declared references and unique columns hold in every reachable state. `WholeService` puts transactions and
outbox together.

**Cache keys** (`Delimited`, `Dict`, `PercentEncoding`, `CacheKey`, `SearchKeyLaws`). The key of a search request, a
parser for it, and what reaches a key, said of the request. Percent-encoding follows sections 2.1 and 2.3 of RFC 3986, over UTF-8 as in section 3 of RFC 3629.
Lower-casing is a parameter that is only assumed to leave lower-case ASCII text alone; the digest is a
parameter that is only assumed to be hexadecimal and at least 16 characters long.

**Experience points** (`Dict`, `Xp`, `Skills`). Bonuses, shares and levels over exact numbers; the stored skills and
the copies that gains are made on.

**Server-sent events** (`Delimited`, `Sse`, `SseTheorems`). Queues of at most 100 messages fed by publishers and by a Redis
listener, every half of a publish and of a relay being a step.

## Where the code differs from its documentation or purpose

The model follows the code.

- `backend/app/background/beat.py:13` speaks of three attempts before an event is given up. Failing and
  retrying each add one to the count, so `max_retries = 3` allows two (`RetryAccounting.AttemptsBounded`).
- An event whose worker dies stays PROCESSING for good: the job looks for PENDING events and the retry job for
  FAILED ones. Nothing else leaves an event there (`OutboxTheorems.StrandedIffCrashed`); without a crash one retry
  call and enough calls of the job finish everything that is not given up (`OutboxDrain.RetryThenDrain`).
- A deactivated row can be in the index when all is done, in two ways. An older event that is retried after the
  delete puts it back (`OutboxTheorems.RetryRestoresDeactivated`, exactly when in `OutboxDrain.DrainedIndex`
  and `OutboxTheorems.DeactivatedEntry`). And a task update that clears the active flag announces an update, not a
  delete, so the inactive document stays for good without any fault (`TransactionPromises.FadesOutIff`,
  `SettledService.DeactivatedStaysIndexed`, `SyncProtocol.UndeletedStaysIndexed`). Removed rows never come back.
- The role cleanup of a member leaving the last group deletes one MEMBER row, whichever the query returns, and
  leaving one of several groups deletes none (`TransactionRuns.BackedUnlessTwoRows`,
  `TransactionRuns.RoleSurvivesLeaving`).
- `approve_task_join_request` documents a check of the caller that it does not make
  (`TransactionPromises.AnyCallerApproves`, `TransactionPromises.NonAdminApproves`).
- `update_my_task` looks for a title conflict under the key "name", which is never there
  (`TransactionPromises.TitlesUniqueUnlessTaken`, `TransactionPromises.TitleTakenTwice`).
- A request is rejected in any status, and the membership of an approved one stays
  (`TransactionPromises.LeftBehindIff`, `TransactionPromises.RejectionLeavesMember`).
- `update_my_profile` asks for conflicts with other users; the query does not leave the caller out, so the own
  unchanged address or name is refused (`TransactionPromises.OwnAddressRefused`).
- `backend/app/cache/key_builder.py:30` names MD5; the code hashes with SHA-256.
- Gaining experience points stores none: each call changes a copy of the row and drops it
  (`Skills.EveryRunStoresNoXp`), and reports no rise in level (`Skills.RiseIsNotReported`). The daily cap of 500
  (`backend/app/service/xp.py:31`) is judged by the stored row, so it is one of a call: the exact condition for a day
  is in `Skills.DayHandsOut`. The streak is computed after its date has been overwritten and never
  moves (`Skills.StreakNeverMoves`).
- A message published through Redis can be delivered twice; how often one still can be is exact in
  `SseTheorems.CanBePutIff`.
- A full queue nobody reads stops the relay for all users, and only that does
  (`SseTheorems.StallIsReachable`, `SseTheorems.MovesOnIffRoom`).

## Model

| member | source | states |
|---|---|---|
| SyncProtocol.StepKeepsInv | backend/app/service/outbox.py:383-521 | Every enabled step (a committed write, each half step of the worker, a fault or crash anywhere, a retry) keeps the invariant: an entity whose index entry differs from its row has an event that is not completed; a delete event is the last of its entity; what the worker has read is current or outdated by another open event; an entity without a delete event keeps its row and, once an event of it is completed, its document |
| SyncProtocol.EveryRunIsSynchronised | backend/app/service/outbox.py:383-521 | The same for every state reached from the empty one by any interleaving of steps |
| SyncProtocol.UndeletedStaysIndexed | backend/app/service/outbox.py:419-449 | Over every run: a stored row without a delete event, live or not, has exactly its document once its events are completed |
| SyncProtocol.DeadStaysUndeleted | backend/app/service/outbox.py:419-445 | A row that has become inactive without a delete event never gets one and never changes again, whatever the run |
| SyncProtocol.CommitKeepsInv | backend/app/repositories/outbox.py:125-142 | A row and its event become visible together, so a write never leaves an entity out of step and uncovered |
| SyncProtocol.WriteDocumentKeepsSync | backend/app/service/outbox.py:504-521 | Writing the row that was read earlier is safe at any later moment: if the row has changed since, another event of the entity is open |
| SyncProtocol.CompleteKeepsSync | backend/app/service/outbox.py:448-449 | Completing an event is safe: the entity agrees with its row, or another event of it is still open |
| SyncProtocol.RunAppend | backend/app/service/outbox.py:364-381 | A run followed by a run is a run, with the states of the second starting where the first ended |
| SyncProtocol.OutboxIsHistory | backend/app/repositories/outbox.py:125-142 | Over every run the outbox holds one row for each committed write, in their order, with its type, entity and time |
| RetryAccounting.EveryRunKeepsCounts | backend/app/service/outbox.py:125-151 | Over every run an event's `retry_count` is odd exactly while it is failed and stays within the bound for its status, and halved it is the number of times the worker has begun the event |
| RetryAccounting.AttemptsConserved | backend/app/service/outbox.py:523-533 | Attempts made so far plus attempts the outbox can still cost equal what the committed events brought in, at every point of every run |
| RetryAccounting.AttemptsBounded | backend/app/service/outbox.py:287-312 | An event is attempted at most floor(max_retries / 2) + 1 times, and all attempts together at most that many times the number of committed events, so process and retry cycles stop when nothing new arrives |
| RetryAccounting.GivenUpIffAttemptsUsed | backend/app/repositories/outbox.py:107-123 | A failed event is out of reach of the retry job exactly when all its attempts have been made |
| OutboxWorker.OutboxService.MarkProcessing | backend/app/service/outbox.py:85-101 | Sets the status of the one row, if it exists, and changes nothing else |
| OutboxWorker.OutboxService.MarkCompleted | backend/app/service/outbox.py:103-123 | The same for the completed status |
| OutboxWorker.OutboxService.MarkFailed | backend/app/service/outbox.py:125-151 | Sets the status and adds one to the count of the one row |
| OutboxWorker.OutboxTaskService.DeleteDocument | backend/app/service/outbox.py:484-502 | Removes the entity's document if there is one; a raised call may or may not have taken effect |
| OutboxWorker.OutboxTaskService.IndexDocument | backend/app/service/outbox.py:504-521 | Stores the current row, not a payload; a row that is gone stores nothing |
| OutboxWorker.OutboxTaskService.ProcessSingleEvent | backend/app/service/outbox.py:383-482 | Either the event is completed (failed, for an entity type without documents) and the index carries its effect, or the call raised and the event is failed |
| OutboxWorker.OutboxTaskService.ProcessOutboxBatch | backend/app/service/outbox.py:364-381 | The batch is handled up to its end or up to the first event that raised; the resulting table of events and index are exactly those |
| OutboxWorker.OutboxTaskService.ProcessOutbox | backend/app/service/outbox.py:249-285 | The same for one call on any answer the database may give to the query for pending events |
| OutboxWorker.OutboxTaskService.RetryFailedOutbox | backend/app/service/outbox.py:287-312 | Exactly the events found go back to pending with one more on their count |
| OutboxTheorems.BatchCut | backend/app/service/outbox.py:364-482 | After a batch there is a cut: events before it are completed, or failed for an unknown entity type; the one at it is failed if the batch raised; the later ones and all rows outside the batch are untouched; none is left processing |
| OutboxTheorems.BatchIsRun | backend/app/service/outbox.py:364-521 | Whatever a batch call does while nothing else commits, with or without a fault, a run of the step-by-step protocol does, so all that holds for runs holds for the job |
| OutboxTheorems.RetryIsRun | backend/app/service/outbox.py:523-533 | The retry job is a run of the protocol |
| OutboxTheorems.StrandedForever | backend/app/service/outbox.py:57-175 | No run of the job or the retry job ever takes such an event up again |
| OutboxTheorems.StrandedIffCrashed | backend/app/service/outbox.py:393-482 | Over every run: an event is left in processing with no worker on it if and only if the worker has died inside it at some point of the run |
| OutboxTheorems.ReplayEntry | backend/app/service/outbox.py:419-445 | What the index holds after carrying out any non-empty list of an entity's events, in any order and repetition, against a table that does not change |
| OutboxTheorems.Confluence | backend/app/service/outbox.py:419-445 | Any two lists of the same events leave the same index, for a live row and for a removed row whose list includes its delete, and the entry is the row |
| OutboxTheorems.DeactivatedEntry | backend/app/service/outbox.py:484-521 | For a row kept but deactivated the order matters: the document is gone exactly if the delete event came last |
| OutboxTheorems.RetryRestoresDeactivated | backend/app/service/outbox.py:523-533 | For every row that can be deactivated there is a run, all events completed, that ends with the inactive row in the index: a retried event overtook the delete |
| OutboxDrain.DrainedIffEnoughCalls | backend/app/service/outbox.py:249-285 | With n events pending, batch size b and no fault, nothing is pending after exactly ceil(n / b) calls and not before |
| OutboxDrain.AnswerExists | backend/app/repositories/outbox.py:79-123 | Whatever the table holds there is an oldest-first answer within the limit, for the pending and for the failed query |
| OutboxDrain.RetryKeepsTheBound | backend/app/repositories/outbox.py:107-123 | Whatever the failed query answers, under the same bound: retrying it is a run of legal retry steps, every event that is given up stays as it was, and short of the limit every event that may be retried is among those found |
| OutboxDrain.PendingMayBegin | backend/app/repositories/outbox.py:79-105 | The pending query finds only events the worker may begin, no more than the batch size, and short of it all of them |
| OutboxDrain.CallsExist | backend/app/service/outbox.py:249-285 | Any number of faultless calls can follow one another, each with an answer to its own query |
| OutboxDrain.RetryThenDrain | backend/app/service/outbox.py:249-312 | From every reachable state with an idle worker, nothing stranded and at most 100 events to retry, one retry call and ceil(n / b) faultless calls complete every event of an indexed type that is not given up, and leave the rest as they were |
| OutboxDrain.RetriedIndex | backend/app/service/outbox.py:249-312 | After that every entity none of whose events is given up agrees with its row |
| OutboxDrain.BatchSettles | backend/app/repositories/outbox.py:15-52 | Each event of a batch is the oldest pending one when its turn comes, so deletes are carried out after everything older of the same entity |
| OutboxDrain.DeleteIsYoungest | backend/app/repositories/outbox.py:125-142 | In every state that keeps the invariant and stamps events in order, a delete event is the youngest and only delete of its entity |
| OutboxDrain.DrainedIndex | backend/app/service/outbox.py:249-285 | When nothing is pending any more, a live row has exactly its document and a removed row none; an inactive row without a delete event still has its document, and one with a delete event has none exactly if the delete was still pending at the start or had been carried out last |
| Reindex.Session.FetchBatch | backend/app/cli/reindex.py:86-119 | One window of the rows, cut off at the end of the table |
| Reindex.ElasticsearchIndexer.BulkIndex | backend/app/es/indexer.py:262-275 | Every document of the batch is stored under its row id, or the call raised with all or nothing stored |
| Reindex.ReindexService.CreateDocs | backend/app/cli/reindex.py:121-140 | The documents of exactly the rows that convert, in order |
| Reindex.ReindexService.ReindexModel | backend/app/cli/reindex.py:29-68 | With a positive batch size the loop ends, has fetched every row once and in order, stored the documents of all rows that convert and counted them; a bulk error stops it at a batch boundary |
| Reindex.DocumentAt | backend/app/cli/reindex.py:121-140 | The document of a row that converts comes right after those of the rows before it, and no row has two or another row's |
| Reindex.StoredConvertible | backend/app/cli/reindex.py:121-140 | Each row that converts ends up stored under its id |
| Reindex.StoredOther | backend/app/es/indexer.py:262-275 | No other index entry moves |
| Reindex.ReindexedInSync | backend/app/cli/reindex.py:29-68 | After a rebuild an entity agrees with its row if and only if its row was converted or it agreed before |
| UnitOfWork.UnitOfWork.constructor | backend/app/repositories/uow.py:72-77 | A unit of work starts from the committed database, with no events |
| UnitOfWork.UnitOfWork.Exit | backend/app/repositories/uow.py:79-97 | The database becomes the session's if the body succeeded and the session is the unit's own, and stays what it was otherwise |
| UnitOfWork.UnitOfWork.FindGroupRole | backend/app/repositories/user_role.py:48-64 | Finds some matching role row, and none only if there is none |
| UnitOfWork.UnitOfWork.FindUserRole | backend/app/repositories/user_role.py:48-64 | An argument left out is no filter: any role row of the user with that role may be the answer |
| UnitOfWork.UnitOfWork.AddMembership | backend/app/repositories/group_membership.py:68-76 | Adds the pair, or fails exactly when the unique or a foreign-key constraint is violated |
| UnitOfWork.UnitOfWork.AddJoinRequest | backend/app/repositories/join.py:88-103 | Adds the row under the next id, or fails exactly when a constraint is violated; requests without a task are never duplicates |
| TransactionService.Service.Perform | backend/app/repositories/uow.py:79-109 | Database and notifications sent after one transaction are those of the transaction as a function of the database; on an error neither changes |
| TransactionService.Service.Serve | backend/app/repositories/uow.py:72-109 | Any list of transactions, each in a unit of work that may be left half-written: stored rows and sent notices are the run of the calls, every invariant holds, and both are those of the calls that did not raise, in order |
| TransactionService.EventsAreHandled | backend/app/service/transactions/group.py:54-87 | No recorded event is dropped: each service records only types its own dispatcher knows |
| TransactionRuns.OnlyCommittedCount | backend/app/repositories/uow.py:79-109 | As functions of the database: a run and its committed calls alone end in the same state, all of the latter commit |
| GroupTransactions.ApproveRequest | backend/app/service/transactions/group.py:734-798 | The approval with its second unit of work: if it raises, neither has left anything and nothing is sent; if not, what is stored, sent and recorded is the outcome |
| GroupTransactions.AssignInOwnUnit | backend/app/service/transactions/task.py:763-809 | The assignment commits and is announced, or raises with nothing stored or sent |
| TransactionBase.GrantRoleIfNotExists | backend/app/service/transactions/group.py:243-315 | One matching role row exists afterwards, and one was added only if there was none; fails exactly when it is missing and so is the user |
| GroupTransactions.CleanupRoleIfNoGroups | backend/app/service/transactions/group.py:393-424 | With a group or membership left nothing changes; otherwise one role row of the user goes, any one the query may return |
| TransactionInvariants.TransactionWritesOnce | backend/app/service/transactions/group.py:447-458 | Every committed transaction stores at most one indexed row and announces exactly that row with one outbox row of the right type; only fresh ids are created and only live rows written |
| TransactionInvariants.TransactionKeepsInv | backend/app/service/transactions/group.py:426-896 | Every transaction, whatever the database answers to its role queries, keeps: rows typed by table, ids fresh, GROUP_ADMIN rows one to one with active groups, MEMBER rows unique per user and group, waiting requests unique, comment threads a forest |
| TransactionInvariants.DeleteGroupCleansNothing | backend/app/service/transactions/group.py:657-690 | The cleanup ending a group deletion finds no other row to delete, so no other group loses its admin row |
| TransactionInvariants.CreateGroupKeepsAdminRoles | backend/app/service/transactions/group.py:426-484 | The one-to-one correspondence of admin rows and active groups survives a new group |
| TransactionInvariants.GrantKeeps | backend/app/service/transactions/group.py:243-315 | Granting only adds, only the asked row, under a fresh id, and never a second MEMBER row of a user in a group |
| TransactionInvariants.KeepsPendingUnique | backend/app/service/transactions/group.py:603-860 | No path opens a second waiting request of a user for a group, or for a task |
| TransactionInvariants.DeleteCommentKeepsForest | backend/app/service/transactions/comment.py:108-134 | Deleting a comment leaves no reply without its parent |
| TransactionRuns.EveryRunKeepsInv | backend/app/service/transactions/group.py:426-896 | The invariant in every state any run of transactions can reach |
| TransactionRuns.EveryRunAdvancesRequests | backend/app/service/transactions/group.py:692-798 | Over every run a request's status only rises in the order waiting, approved, rejected, approved is entered only from waiting, and no request is removed or re-addressed |
| TransactionRuns.ApproveAllOrNothing | backend/app/service/transactions/group.py:734-798 | A successful approval turns exactly one waiting request, adds the membership and leaves exactly one MEMBER row of the pair, and for a request naming an active task adds the assignee and the membership of its group; a failed one changes nothing |
| TransactionRuns.MemberRowGoesWithLastMembership | backend/app/service/transactions/group.py:393-424 | A MEMBER row disappears only in a step that takes its user's last membership |
| TransactionRuns.BackedUnlessTwoRows | backend/app/service/transactions/group.py:393-424 | The rule that a user with a MEMBER row is in some group is lost exactly when a user with two such rows leaves, or is taken by its admin out of, the only group |
| TransactionRuns.EveryRunBacked | backend/app/service/transactions/group.py:581-601 | Along every run in which the user never holds two MEMBER rows, the rule holds |
| TransactionRuns.UnbackedIsReachable | backend/app/service/transactions/group.py:878-895 | The rule does fail: a run of eight transactions ends with a MEMBER row of a user who is in no group |
| TransactionRuns.RoleSurvivesLeaving | backend/app/service/transactions/group.py:878-895 | Leaving a group leaves its MEMBER row exactly if the user was in another group too or the row the cleanup finds is another |
| TransactionRuns.LeavingUndoesJoining | backend/app/service/transactions/group.py:800-896 | For a user who was in no group, leaving undoes joining: the database is as before but for the role id handed out |
| TransactionRuns.RootOf | backend/app/service/transactions/comment.py:26-71 | Following parents ends at a comment without one, of the same task, with an id no larger |
| TransactionRuns.EveryThreadHasRoot | backend/app/service/transactions/comment.py:26-134 | In every reachable state every comment has such a root |
| TransactionPromises.TitlesUniqueUnlessTaken | backend/app/service/transactions/task.py:811-849 | Active titles of a group stay unique over every transaction but an update that leaves the task active with a title of another active task of the group |
| TransactionPromises.TitlesStayUnique | backend/app/service/transactions/task.py:531-575 | Along every run without such an update titles are unique |
| TransactionPromises.TitleTakenTwice | backend/app/service/transactions/task.py:811-849 | A run of the service ends with two active tasks of one title in one group |
| TransactionPromises.AnyCallerApproves | backend/app/service/transactions/task.py:577-607 | A task request is approved if and only if a condition holds that does not mention the caller, to the same effect for all callers |
| TransactionPromises.NonAdminApproves | backend/app/service/transactions/task.py:940-979 | A run of the service in which a user who is not the group admin approves the own request |
| TransactionPromises.LeftBehindIff | backend/app/service/transactions/task.py:981-1031 | A transaction turns an approved request into a rejected one whose user is still in the group if and only if it is a rejection that passes its checks, the request was approved and the membership was there |
| TransactionPromises.RejectionLeavesMember | backend/app/service/transactions/task.py:981-1031 | A run of the service that does so |
| TransactionPromises.FadesOutIff | backend/app/service/transactions/task.py:811-849 | A live row becomes inactive without its delete being announced if and only if the transaction is a task update that passes the access check and clears the active flag |
| TransactionPromises.DeactivatedUnannounced | backend/app/schemas/task.py:113 | A run of the service that does so |
| TransactionPromises.OwnAddressRefused | backend/app/service/transactions/user.py:35-69 | A profile update raises a conflict exactly for an address or name of an active user, the caller included |
| TransactionLaws.CreateGroupLaw | backend/app/service/transactions/group.py:426-484 | When a group is created, and what then is there: the active row asked for, the membership of its creator, one GROUP_ADMIN row |
| TransactionLaws.UpdateGroupLaw | backend/app/service/transactions/group.py:617-655 | Committed exactly for the admin of an active group and a name no other group has; the columns given replace the old ones, admin and parent stay |
| TransactionLaws.DeleteGroupLaw | backend/app/service/transactions/group.py:657-690 | Committed exactly for the admin; the row becomes inactive and is otherwise as it was, and exactly its GROUP_ADMIN row goes |
| TransactionLaws.AddMemberLaw | backend/app/service/transactions/group.py:541-579 | Committed exactly for the admin and an existing user who is no member; the membership is added, no role is |
| TransactionLaws.LeaveLaw | backend/app/service/transactions/group.py:878-895 | Committed exactly for a member; the membership goes, and at most one MEMBER row of the user, only if no membership is left |
| TransactionLaws.RemoveMemberLaw | backend/app/service/transactions/group.py:581-601 | For the admin and a member it is leaving, and an error for anybody else |
| TransactionLaws.CreateJoinRequestLaw | backend/app/service/transactions/group.py:603-615 | Committed exactly if the user has no request of any status for the group and both exist; one waiting request is added |
| TransactionLaws.JoinGroupLaw | backend/app/service/transactions/group.py:800-876 | When joining commits; in an open group exactly the membership and one MEMBER row come and no request, in any other exactly one waiting request, told to the admin, and no membership and no role |
| TransactionLaws.ApproveJoinRequestLaw | backend/app/service/transactions/group.py:734-798 | Committed if and only if a condition on the database holds; invitation, joining and approval are told in this order, each only if it happened |
| TransactionLaws.RejectionLaw | backend/app/service/transactions/group.py:692-732 | Both rejections: committed exactly for the admin, in any status of the request; only that request changes, and only its status |
| TransactionLaws.CreateTaskCommits | backend/app/service/transactions/task.py:681-761 | A task is created if and only if its creator has access to the active group and no active task there has the title |
| TransactionLaws.CreateTaskLaw | backend/app/service/transactions/task.py:681-761 | Then: the row asked for, its creator as assignee and member of the group, an ASSIGNEE row for the task and a MEMBER row, and no other role row |
| TransactionLaws.UpdateTaskLaw | backend/app/service/transactions/task.py:811-849 | Committed exactly with access to the group listed first, if the active task is of that group; the columns given replace the old ones, the group stays |
| TransactionLaws.DeleteTaskLaw | backend/app/service/transactions/task.py:851-869 | Under the same condition the row becomes inactive and is otherwise as it was |
| TransactionLaws.UpdateTaskStatusLaw | backend/app/service/transactions/task.py:871-894 | Committed exactly if the status of an active task differs; only the status changes |
| TransactionLaws.JoinTaskLaw | backend/app/service/transactions/task.py:1033-1088 | When joining a task commits; in an open group the user is assigned, in any other exactly one waiting request for the task is added, and nobody becomes a member |
| TransactionLaws.ApproveTaskRequestLaw | backend/app/service/transactions/task.py:940-979 | On approval the user is an assignee of the task and a member of its group, member before or not, and joining is told only if it is new |
| TransactionLaws.AddUserToTaskLaw | backend/app/service/transactions/task.py:763-809 | When a user is added to a task, and that only the assignment and the invitation come of it |
| TransactionLaws.CreateCommentLaw | backend/app/service/transactions/comment.py:26-71 | The stored comment has the author, task, text and parent asked for; it is stored exactly if a parent, if given, is a comment of the same active task |
| TransactionLaws.UpdateCommentLaw | backend/app/service/transactions/comment.py:73-106 | Exactly the author changes a comment, and only its text |
| TransactionLaws.DeleteCommentLaw | backend/app/service/transactions/comment.py:108-134 | Exactly the author deletes a comment, and only one nobody has replied to |
| TransactionLaws.RegisterLaw | backend/app/service/transactions/auth.py:28-61 | A user is stored exactly if no user, active or not, has the name or the address |
| TransactionLaws.UpdateProfileCommits | backend/app/service/transactions/user.py:25-80 | A profile update commits exactly for an active user and values no user has; only an empty value may be kept |
| TransactionLaws.UpdateProfileLaw | backend/app/service/transactions/user.py:25-80 | Then the columns given replace the old ones and the user stays active |
| TransactionLaws.DeleteProfileLaw | backend/app/service/transactions/user.py:82-94 | Exactly an active user becomes inactive, the row otherwise as it was |
| TransactionLaws.MembershipLaw | backend/app/models/group.py:76-89 | Over all transactions: a user is a member afterwards if and only if it was one and neither left nor was removed, or it was brought in by creating the group or a task in it, the admin's add, an approval, or joining an open group |
| TransactionLaws.ClosedGroupLaw | backend/app/service/transactions/group.py:800-876 | Into a group with policy `RequestJoin` a user comes only by an approval, the admin's add, or creating a task in it |
| TransactionLaws.AssignmentLaw | backend/app/models/task.py:70-86 | Over all transactions: nobody is taken off a task, and exactly who comes to it |
| ErrorLaws.ErrorsTell | backend/app/service/transactions/group.py:426-896 | Over all transactions: an error says what its name says about the database (who is missing, refused, already there, in conflict), and an integrity error is raised only where no check of the service came first and a constraint is violated |
| Integrity.TransactionKeepsSound | backend/app/models/join.py:17-38 | Every transaction keeps what the foreign keys and unique constraints say: links, role rows, requests and rows refer to stored users, groups, tasks and comments; names, addresses and task requests are unique |
| Integrity.EveryRunIsSound | backend/app/models/join.py:17-38 | So in every reachable state, no delete leaving anything behind that refers to it |
| WholeService.WriteIsAllowed | backend/app/repositories/outbox.py:125-142 | What a transaction writes is a write the outbox protocol allows, and table and outbox stay linked |
| WholeService.TransactionIsCommit | backend/app/service/transactions/group.py:426-896 | Each transaction is at most one commit step of the protocol |
| WholeService.ServiceIsSynchronised | backend/app/service/outbox.py:383-521 | The service as a whole: in every interleaving of transactions with the worker's steps and the retry job, an entity whose index entry differs from its stored row has an outbox row that is not completed |
| WholeService.QuietIndexIsTable | backend/app/service/outbox.py:249-285 | In every reachable state with all outbox rows completed each live row has exactly its document, a removed row none, an inactive row whose delete was never announced still its document, any other inactive row none or its inactive self |
| SettledService.EveryRunCanSettle | backend/app/service/outbox.py:249-285 | After any run of transactions the job can catch up: some continuation completes every outbox row and leaves the tables as they are |
| SettledService.DeactivatedStaysIndexed | backend/app/service/transactions/task.py:811-849 | A run of the service without fault, crash or retry ends with all done and a deactivated task in the index |
| PercentEncoding.QuoteRoundTrip | backend/app/cache/key_builder.py:115 | Every text can be read back from its percent-encoded form, which holds only unreserved characters and '%' |
| PercentEncoding.TextOfOctets | backend/app/cache/key_builder.py:115 | UTF-8 octets determine the text |
| CacheKey.Sorted | backend/app/cache/key_builder.py:111 | The names in strictly rising code-point order, each once |
| CacheKey.KeyBuilder.NormalizeParams | backend/app/cache/key_builder.py:98-121 | The sorted, folded, encoded and joined parameters, or the hash of that text when it is longer than 50 characters |
| CacheKey.KeyBuilder.Build | backend/app/cache/key_builder.py:123-159 | The eight fixed fields and, if there are any, the parameters |
| CacheKey.KeyBuilder.SearchKeyBuilder | backend/app/cache/key_builder.py:192-211 | The key of the request's environment, layer, entity and allowed parameters; no key without a request |
| CacheKey.ParseJoined | backend/app/cache/key_builder.py:98-121 | An unhashed parameter text can be parsed back into the folded parameters, for any subset of the six names |
| CacheKey.ParsePlainKey | backend/app/cache/key_builder.py:97-211 | Reading a plain search key back gives environment, layer, entity and folded parameters |
| CacheKey.HashedKeyDoesNotParse | backend/app/cache/key_builder.py:118-120 | A hashed key is no plain key of any request |
| CacheKey.SharedKeyIffSameMeaning | backend/app/cache/key_builder.py:192-211 | A request with a plain key shares it with exactly the requests that agree on environment, layer, entity and folded parameters |
| CacheKey.SameMeaningSameKey | backend/app/cache/key_builder.py:97-211 | Requests that agree on those share their key, plain or hashed |
| SearchKeyLaws.SharedKeyIffAgree | backend/app/cache/key_builder.py:204-211 | Two plain searches of one host, path and module share a key if and only if for each of q, sort, page, size, status and group_id both lack it, or both have it and the lower-cased values agree character by character up to "=" and "_", and "&" and the bar |
| SearchKeyLaws.KeyText | backend/app/cache/key_builder.py:123-159 | The key as it is written, field by field |
| SearchKeyLaws.KeyFields | backend/app/cache/key_builder.py:192-211 | Split at ":" a key has eight fields, and a ninth exactly if one of the six parameters is given |
| SearchKeyLaws.HashedBeyondFifty | backend/app/cache/key_builder.py:118-120 | Exactly a text longer than 50 characters is replaced by the first 16 of its digest |
| SearchKeyLaws.TextInOrder | backend/app/cache/key_builder.py:111-120 | Split at the bar, a plain text lists exactly the parameters, by rising names, each as name, "_" and encoded value |
| SearchKeyLaws.EnvironmentOf | backend/app/cache/key_builder.py:213-225 | Which hosts are development, staging and production, by the texts that occur in them anywhere |
| SearchKeyLaws.LayerOf | backend/app/cache/key_builder.py:227-236 | Which modules are which layer, likewise |
| SearchKeyLaws.EntityOf | backend/app/cache/key_builder.py:255-271 | The first of the six words, in this order, that occurs in the path names the entity |
| SearchKeyLaws.LessIff | backend/app/cache/key_builder.py:111 | The order of names: where two first part, the smaller character or the end comes first |
| SearchKeyLaws.Utf8Form | backend/app/cache/key_builder.py:115 | The octets of a character, as section 3 of RFC 3629 lays them out |
| SearchKeyLaws.EncodedOctet | backend/app/cache/key_builder.py:115 | The encoding of an octet, as sections 2.1 and 2.3 of RFC 3986 say |
| Dict.PutFresh | backend/app/cache/key_builder.py:116 | Assigning to a new key appends, so distinct names keep their sorted order |
| Xp.ThresholdsAreTable | backend/app/schemas/enum/level.py:85-95 | The declared thresholds start at 0 and rise strictly |
| Xp.LevelIsHighest | backend/app/service/xp.py:278-301 | A number is the level of a total if and only if its threshold is reached and the next is not |
| Xp.LevelMonotone | backend/app/service/xp.py:278-301 | More XP never means a lower level |
| Xp.XpToNextIsExact | backend/app/service/xp.py:417-438 | Adding what is missing reaches exactly the next level, adding less stays, and nothing is missing exactly at the top |
| Xp.ProgressInRange | backend/app/service/xp.py:440-463 | Progress lies in 0 to 100 and is 100 exactly at the top level |
| Xp.MultiplierInRange | backend/app/service/xp.py:118-160 | The combined bonus lies between 0.5 and 3 |
| Xp.TaskShareMonotone | backend/app/service/xp.py:105-214 | No share falls with more story points, an earlier finish or a longer streak |
| Xp.ShareInRange | backend/app/service/xp.py:212 | A share lies between 0 and three times the base and is less than one point below its exact value |
| Xp.DistributionEntry | backend/app/service/xp.py:175-215 | The last sphere of a name decides what that name gets |
| Xp.TotalInRange | backend/app/service/xp.py:175-215 | Whatever the spheres, no more is given out than their parts are worth; between distinct names less than one point a sphere is lost |
| Xp.TaskXpInRange | backend/app/service/xp.py:217-276 | With weights summing to one the total is at most base times multiplier and, for distinct spheres, misses it by less than their number |
| Xp.OnTheDeadline | backend/app/service/xp.py:105-160 | A task of one sphere gives ten a point on the deadline, twelve from a streak of five, fifteen from ten |
| Xp.AtTheEnds | backend/app/service/xp.py:118-140 | Five a point from half the deadline over, twenty at once |
| Xp.InBetween | backend/app/service/xp.py:105-140 | In between: the whole part of ten a point times two less the part of the deadline used |
| Xp.NoDeadline | backend/app/service/xp.py:118-140 | Without a deadline the days do not matter |
| Xp.Defaults | backend/app/service/xp.py:175-215 | A sphere without a name or weight counts as all of BACKEND |
| Xp.ProgressIsFloor | backend/app/service/xp.py:440-463 | Progress is the whole part of the percentage of the level that has been gained |
| Skills.XPService.GetXpThresholds | backend/app/service/base.py:333-352 | Levels 1 to 10, each with its threshold |
| Skills.XPService.GetLevelFromXp | backend/app/service/xp.py:278-301 | For any rising table of ten from 0, the scan returns the highest level whose threshold is reached |
| Skills.XPService.DistributeXp | backend/app/service/xp.py:175-215 | Each sphere's truncated share under its upper-case name; a repeated name keeps its place and takes the later share |
| Skills.XPService.CalculateTaskXp | backend/app/service/xp.py:217-276 | Base, time and streak bonus combined, then shared out over the spheres |
| Skills.XPService.UpdateXp | backend/app/service/xp.py:524-542 | At most 500 is added |
| Skills.XPService.UpdateLevel | backend/app/service/xp.py:544-565 | The level becomes that of the total |
| Skills.XPTransaction.GetOrCreateSkill | backend/app/service/transactions/xp.py:21-36 | A row as created if there was none, and an object of its own with what the row holds |
| Skills.XPTransaction.AddSphereXp | backend/app/service/transactions/xp.py:38-52 | The row is found or created again and left as it is; its level is reported |
| Skills.XPService.AddSphereXp | backend/app/service/xp.py:601-667 | The stored rows gain at most a new one, the copy gains what the cap allows, and level and flag are those the code compares |
| Skills.EveryRunOfUpdates | backend/app/service/xp.py:524-565 | Over any updates of one object at most 500 a call is added, the level is that of the total, and neither ever falls |
| Skills.EveryRunStoresNoXp | backend/app/service/xp.py:601-667 | Over every run of gains no stored row changes and every row created is as created |
| Skills.CopyColumns | backend/app/service/xp.py:465-565 | The copy, column by column: at most 500 a call and what is left of 500 after a gain on the same day is added; the date is set if anything was; what was gained today is never counted up; the streak stays |
| Skills.DayChangesAtMidnight | backend/app/service/xp.py:483-484 | Two moments count as one day exactly if no midnight lies between them |
| Skills.FallIsReported | backend/app/service/xp.py:643-654 | What a call reports is exactly a fall below the stored level |
| Skills.StreakNeverMoves | backend/app/service/xp.py:567-599 | A call leaves the streak of its copy as it was |
| Skills.RiseIsNotReported | backend/app/service/xp.py:634-667 | No call reports a rise in level; its copy rises exactly if what the call adds reaches the next threshold |
| Skills.DayHandsOut | backend/app/service/xp.py:465-503 | Each call of a day has all the room the stored row leaves, so what the copies gain stays within 500 for the day if and only if the calls, each cut off there, add up to no more |
| Skills.CapExceededOnCopies | backend/app/service/xp.py:465-503 | Two calls of 500 in one second hand out 1000 on copies and store 0 |
| Sse.ChannelRoundTrip | backend/app/core/sse/manager.py:50 | A user's channel is read back as that user, for every integer id |
| Sse.StepKeepsInv | backend/app/core/sse/manager.py:29-113 | Every step of any connect, disconnect, publish half, relay half or read keeps queues bounded and owned, the wire sound, and what a message has had plus what it may still get at two |
| Sse.EveryRunDelivers | backend/app/core/sse/manager.py:29-113 | In every interleaving a queue waits with at most 100 messages, has only ever held its own user's, and over all queues no message is put more than twice, or more than once if published without Redis |
| SseTheorems.StepGrowsQueues | backend/app/core/sse/manager.py:43-113 | Every step leaves what a queue held as a prefix, adds at most one message, and only at the end |
| SseTheorems.RunGrowsQueues | backend/app/core/sse/manager.py:43-113 | Over every run what a queue has held and what has been read only grows |
| SseTheorems.StepKeepsOrder | backend/app/core/sse/manager.py:43-113 | What waits in a queue after a step: a message put comes last, a read takes the oldest, nothing else touches it |
| SseTheorems.StepKeepsWireOrder | backend/app/core/sse/manager.py:101-113 | Redis likewise: a publish adds at the end, the listener takes the first |
| SseTheorems.ConnectionsChange | backend/app/core/sse/manager.py:29-41 | Connecting again keeps the queue, a new connection starts with nothing waiting, and no other user is touched |
| SseTheorems.ReceiveGoesToOwner | backend/app/core/sse/manager.py:101-113 | A message off the wire waits for its user's queue, and is dropped exactly if the user is not connected |
| SseTheorems.CanBePutIff | backend/app/core/sse/manager.py:43-60 | From every reachable state a message can come to be put n times if and only if n is at most what it has had plus its open halves |
| SseTheorems.NewMessage | backend/app/core/sse/manager.py:49-55 | A message just published has two puts ahead of it with Redis, one without |
| SseTheorems.TwiceIsReachable | backend/app/core/sse/manager.py:49-55 | A run in which a connected user gets a message twice |
| SseTheorems.FullQueueStallsListener | backend/app/core/sse/manager.py:101-113 | While the reader of a full queue the listener waits on does not read, no run takes any message off the wire, for any user |
| SseTheorems.MovesOnIffRoom | backend/app/core/sse/manager.py:101-113 | From every reachable state in which the listener waits, it can come to move on without that reader if and only if the queue has room |
| SseTheorems.StallIsReachable | backend/app/core/sse/manager.py:107-113 | Every user can bring such a hold-up about: a hundred messages not read, and one more through Redis |
| Sse.SSEManager.Connect | backend/app/core/sse/manager.py:29-35 | A connected user gets the queue it has, another a new empty one |
| Sse.SSEManager.Disconnect | backend/app/core/sse/manager.py:37-41 | The user is no longer connected; the queue stays with whoever reads it |
| Sse.SSEManager.BeginPublish | backend/app/core/sse/manager.py:47-50 | The message goes out on the user's channel if Redis is there |
| Sse.SSEManager.EndPublish | backend/app/core/sse/manager.py:52-60 | The local put, dropped when the queue is full; false exactly in that case |
| Sse.SSEManager.ReceiveMessage | backend/app/core/sse/manager.py:107-112 | The next message comes off the wire, and is dropped unless its user is connected |
| Sse.SSEManager.RelayMessage | backend/app/core/sse/manager.py:113 | The waiting message is put once there is room |

## Left out

- A second outbox worker: with row read and index write apart, a stale write could land after a newer event has completed.
- Failures of a status commit, per-item errors in a bulk response (the code ignores them), and the identity map of the worker's session.
- The task that indexes everything in bulk (`backend/app/service/outbox.py:211-247`), and the services' own index calls after a commit.
- Document fields copied from other rows (a task's group name, a comment's task title and user name): no event is written when the other row changes.
- OutboxDrain.DrainedIndex: for a deactivated row it takes the events of an entity to have rising stamps; two events with one stamp may be handled in either order.
- Reindex.ReindexService.ReindexModel: the table does not change during the run and is listed in one stable order; a database error while fetching is not modelled.
- GroupTransactions.ApproveRequest: between the commit of its second unit of work and its own, only the commit itself could fail; commits do not fail in this model.
- OutboxTheorems.BatchIsRun: nothing else commits while the batch runs; with commits in between, the protocol speaks for the job step by step.
- OutboxWorker.OutboxService.MarkCompleted: does not set `processed_at`, which no job reads.
- OutboxWorker.OutboxService.MarkFailed: does not keep the error text, which no job reads.
- Reindex.Session.FetchBatch: does not model a database error, which ends the run.
- Reindex.ElasticsearchIndexer.BulkIndex: does not model errors of single items in a successful response, which the code logs and counts as indexed.
- TransactionRuns.OnlyCommittedCount: rollback is by definition there; that the unit of work achieves it is in TransactionService.Service.Serve.
- Skills.XPService.AddSphereXp: a call happens at one moment, so midnight does not fall between its two looks at the cap.
- TaskTransactions.ApproveRequest: for a request without a task id the query for the task is unfiltered; the call always ends in an error, and the model does not tell which.
- Leaving a task or being removed from it, with the cleanup of ASSIGNEE rows: the deletion is not flushed before the query that follows it.
- Explicit nulls in update payloads, visibility, level and other columns no rule looks at, which one text stands for.
- Failures of the notification service after the commit, which only delay or lose notices.
- WholeService.ServiceIsSynchronised: does not speak for a user created on the command line, who is stored without an outbox row (`backend/app/cli/manage.py:41-59`).
- Deletion by an administrator: its count query does not end and it writes no outbox row.
- TransactionBase.GrantRoleIfNotExists: roles that are missing from the role table, and role rows for a task, are not modelled; creating a task adds its ASSIGNEE row directly.
- CacheKey.KeyBuilder.Build: id keys (`backend/app/cache/key_builder.py:161-190`) and the area inferred from a module name are not modelled.
- Collisions of hashed keys: the digest is any function.
- Xp.TaskXpInRange: the code computes with floating point; the model is exact, so a share that rounds to just below an integer may be one less in the code.
- Leaderboards, titles and the thawing of frozen skills.
- Sse.EveryRunDelivers: Redis is taken to relay a message at most once and in order; starting and stopping the manager are not modelled.
- Endpoints, search queries, configuration, metrics, scheduling, tokens, permissions and migrations: they wrap libraries or hold no state of their own.
