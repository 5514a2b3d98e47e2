# A verified model of a conversation platform

A Dafny 4.11 model of the parts of a multi-tenant messaging platform whose correctness depends on
interleavings, on bulk updates or on hand-written loops. `dafny verify dfyconfig.toml` checks it.

* **Cards in ClickUp** (`CardCreation`, `CardInvariant`, `CardSteps`, `CardTheorems`, `CardHistory`, `CardService`,
  `CardRetry`, `CardOutcomes`):
  `createTask`, `createWorkbenchTask` and `bindWorkbenchTask` as one protocol of many calls over a remote
  board, a receipt store, a lock store and a table of conversation anchors. Every awaited effect is a step
  that succeeds, fails without effect, or takes effect and loses its reply; calls crash between any two of
  them. `CardService` is the same as straight-line code with interference at every await.
* **Comments** (`Comments`, `CommentService`, `CommentGap`): incorporating a message, guarded by a marker in the text.
* **Locks** (`LockStore`): the in-memory queue and the Redis lease behind those protocols.
* **Kanban** (`Kanban`, `KanbanBoard`, `KanbanRaces`): range shifts of integer orders against list surgery.
* **E-mail HTML** (`EmailHtml`, `EmailCleanup`, `EmailOutput`): the tag walker, the passes after it, and what
  they write.
* **Agents** (`AgentTree`, `AgentService`, `AgentClone`, `AgentForest`, `AgentCycles`): the hierarchy, its bounded cycle
  check, and its copy into another organization.
* **Dossiers** (`Dossier`, `DossierService`, `DossierBranches`, `DossierRemoval`,
  `DossierRaces`): the bulk filter against the
  lookup of one conversation, the filter's two branches, and lookups that overlap with a removal.
* **Limiters** (`Throttle`), **human approval** (`Confirmation`, `ConfirmationTheorems`,
  `ConfirmationLimits`, `ConfirmationService`), **round-robin** (`RoundRobin`), **remote pages** (`Pagination`), **daily series**
  (`Dashboard`).

`Options` and `Ids` are shared helpers.

## Assumptions of the card protocol

* The holder of a lock finishes, or is declared dead, within its lease; `LockStore` shows what the lease
  itself gives.
* A POST that timed out lands before its caller's lock is given up, or never.
* Reading a list of the board gives all its tasks at that moment, and the board keeps the phone of a new
  card or loses it, but never changes it.
* The profile sets no tag. The index skips cards without the configured tag
  (`src/modules/clickup-inbox/clickup-match.service.ts:74`) and creation sets none.
* Nobody else creates, deletes or rephones cards; other endpoints may move anchors at any time.
* One authorized organization (`src/modules/clickup-inbox/clickup-inbox.service.ts:494-498`), phones in
  canonical form.

## Where the code does not give what it says

* **Receipts can be orphaned.** If, once the receipt is done, a compensating delete loses its reply, if the clear
  after it fails, or if the call dies between the two, a done receipt is left for a card that is gone;
  while it lives every call with that key fails (`DanglingRetryAnchorsToNothing`). `CardHistory` gives the
  exact condition over the events of a run, and `OrphanIsReachable` such a run.
* **The workbench posts again.** Unlike `createTask` it never looks for the task of an earlier attempt
  (`WorkbenchRetryPostsAgain`, `WorkbenchStrayIsReachable`).
* **Comments beyond the 40 that are read are not seen**, so a message can be incorporated twice
  (`PostsAgainExactlyWhenHidden`, `HiddenCommentIsPostedAgain`).
* **`PendingActionStorage.save` takes the previous status and ignores it, and the executor writes its
  outcome without looking.** Terminal statuses are lost by either (`TerminalLostExactly`,
  `RejectionIsOverwritten`, `ExecutorOverwritesRejection`) and a tool can run twice (`ToolRunsTwice`), never
  more often than approvals are saved (`RunsAtMostApprovals`). A stale rejection or expiry also erases the
  approver, and with it every run still queued, unless one more approval is saved (`ErasedApproverStops`). With a compare-and-set none of this
  happens.
* **A failed execution stays APPROVED** in the code, where the comment of the executor
  (`src/modules/ai-agents/confirmations/pending-action-executor.processor.ts:34-35`) says PENDING. The model follows the code.
* **The cycle check sees 50 ancestors, and before the write.** Beyond 51 live agents a cycle can be closed
  (`LongLineClosesExactly`), and an update checked on an older table closes one at any size
  (`StaleUpdateClosesExactly`).
* **Cloning again can close a cycle**, with two agents of one name (`NamesakesCloseACycle`) and also with
  distinct names, when the clones were re-parented in between (`TurnedClonesCloseACycle`);
  `CloneKeepsAcyclicExactly` says when.
* **`moveCard` and `createCard` read outside their write.** `KanbanRaces` says exactly when that leaves two
  cards with one order.
* **The filter of dossiers without a kind** goes by any link instead of the newest one, by rows instead of
  what they show, and by no JID. `DossierBranches` says exactly which conversations it returns too many or
  misses, with databases for it (`OlderLinkIsFound`, `FormerMemberIsFound`, `DeletedConversationIsFound`,
  `DefaultStatusIsMissed`, `UnlinkedGroupIsMissed`).
* **A removed dossier can come back**, by the link of a lookup that read before the removal
  (`RemovedComesBackExactly`).
* **Page signatures** are ids joined by bars. They tell pages apart as long as no id has a bar
  (`SameSignatureExactly`), and every id that has one clashes (`BarredIdClashes`).
* **The wrapper sweep of e-mails is no fixed point** (`SecondSweepChangesExactly`).

## Model

| member | source | states |
|---|---|---|
| CardTheorems.OneCardPerPhone | src/modules/clickup-inbox/clickup-inbox.service.ts:346-451 | In every run of any number of calls, keys and conversations, with lost replies, timed-out POSTs that land later, failed compensations and crashes, a phone never gets a second live card (it keeps at most the ones people had put there before). |
| CardTheorems.ReturnedCardStays | src/modules/clickup-inbox/clickup-inbox.service.ts:405-445 | A card that createTask has returned is live for its phone in every later state. |
| CardTheorems.OneAnswerPerPhone | src/modules/clickup-inbox/clickup-inbox.service.ts:351-445 | All successful calls for one phone return the same card, whatever their keys and conversations, also after receipts have expired. |
| CardTheorems.ScopesAreExclusive | src/modules/clickup-inbox/clickup-inbox.service.ts:346-349 | No two calls are past the lock of one phone or conversation at the same time. |
| CardHistory.DoneReceiptNamesLiveCard | src/modules/clickup-inbox/clickup-inbox.service.ts:352-443 | In every reachable state the done receipt of a phone names a live card of that phone exactly when the run has not orphaned it: no compensating delete of that slot took effect while the receipt was done for the card with the receipt neither written, cleared nor expired since. |
| CardHistory.OrphansComeFromBreaks | src/modules/clickup-inbox/clickup-inbox.service.ts:420-443 | With the lock free, an orphaned receipt goes back to a compensation of its slot that broke: a delete that lost its reply, a clear that failed, or a call that died between the two. |
| CardHistory.PostedExactly | src/modules/clickup-inbox/clickup-inbox.service.ts:766-813 | The tasks of a scope and key on the board are exactly those that its calls created, or had land late, and that no effective delete removed since. |
| CardTheorems.SuccessIsFinal | src/modules/clickup-inbox/clickup-inbox.service.ts:352-363 | After a success for a scope and key, while the receipt lives, no call with that scope and key issues another POST or computes another task; for createTask, the workbench and the binding alike. |
| CardTheorems.GrowsOnlyFromNone | src/modules/clickup-inbox/clickup-inbox.service.ts:372-405 | One step adds a live card for a phone only when that phone had none, and then just one. |
| CardTheorems.AckedStays | src/modules/clickup-inbox/clickup-inbox.service.ts:420-445 | Whatever follows, an acknowledged receipt keeps its task until the receipt ends. |
| CardSteps.StepKeeps | src/modules/clickup-inbox/clickup-inbox.service.ts:328-453 | Every step of every call, crash, late POST, lease end and foreign anchor move keeps the protocol invariant. |
| CardSteps.RunKeeps | src/modules/clickup-inbox/clickup-inbox.service.ts:328-453 | Hence every run keeps it. |
| CardSteps.DeletedKeeps | src/modules/clickup-inbox/clickup-inbox.service.ts:420-443 | A compensating delete removes nobody else's card, contradicts no acknowledged answer and leaves the invariant intact. |
| CardRetry.RetryFindsTheOneCard | src/modules/clickup-inbox/clickup-inbox.service.ts:352-445 | From every reachable state a failure-free createTask on an unanchored conversation succeeds exactly when its receipt is done and not orphaned, or pending, or the phone has no card; then the conversation is anchored to the one live card of the phone. |
| CardRetry.DanglingRetryAnchorsToNothing | src/modules/clickup-inbox/clickup-inbox.service.ts:352-363 | Under an orphaned receipt a retry fails, on any conversation; one without an anchor ends anchored to a card that is gone, one with an anchor keeps it. |
| CardRetry.OrphanIsReachable | src/modules/clickup-inbox/clickup-inbox.service.ts:392-443 | For every call a run from the empty world orphans its receipt and frees the lock: the card is posted and finalized, the anchor fails, the delete takes effect and loses its reply. |
| CardRetry.WorkbenchRetryPostsAgain | src/modules/clickup-inbox/clickup-inbox.service.ts:766-813 | The workbench has no rematch: after any run, a failure-free retry without a done receipt posts a new task, and the key ends with one task exactly when no call of the run left one behind. |
| CardRetry.WorkbenchStrayIsReachable | src/modules/clickup-inbox/clickup-inbox.service.ts:778-792 | A concrete run in which a timed-out workbench POST lands and leaves such a task behind a free lock. |
| CardOutcomes.CreateTaskRepeats | src/modules/clickup-inbox/clickup-inbox.service.ts:352-363 | Calm, under a done receipt: the call succeeds with its task exactly when that is still on an indexed list with the phone, and anchors a free conversation to it. |
| CardOutcomes.CreateTaskRefuses | src/modules/clickup-inbox/clickup-inbox.service.ts:365-370 | Calm, without one: an anchored conversation is refused unless the switch is confirmed, and a failure changes nothing. |
| CardOutcomes.CreateTaskPosts | src/modules/clickup-inbox/clickup-inbox.service.ts:390-445 | Otherwise a phone without a card gets exactly one new card, on the primary list, with the phone, a done receipt under phone and key, and the anchor. |
| CardOutcomes.CreateTaskTakesOver | src/modules/clickup-inbox/clickup-inbox.service.ts:372-390 | And a phone with cards gets none: its one card is taken over under a pending receipt; without a receipt, or with several cards, the call is refused. |
| CardOutcomes.CreateWorkbenchTaskDecides | src/modules/clickup-inbox/clickup-inbox.service.ts:724-824 | Calm: the task is created on the very list asked for, without a phone, under the conversation's own scope and the key, if the list is authorized and the conversation free or the switch confirmed; a done receipt is answered from. |
| CardOutcomes.BindWorkbenchTaskDecides | src/modules/clickup-inbox/clickup-inbox.service.ts:656-722 | Calm: a conversation that has the task is answered from the board; another anchor needs the switch confirmed; the task has to be on an authorized list. |
| CardOutcomes.TasksAreAsAsked | src/modules/clickup-inbox/clickup-inbox.service.ts:398-416 | Over every run: the task a call is about to finalize or anchor stands on the list it was asked for (the primary one for createTask), with the phone it was asked for. |
| CardOutcomes.FailureLeavesNoCard | src/modules/clickup-inbox/clickup-inbox.service.ts:405-443 | Over every run: a call that posted a card and fails has taken it off the board, whatever of receipt or anchor failed, unless it died or could not read, delete or show the card. |
| CardOutcomes.ReceiptRemembers | src/modules/clickup-inbox/clickup-inbox-w2.store.ts:140-148 | Over every run: unless it expired or was cleared, the receipt of a key is there for every task a call of the key left on the board, also one that landed late. |
| CardOutcomes.RetryTakesOver | src/modules/clickup-inbox/clickup-inbox.service.ts:372-388 | Hence a calm retry returns the very card an earlier attempt of its key left, and posts no other. |
| CardOutcomes.LateCardIsTakenOver | src/modules/clickup-inbox/clickup-inbox.service.ts:372-402 | A run for every call: the POST times out, the card lands, the lock is free; every calm retry of the key returns that card. |
| CardService.TaskService.CreateTask | src/modules/clickup-inbox/clickup-inbox.service.ts:328-453 | A returned card is live whatever interferes; with no failure and no interference the call does exactly what the branch for receipt, anchor and match promises. (That each execution is a run of the protocol holds by the construction of its steps.) |
| CardService.TaskService.CreateTaskLocked | src/modules/clickup-inbox/clickup-inbox.service.ts:352-445 | The part under the lock: answer from a done receipt, refuse a second anchor, rebuild the index, adopt the one match of a pending key, refuse any other match, or post and anchor. |
| CardService.TaskService.PostAndAnchor | src/modules/clickup-inbox/clickup-inbox.service.ts:392-445 | From beginReceipt to the anchor: with no failure exactly one fresh card, its receipt and its anchor are left; otherwise a POST in flight is what may still land. |
| CardService.TaskService.Rebuild | src/modules/clickup-inbox/clickup-match.service.ts:68-94 | The list-by-list rebuild returns exactly the live cards of the phone at the moment it ends. |
| CardService.TaskService.Compensate | src/modules/clickup-inbox/clickup-inbox.service.ts:420-443 | Delete, then clear the receipt; whatever fails, the call goes on to release its lock. |
| CardService.TaskService.CreateWorkbenchTask | src/modules/clickup-inbox/clickup-inbox.service.ts:724-824 | An unauthorized list is refused before the lock; alone and without failures a done receipt is repeated, a refused call changes nothing, and otherwise exactly one task is created and anchored. (A run of the protocol by construction.) |
| CardService.TaskService.BindWorkbenchTask | src/modules/clickup-inbox/clickup-inbox.service.ts:656-722 | Before the lock, a conversation bound to the task already is answered with one read and a refused one fails; behind it, alone and without failures, the conversation is anchored to the given task and the receipt names it, or nothing changes. (A run of the protocol by construction.) |
| CardService.TaskService.AnchorAndShow | src/modules/clickup-inbox/clickup-inbox.service.ts:352-363 | Answering from a receipt anchors the conversation only if it has no anchor, and reports the task only if the reread card passes the checks. |
| Comments.OncePerMessageAndTask | src/modules/clickup-inbox/clickup-inbox.service.ts:826-882 | Over all keys, retries, lost replies and crashes a message becomes at most one comment of a task, as long as no listing misses an incorporated comment. |
| Comments.ShortThreadsAreSeen | src/modules/clickup-inbox/clickup-inbox-http.client.ts:366-375 | No listing misses one while threads have at most 40 comments. |
| Comments.PostsAgainExactlyWhenHidden | src/modules/clickup-inbox/clickup-inbox.service.ts:934-979 | The exact gap: a listing lets a second comment through if and only if the first is beyond the 40 that are read and none of those carries the marker. |
| CommentGap.HiddenCommentIsPostedAgain | src/modules/clickup-inbox/clickup-inbox.service.ts:826-979 | A run from the empty world that gets there: a message is incorporated, 40 comments of others follow, the message comes again under another key, and the task ends with two comments of it. |
| Comments.StepKeeps | src/modules/clickup-inbox/clickup-inbox.service.ts:826-979 | Every step of a call, of other people and of the clock keeps the comment invariant. |
| Comments.FindMarkIsFirst | src/modules/clickup-inbox/clickup-inbox.service.ts:946-957 | The search returns the first listed comment whose text contains the marker, and nothing exactly when none does. |
| CommentService.CommentService.IncorporateComment | src/modules/clickup-inbox/clickup-inbox.service.ts:826-882 | With no failure the answer is the receipt's, the first marked comment's, or that of exactly one new comment. (That each execution is a run of the protocol holds by the construction of its steps.) |
| CommentService.MarkedIsTakenOver | src/modules/clickup-inbox/clickup-inbox.service.ts:934-957 | Calm: the first of the 40 listed comments with the marker is taken over, its receipt done, and no comment added. |
| CommentService.UnmarkedIsPosted | src/modules/clickup-inbox/clickup-inbox.service.ts:958-979 | Calm: with none of the 40 marked exactly one comment of the message is added to that thread, its receipt done if a listing of 40 shows it and else pending. |
| CommentService.CommentService.PostAndConfirm | src/modules/clickup-inbox/clickup-inbox.service.ts:958-979 | Posts one comment and confirms it only if the next listing shows it. |
| LockStore.MemoryLock.Join | src/modules/clickup-inbox/clickup-inbox-w2.store.ts:108-121 | A waiting call goes to the end of the chain and changes nothing else. |
| LockStore.MemoryLock.Take | src/modules/clickup-inbox/clickup-inbox-w2.store.ts:108-125 | A ticket takes the lock only when it is free, and tickets are granted in the order in which they joined. |
| LockStore.MemoryLock.Release | src/modules/clickup-inbox/clickup-inbox-w2.store.ts:127-132 | Only the current token releases; any other token changes nothing. |
| LockStore.MemoryLock.NextIsFirst | src/modules/clickup-inbox/clickup-inbox-w2.store.ts:108-125 | With the lock free exactly the longest waiting ticket may take it. |
| LockStore.RedisLock.SetNx | src/modules/clickup-inbox/clickup-inbox-w2.store.ts:192-202 | A lease is granted exactly when no unexpired lease is held, and leases of a key never overlap. |
| LockStore.RedisLock.DelIfEqual | src/modules/clickup-inbox/clickup-inbox-w2.store.ts:204-219 | A release with a token that is not the current one changes nothing. |
| LockStore.RedisLock.OldTokenIsNotCurrent | src/modules/clickup-inbox/clickup-inbox-w2.store.ts:204-219 | The token of a lease that is over is never the current one, so a late release frees nobody. |
| LockStore.RedisLock.Acquire | src/modules/clickup-inbox/clickup-inbox-w2.store.ts:192-202 | While others take and release the lock in every pause, the loop either ends with a fresh lease of its own within ten seconds, or gives up after them with none of its tokens ever granted. |
| Kanban.MovedIsMove | src/modules/pipelines/pipelines.service.ts:437-494 | The bulk range updates of a move put the card at the index and shift exactly the cards between, one place each, and touch no other stage. |
| Kanban.MoveWithinColumn | src/modules/pipelines/pipelines.service.ts:438-465 | On a dense column a move within it is remove-at followed by insert-at. |
| Kanban.MoveAcrossColumns | src/modules/pipelines/pipelines.service.ts:466-494 | Between dense columns the card is removed from one list and inserted into the other, and both stay dense. |
| Kanban.MoveKeepsOthersInOrder | src/modules/pipelines/pipelines.service.ts:437-494 | The other cards of a stage keep their relative order, for any index and with gaps. |
| Kanban.MoveLeavesOtherColumns | src/modules/pipelines/pipelines.service.ts:437-494 | Columns a move does not name are the same list afterwards. |
| Kanban.MoveIsDenseExactlyWhenIndexFits | src/modules/pipelines/pipelines.service.ts:437-494 | The target column is dense after a move exactly when the index lies within it (or at its end, coming from another column). |
| Kanban.MoveKeepsDistinct | src/modules/pipelines/pipelines.service.ts:437-494 | Distinct orders survive a move to any integer index, also when removals have left gaps. |
| KanbanBoard.Board.CreateCard | src/modules/pipelines/pipelines.service.ts:243-342 | Refuses in exactly the listed cases and then changes nothing; otherwise adds one card at one past the largest order of the chosen or first stage; the board stays sound. |
| KanbanBoard.Board.RemoveCard | src/modules/pipelines/pipelines.service.ts:386-396 | Removes exactly the card of the caller's organization, and is the only operation by which a card disappears. |
| KanbanBoard.Board.MoveCard | src/modules/pipelines/pipelines.service.ts:404-512 | The statements of the transaction, in order, amount to a move; a drop in place writes nothing; the card is won, lost or open as its stage is, and closed now, or when it was before, exactly off an ordinary stage; the board stays sound. |
| KanbanBoard.Board.UpsertStages | src/modules/pipelines/pipelines.service.ts:176-239 | Refuses unknown ids and orphans with cards; otherwise the pipeline has exactly the stages written, later entries winning, other pipelines are untouched, and every card keeps a stage of its own pipeline. |
| KanbanRaces.StaleMoveKeepsDistinctExactly | src/modules/pipelines/pipelines.service.ts:404-494 | moveCard reads its card before the transaction: with a stale read the orders stay distinct exactly when the remembered place was not retaken next to an occupied one. |
| KanbanRaces.TwoMovesCollide | src/modules/pipelines/pipelines.service.ts:404-494 | A concrete pair of moves of one card that leaves two others with the same order. |
| KanbanRaces.StaleCreateCollidesExactly | src/modules/pipelines/pipelines.service.ts:301-329 | createCard inserts one past the largest order it read: whatever operations run in between, two cards end on one order exactly when one of them brought a card to that very place, by creating, moving or shifting it, and it stayed. |
| KanbanRaces.TwoCreatesCollide | src/modules/pipelines/pipelines.service.ts:301-329 | Two createCard calls that both read before either inserts always end on the same order. |
| EmailHtml.Walk | src/modules/email/email-html.util.ts:317-445 | The loop over the matches with its stack of open tags computes the stack machine. |
| EmailHtml.WalkedIsNested | src/modules/email/email-html.util.ts:340-445 | For every input stream the output is well nested: every tag is closed in turn, and all are closed at the end. |
| EmailHtml.WellNestedExactlyWhenRendered | src/modules/email/email-html.util.ts:317-445 | Well nested, as checked with a stack, is the same as being the rendering of some document tree. |
| EmailHtml.WalkedIsAllowed | src/modules/email/email-html.util.ts:338-349 | Only tags that the allowlist admits go out, for any allowlist. |
| EmailHtml.WalkedKeepsContent | src/modules/email/email-html.util.ts:317-445 | Texts and opening tags go out once each, in input order, each decided on its own, however badly the input is nested. |
| EmailHtml.LeftAloneExactlyWhenClean | src/modules/email/email-html.util.ts:317-445 | The walker is the identity on a stream if and only if the stream is well nested and each part is accepted as it stands. |
| EmailHtml.LastIndex | src/modules/email/email-html.util.ts:341-347 | A closing tag closes through the innermost open tag of its name, or nothing. |
| EmailOutput.TextsGoOutEscaped | src/modules/email/email-html.util.ts:325-336 | The texts written are, in order, exactly those of the input that are no noise, each escaped. |
| EmailOutput.TextsHaveNoMarkup | src/modules/email/email-html.util.ts:79-85 | With the escaping in use none of them has an angle bracket or a double quote. |
| EmailOutput.EachTagGoesOut | src/modules/email/email-html.util.ts:338-437 | Wherever an opening tag stands, in upper or lower case, it goes out once as br or hr without attributes, img with safe attributes in Display only, a with safe attributes or not at all, anything else with layout attributes in Display and none in Compose; and not at all off the allowlist. |
| EmailOutput.NothingActiveGoesOut | src/modules/email/email-html.util.ts:9-57 | No script, style, iframe, object or form ever goes out, and no image or table from a composed message. |
| EmailCleanup.SanitizedIsSafe | src/modules/email/email-html.util.ts:304-448 | After noise texts and empty wrappers are removed and the ends trimmed, the result is still the rendering of a document with allowlisted tags only. |
| EmailCleanup.OnlyListedTags | src/modules/email/email-html.util.ts:9-57 | With the allowlists in use no other tag ever goes out. |
| EmailCleanup.Sanitize | src/modules/email/email-html.util.ts:304-448 | The whole sanitizer, walker and final passes, meets that. |
| EmailCleanup.CleanedKeepsNesting | src/modules/email/email-html.util.ts:263-299 | The final passes keep a well-nested stream well nested and invent no tag. |
| EmailCleanup.NoNoiseBetweenTags | src/modules/email/email-html.util.ts:266-296 | After the text sweep no text between two tags, and no text that starts the message, is noise. |
| EmailOutput.PlainTextsStay | src/modules/email/email-html.util.ts:266-296 | And nothing else is dropped: a stream whose texts are no noise keeps every text, without its doctypes. |
| EmailOutput.LastTextStays | src/modules/email/email-html.util.ts:266-296 | A text behind the last tag stays, noise or not. |
| EmailOutput.MergedIsJoined | src/modules/email/email-html.util.ts:448 | Joining the output loses, repeats and moves no character and no tag. |
| EmailOutput.EndsAreTrimmed | src/modules/email/email-html.util.ts:448 | The result neither starts nor ends with text that trimming would shorten. |
| EmailCleanup.SecondSweepChangesExactly | src/modules/email/email-html.util.ts:297-299 | The wrapper sweep is no fixed point: for every stream, a second sweep changes its result exactly when some wrapper element, not empty itself, held nothing but blank text and empty wrappers. |
| EmailOutput.WrappersLeftExactly | src/modules/email/email-html.util.ts:297-299 | After the passes an empty wrapper is left exactly where an element held only blank text and empty wrappers before the sweep. |
| EmailOutput.BlankElementGoesExactly | src/modules/email/email-html.util.ts:298 | An element with nothing but blank text becomes a space exactly if it is a div, span, p, font or center. |
| EmailCleanup.HollowIsReachable | src/modules/email/email-html.util.ts:263-299 | Such streams come out of the walker: one wrapper inside another, for any two wrapper tags the allowlist admits. |
| EmailCleanup.CleanMessageStays | src/modules/email/email-html.util.ts:263-445 | The whole sanitizer returns a message as it is when it is well nested, its parts are accepted, no text is noise, no wrapper is empty and its ends are trimmed. |
| AgentTree.IsDescendantOf | src/modules/ai-agents/agents/agents.service.ts:165-186 | The loop terminates on any table and finds the agent exactly when it is among the 50 nearest ancestors, also on a graph that already has cycles. |
| AgentTree.NewParentClosesExactly | src/modules/ai-agents/agents/agents.service.ts:77-99 | A new parent closes a cycle exactly when the agent is the parent or one of its ancestors, at any distance. |
| AgentTree.SmallOrgIsNear | src/modules/ai-agents/agents/agents.service.ts:165-186 | With at most 51 live agents every ancestor lies within the 50 steps. |
| AgentService.KeepsAcyclicExactly | src/modules/ai-agents/agents/agents.service.ts:77-99 | An operation keeps an acyclic hierarchy acyclic exactly unless it is an accepted update that closes a cycle beyond the 50 steps. |
| AgentService.EveryRunIsAcyclic | src/modules/ai-agents/agents/agents.service.ts:17-194 | Every run of create, update and soft delete keeps the hierarchy of an organization with at most 51 live agents acyclic. |
| AgentService.LongLineClosesExactly | src/modules/ai-agents/agents/agents.service.ts:165-186 | Putting the top of a line of n agents under its bottom is accepted, and closes a cycle, exactly when n is more than 51. |
| AgentService.LineIsReachable | src/modules/ai-agents/agents/agents.service.ts:17-46 | Such lines come about by creating agents one below the other. |
| AgentService.StaleUpdateClosesExactly | src/modules/ai-agents/agents/agents.service.ts:77-144 | updateAgent checks before it writes: an update accepted on an earlier table, with any operations in between, closes a cycle exactly when its agent still lives and was above the new parent from the start, too far up to be seen, or was put there by one of the updates in between, and stayed there. |
| AgentService.CrossedUpdatesCloseACycle | src/modules/ai-agents/agents/agents.service.ts:77-144 | Any two updates that put two agents under each other, both accepted on the same table, close a cycle of two, wherever else the agents stand. |
| AgentService.Service.CreateAgent | src/modules/ai-agents/agents/agents.service.ts:17-46 | Refuses a parent that is not a live agent of the organization; otherwise adds one row; no cycle appears. |
| AgentService.Service.UpdateAgent | src/modules/ai-agents/agents/agents.service.ts:77-144 | Accepts and refuses exactly as specified, changes the parent only, and keeps a small hierarchy acyclic. |
| AgentService.Service.SoftDelete | src/modules/ai-agents/agents/agents.service.ts:188-194 | Marks one live agent as gone and nothing else; no cycle appears. |
| AgentClone.PlannedHas | src/modules/provisioning/agent-clone.planner.ts:156-166 | Every agent the filter selects is planned, and planned once. |
| AgentClone.PlannedExactly | src/modules/provisioning/agent-clone.planner.ts:118-166 | By value: the listed agents that are active, or all if inactive ones are wanted, and that meet kind, department and squad of some selector, without regard to case, if there are selectors. |
| AgentClone.PlannedInOrder | src/modules/provisioning/agent-clone.planner.ts:218-230 | Orchestrators come before workers, and each kind in the order it was read. |
| AgentClone.Provisioner.CloneAgents | src/modules/provisioning/tenant-provisioning.service.ts:332-454 | Missing source, unknown source and dry runs change nothing; otherwise matches, creations and parent updates are exactly those of the plan, and the report counts them. |
| AgentClone.Provisioner.CreateMissing | src/modules/provisioning/tenant-provisioning.service.ts:388-426 | Every planned agent without a match gets one new row: its source's fields, the new organization, no parent, and no pipelines unless they are to be kept; matched ones are skipped. |
| AgentClone.Provisioner.ComputeParentUpdates | src/modules/provisioning/agent-clone.planner.ts:251-267 | The loop lists one update per planned agent whose other-than-self parent was mapped too. |
| AgentForest.EdgesReparent | src/modules/provisioning/tenant-provisioning.service.ts:428-441 | If the mapped ids differ, applying the updates in order gives every mapped row its own edge and touches no other row. |
| AgentForest.FreshCloneIsIsomorphic | src/modules/provisioning/tenant-provisioning.service.ts:367-441 | In an organization without live agents the clone is isomorphic to the selected part of the source forest; agents whose parent was not selected become roots, and the source is unchanged. |
| AgentCycles.CloneKeepsAcyclicExactly | src/modules/provisioning/tenant-provisioning.service.ts:367-441 | Whatever the destination held and whichever agents share a name, a run leaves the destination acyclic exactly when a walk on the table before it never returns: the walk follows the kept parent of the last chosen agent that stands at a row, and the parent the row has now where none keeps one. |
| AgentForest.CloneKeepsAcyclic | src/modules/provisioning/agent-clone.planner.ts:251-267 | In particular from acyclic hierarchies cloning closes no cycle if the matched rows differ and matched roots are roots there. |
| AgentForest.FreshCloneIsAcyclic | src/modules/provisioning/agent-clone.planner.ts:251-267 | In particular a fresh organization gets an acyclic hierarchy. |
| AgentForest.SecondRunChangesNothing | src/modules/provisioning/tenant-provisioning.service.ts:367-441 | With distinct names and an unchanged source a second run finds every agent, creates none and leaves the table as it is. |
| AgentCycles.NamesakesCloseACycle | src/modules/provisioning/tenant-provisioning.service.ts:373-441 | Three agents in a line, the first and the last of one name, cloned twice in a row into a fresh organization: acyclic after the first run, a cycle of two after the second. |
| AgentCycles.TurnedClonesCloseACycle | src/modules/provisioning/tenant-provisioning.service.ts:373-441 | Two agents of different names, cloned, turned around by two accepted updates, and cloned again: acyclic before the second run, a cycle of two after it. |
| DossierService.BulkIsLookup | src/modules/projects/projects.service.ts:396-416 | The first-wins maps of the bulk filter hold, for every conversation, exactly the dossier that the single lookup finds. |
| DossierService.ProjectsService.ResolveFilter | src/modules/projects/projects.service.ts:392-423 | The filter with a kind returns exactly the conversations whose dossier exists and passes, and exactly their channels, under the stated assumptions on the rows. |
| DossierService.ProjectsService.ResolveByLinks | src/modules/projects/projects.service.ts:424-444 | The filter without a kind returns exactly the conversations with any link to a dossier whose row passes, dead ones included, and their channels. |
| DossierBranches.BranchesDifferExactly | src/modules/projects/projects.service.ts:392-444 | For every conversation: only the branch without a kind returns it exactly when it is gone but linked to a passing row, or an older link's row passes and its dossier does not, or its dossier's row passes on a responsible person or kind it does not show; only the other one exactly when it has a passing dossier by its group's JID alone, or one that passes on the default status with no older link that passes. |
| DossierBranches.MatchesExactly | src/modules/projects/projects.service.ts:413-420 | By value: the branch with a kind goes by the dossier the conversation resolves to: its kind, hoppe, status as shown, and responsible person if a member. |
| DossierBranches.OlderLinkIsFound | src/modules/projects/projects.service.ts:424-444 | A database: a conversation moved on to a dossier of another status is found by the status of the old one. |
| DossierBranches.UnlinkedGroupIsMissed | src/modules/projects/projects.service.ts:424-444 | A database: a group with a dossier by JID and no link yet is missed by the filter without a kind, even with no condition. |
| DossierService.ProjectsService.ReadForConversation | src/modules/projects/projects.service.ts:209-243 | Reads the newest linked dossier, else for a group the newest that names its JID, else none, and says whether the dossier is still to be linked. |
| DossierService.ProjectsService.GetForConversation | src/modules/projects/projects.service.ts:209-266 | With nobody in between its read and its write: a dossier found by JID is linked, and nothing else is written. |
| DossierService.AdoptionChangesNothing | src/modules/projects/projects.service.ts:233-243 | The link written by a lookup changes the outcome of no later lookup of any conversation. |
| Dossier.FirstLinkIsNewest | src/modules/projects/projects.service.ts:372-390 | First-wins over links listed newest first holds the newest link of each conversation. |
| Dossier.FirstNamedIsNewest | src/modules/projects/projects.service.ts:357-370 | First-wins over dossiers listed last-updated first holds the newest dossier of each JID. |
| Dossier.DerivedIsJoined | src/modules/segments/group-jid.util.ts:18-23 | What the derived JID of a group conversation names, the SQL join finds. |
| Dossier.JoinedIsDerived | src/modules/projects/projects.service.ts:48-57 | The join finds nothing else when a contact has one row per channel and the JID is a group's. |
| DossierService.ProjectsService.RemoveForConversation | src/modules/projects/projects.service.ts:290-329 | Picks the dossier asked for, or else the one the conversation resolves to, detaches it from the conversation or its whole group, drops its JID if it is the group's, soft-deletes it if nothing is left, and counts what it detached; refusals change nothing. |
| DossierService.RemovedIsGone | src/modules/projects/projects.service.ts:302-327 | Afterwards neither the conversation nor any live conversation of the same JID resolves to the removed dossier. |
| DossierService.OthersKeepTheirs | src/modules/projects/projects.service.ts:302-327 | Conversations that resolved to another dossier still do. |
| DossierRemoval.OutsidersKeepIt | src/modules/projects/projects.service.ts:311-327 | Conversations outside the group that resolved to the removed dossier still do. |
| DossierRemoval.LinksGoExactly | src/modules/projects/projects.service.ts:311-318 | Exactly the links between the dossier and the conversation, or its group, go. |
| DossierRemoval.LivesOnExactly | src/modules/projects/projects.service.ts:319-326 | The dossier is soft-deleted exactly when it has no task, no attachment, no link outside the group and no JID other than the group's. |
| DossierRemoval.GroupJidExactly | src/modules/segments/group-jid.util.ts:18-23 | The JID of a conversation is the external id of its contact on its channel, for groups, if it ends in @g.us. |
| DossierRaces.LookupsChangeNothing | src/modules/projects/projects.service.ts:209-266 | Any number of whole lookups, of any conversations and organizations, change what no conversation resolves to. |
| DossierRaces.LateLinkTakesExactly | src/modules/projects/projects.service.ts:238-241 | Written late on any database, the link of a lookup makes the dossier the conversation's exactly when both still exist and, if the link was there already, none is newer. |
| DossierRaces.RemovedComesBackExactly | src/modules/projects/projects.service.ts:233-329 | A lookup reads a dossier by JID, a removal and any whole lookups follow, and the lookup writes its link: the removed dossier is that conversation's again exactly when it had tasks, attachments or links outside the group, and no other conversation of the group has it. |
| DossierRaces.RemovedComesBack | src/modules/projects/projects.service.ts:233-329 | A database on which that happens. |
| Throttle.AtMostMaxPerWindow | src/modules/auth/auth-throttle.guard.ts:31-58 | In any closed interval of the window's length at most the maximum of attempts of one key is admitted. |
| Throttle.AdmitsExactly | src/modules/auth/auth-throttle.guard.ts:31-58 | An attempt is admitted exactly when the attempts of its key in its window, itself and refused ones included, are at most the maximum. |
| Throttle.AuthThrottleGuard.CanActivate | src/modules/auth/auth-throttle.guard.ts:28-59 | With a non-decreasing clock, pruning and the collection beyond 5000 keys, the guard decides exactly as one that remembers every attempt; after a collection every key is active. |
| Throttle.AuthThrottleGuard.Collected | src/modules/org-credentials/credential-test.throttle.guard.ts:43-47 | The collection loop drops exactly the keys without an attempt in the window, and loses nothing a later decision needs. |
| Throttle.WebhookThrottleGuard.CanActivate | src/modules/channel-hub/webhook-throttle.guard.ts:24-51 | The same for the guard that trims every key every 30 seconds. |
| Throttle.WebhookThrottleGuard.Trimmed | src/modules/channel-hub/webhook-throttle.guard.ts:37-44 | The trimming loop keeps exactly the attempts in the window and drops keys without any. |
| Throttle.Record | src/modules/auth/auth-throttle.guard.ts:34-36 | Pruning one key and recording the attempt keeps the guard's memory equal to the full history from the window on. |
| ConfirmationTheorems.TerminalLostExactly | src/modules/ai-agents/confirmations/pending-action.storage.ts:25-60 | As the storage is written, in any state at all, REJECTED, EXPIRED or EXECUTED is lost in a step exactly when the step is a stale save over it or an executor that writes another outcome over it (pending-action-executor.processor.ts, lines 88-94). |
| ConfirmationTheorems.TerminalStays | src/modules/ai-agents/confirmations/pending-action.storage.ts:25-60 | With a compare-and-set in save, or as long as no save has been stale, neither happens. |
| ConfirmationTheorems.TerminalIsFinal | src/modules/ai-agents/confirmations/pending-action.service.ts:78-217 | In any interleaving without stale saves terminal statuses are final. |
| ConfirmationTheorems.ToolRunsOnce | src/modules/ai-agents/confirmations/pending-action-executor.processor.ts:49-109 | Without stale saves a tool runs at most once, only for an approved action, and never for a rejected or expired one. |
| ConfirmationLimits.RunsAtMostApprovals | src/modules/ai-agents/confirmations/pending-action-executor.processor.ts:49-109 | In every run whatever, a tool runs at most as often as an approval of its action is saved, hence at most once more than there are stale approvals; stale rejections and expiries never make it run twice. |
| ConfirmationLimits.RunsAgainExactly | src/modules/ai-agents/confirmations/pending-action-executor.processor.ts:49-109 | Once an action is decided, also if rejected, expired or executed, its tool runs once more in some continuation exactly when an approval is about to be saved, an executor is about to run it, or the row names an approver, is or will be APPROVED, and a job is queued or about to be. |
| ConfirmationLimits.ErasedApproverStops | src/modules/ai-agents/confirmations/pending-action.storage.ts:48-59 | As written, every save writes the approver anew: a concrete run in which a stale rejection erases it, a failed executor writes APPROVED again, a job is queued, and the tool runs in no continuation. |
| ConfirmationLimits.SecondApprovalRunsTwice | src/modules/ai-agents/confirmations/pending-action.storage.ts:25-60 | From any state in which an approval is about to be saved and the action has run, or will, some continuation runs the tool twice. |
| ConfirmationTheorems.ApprovalsAreOnTime | src/modules/ai-agents/confirmations/pending-action.service.ts:78-100 | Every recorded approval goes back to a call that read the action pending and unexpired. |
| ConfirmationTheorems.CasIsNeverStale | src/modules/ai-agents/confirmations/pending-action.storage.ts:25-28 | If save compared the previous status, no run would have a stale save. |
| ConfirmationTheorems.RejectionIsOverwritten | src/modules/ai-agents/confirmations/pending-action.storage.ts:25-60 | As written: a concrete run in which a saved rejection is overwritten by an approval and the tool runs. |
| ConfirmationLimits.ExecutorOverwritesRejection | src/modules/ai-agents/confirmations/pending-action-executor.processor.ts:88-94 | As written: a concrete run in which the tool runs while the row is REJECTED, and the executor, not a save, writes EXECUTED over it. |
| ConfirmationTheorems.ToolRunsTwice | src/modules/ai-agents/confirmations/pending-action.storage.ts:25-60 | As written: a concrete run in which two approvals of one action make its tool run twice. |
| ConfirmationTheorems.FailedIsNotRetried | src/modules/ai-agents/confirmations/pending-action-executor.processor.ts:88-94 | After a failed run the row is APPROVED, no job is queued and no process carries the action; its tool has run once, then and in every later state of a run without stale saves. |
| Confirmation.StepKeeps | src/modules/ai-agents/confirmations/pending-action.service.ts:39-217 | Every step of approvers, rejecters, both sweeps and executors, other than a stale save, keeps the execution of an action in one place. |
| ConfirmationService.PendingActionService.CreateAction | src/modules/ai-agents/confirmations/pending-action.service.ts:39-69 | Adds one pending action with its expiry under an id never used. |
| ConfirmationService.PendingActionService.Approve | src/modules/ai-agents/confirmations/pending-action.service.ts:78-125 | Alone, it refuses unknown, decided and overdue actions (marking these EXPIRED) and otherwise marks the action APPROVED and queues one job. (That each execution is a run of the protocol holds by the construction of its steps.) |
| ConfirmationService.PendingActionService.Reject | src/modules/ai-agents/confirmations/pending-action.service.ts:130-172 | The same for a rejection, which also needs a reason. |
| ConfirmationService.PendingActionService.ExpireOverdue | src/modules/ai-agents/confirmations/pending-action.service.ts:200-217 | Alone, the sweep row by row comes to the same rows as the one-statement sweep, and returns how many it moved. |
| ConfirmationService.PendingActionService.ExpireOverdueActions | src/modules/ai-agents/confirmations/pending-action-executor.processor.ts:116-131 | Marks exactly the pending overdue actions EXPIRED. |
| ConfirmationService.PendingActionService.Process | src/modules/ai-agents/confirmations/pending-action-executor.processor.ts:49-109 | A delivered job runs the tool exactly when its action is APPROVED, names an approver and the approver is a member, and leaves EXECUTED or, on failure, APPROVED. |
| RoundRobin.ShareIsFair | src/modules/routing/router.service.ts:69-72 | Of any m consecutive cursor values each of n positions gets floor(m/n) or ceil(m/n). |
| RoundRobin.Router.AssignAll | src/modules/routing/router.service.ts:69-72 | However requests for different keys interleave, each key goes around its own fixed list and every agent gets a fair share. |
| RoundRobin.Router.Pick | src/modules/routing/router.service.ts:65-72 | No agents are refused without moving the cursor; otherwise the cursor's agent is picked and only that key's cursor moves by one. |
| Pagination.TasksOfList | src/modules/clickup-inbox/clickup-inbox-http.client.ts:209-238 | The loop stops within 10,001 requests; a complete list is as long as the pages read are together and has each task of each page at its place, so nothing is missing, doubled or moved. |
| Pagination.CompleteExactlyAtTheEnd | src/modules/clickup-inbox/clickup-inbox-http.client.ts:209-238 | Reading is complete exactly when the list has an end reached page by page within the limit, and then holds every page up to it; it is never cut short. |
| Pagination.FailsExactly | src/modules/clickup-inbox/clickup-inbox-http.client.ts:209-238 | A list that is not complete says why: a request that raised, a filled page with the signature of an earlier one, or pages that go on beyond the limit. |
| Pagination.SameSignatureExactly | src/modules/clickup-inbox/clickup-inbox-http.client.ts:220-226 | Signatures join ids by bars without quoting: of two filled pages without a bar in any id they are equal exactly when the ids are, in order. |
| Pagination.RepeatsExactly | src/modules/clickup-inbox/clickup-inbox-http.client.ts:220-226 | Hence on a board without bars in its ids a page is taken for a repetition exactly when an earlier page had the same ids in the same order. |
| Pagination.BarredIdClashes | src/modules/clickup-inbox/clickup-inbox-http.client.ts:220-226 | And every id with a bar, on whatever page, has another page that is taken for the same one: the page with two tasks in its place, split at the bar. |
| Dashboard.EachDay | src/modules/dashboard/dashboard.service.ts:328-339 | The loop over midnights lists every day from the first to the last, in order. |
| Dashboard.GetMessagesFlow | src/modules/dashboard/dashboard.service.ts:636-658 | One entry for each day of the range, in order: the numbers of inbound and of outbound messages whose time lies on that day. |
| Dashboard.SeriesAddsUp | src/modules/dashboard/dashboard.service.ts:636-658 | The series adds up to all rows fetched for the range: bucketing drops nothing. |
| Dashboard.GetKpiSparklines | src/modules/dashboard/dashboard.service.ts:169-224 | One point for each day: the conversations created, the average wait for a first response in minutes, the percentage answered within the limit and the percentage closed in the range, each counted from the rows and rounded to the nearest; rates lie in 0..100. |
| Dashboard.CreatedAddsUp | src/modules/dashboard/dashboard.service.ts:193-209 | The conversations created per day add up to the rows fetched. |

## Left out

- DossierService.ProjectsService.ResolveFilter: the agreement with the single lookup is stated for distinct timestamps, one row per contact and channel, channels of the conversation's organization, and dossier JIDs ending in `@g.us`.
- DossierRemoval.OutsidersKeepIt: stated for one row per contact and channel and channels of the conversation's organization; with two rows the join may detach a conversation of another group.
- KanbanBoard.Board.CreateCard: contact, conversation and member links and the title are two flags; titles, values and descriptions are not modelled.
- KanbanBoard.Board.MoveCard: one atomic step; reads that go stale are the subject of KanbanRaces.
- Comments.FindMarkIsFirst: markers are compared by containment in the source, so the marker of a message whose id is a prefix of another's also matches; a comment carries a set of markers for that reason.
- EmailHtml.Walk: starts from the matches of the tag expression; the characters they come from, the block stripping before it and the 200,000 character limit are not modelled, and the text heuristics and attribute filters are arbitrary functions.
- AgentForest.CloneKeepsAcyclic: one direction only; the exact condition is that of AgentCycles.CloneKeepsAcyclicExactly.
- AgentClone.Provisioner.CloneAgents: a mention handle already taken in the destination makes the database refuse the row; that failure is not modelled, and case folding is an arbitrary function.
- ConfirmationTheorems.ToolRunsOnce: each queued job is delivered once; redelivery of a stalled job is not modelled.
- RoundRobin.Router.AssignAll: the list of agents of a key is fixed; the choice between online and all active agents is made before it.
- Dashboard.GetKpiSparklines: quotients are exact rationals, not floating point.
- CardService.TaskService.CreateTask: the refusals before the lock (missing key, group, phone or name out of form) are not modelled; they change nothing.
- Concurrent database reads inside getForConversation, and all of removeForConversation, cloneAgents and upsertStages: each of these is one atomic step; between the reads of getForConversation and its write others do run (DossierRaces).
- Cross links to dossiers, attachments incorporated from documents, and patches of status and fields in ClickUp: other guarantees, with other locks.
- Card titles, descriptions, status columns and custom fields of ClickUp: the protocol depends on list, phone and id only.
- HTTP, Prisma, Redis, BullMQ and Socket.IO themselves: only their effects on the modelled state, including failures.
- MIME assembly, authentication, roles, encryption and address checks: library code or other concerns.
- Themes, skills, segments, inbox views, products, tags, ratings and organizations: rows whose invariants are one step deep.
