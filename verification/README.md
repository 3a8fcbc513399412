# Automation service: protocols as verified models

This project models the event-driven roles and in-process protocols of an automation service that browses a social
platform on behalf of accounts, and proves what they promise over every run. The source is TypeScript; the paths below
are relative to its repository.

A handler that runs without an `await` is one step; every `await`, microtask and timer callback is a later step of its
own, so a run is an arbitrary sequence of steps, and a step that cannot happen in a state leaves it unchanged. The event
bus delivers synchronously and depth first (`src/event-bus/index.ts:61-108`), so the reaction of every role to one outside
event is part of the same step. Clocks, randomness, model answers, database drivers and network calls are inputs that may
take any value.

Where the source keeps state in an object, the model has a class whose methods do the same things in the same order, and
each method is proved to have exactly the effect of a function on values; the invariants and the theorems over whole runs
are proved about that function.

- `PatrolModel`, `PatrolAudit`, `PatrolInvariant`, `PatrolSafety`, `PatrolFlow`, `PatrolReactions`, `PatrolCaptures`,
  `PatrolLatePush`, `PatrolRoles`: the notification excursion (gatekeeper, suspender, triage, browsers, classifier, deduper,
  notifier, return-home, resumer) and the nickname self-capture that writes the same browse-suspension flag. `PatrolAudit`,
  `PatrolReactions` and `PatrolCaptures` read a run from its event log alone.
- `BrowseHistory`: the bounded recency list and the batch differences of the session context.
- `SessionMonitor`: the pausable session clock, deferred endings and the idle watchdog.
- `ServiceLifecycle`: the readiness gate and the shutdown of the service shell.
- `UsageKeys`, `UsageBuffer`: the keys of model-usage records, their merging and their once-only submission.
- `AnchorCache`: staging, confirming and promoting anchors, and what a `jsonb` column does to a fingerprint.
- `EdgeResume`: the idempotent receiver of edge-resume commands.
- `CopyGuard`, `CommentLine`, `CommentFlow`, `CommentSettles`, `CommentRoles`: the comment sub-line, its approval gate and
  its near-copy guard.
- `SearchLoop`: the scroll/search cascade and the choice of keywords.
- `OwnerLists`: the per-owner table lists.
- `Text`, `Selections`, `Wrappers`: strings, filtered lists and options as the source uses them.

## What does not hold

Some promises in the source's comments are not kept by its code. Each is modelled as the code has it, with a run that
breaks it and the exact condition.

- Excursion and self-capture are said to exclude each other. The gatekeeper yields to a capture, the capture does not
  yield to an excursion: both are busy at once exactly when cards of a new browser start arrive during an excursion and
  their capture command is sent (`PatrolFlow.CollisionExactly`, `PatrolFlow.CollisionHappens`). A capture can also thaw
  browsing in mid-excursion (`PatrolFlow.EarlyThawExactly`, `PatrolFlow.EarlyThawHappens`).
- A slow notifier can reopen the notification home inside another excursion, exactly when the excursion its push was made
  for has ended since (`PatrolLatePush.ForeignHomeExactly`). Epochs may repeat, so the announcement shows a foreign epoch
  only when the two excursions' epochs differ as well (`PatrolLatePush.StaleEpochExactly`,
  `PatrolLatePush.LatePushHappens`).
- Deduplication does not act inside one batch or between pushes that overlap: a key is pushed as often as worthy items of
  the batch have it unless a push with it has already succeeded (`PatrolFlow.RepeatedKeyExactly`,
  `PatrolFlow.OverlappingPushesRepeat`).
- A shutdown step that throws `undefined` goes unreported: the close resolves exactly when every error thrown was
  `undefined` (`ServiceLifecycle.CloseIsCleanExactly`, `ServiceLifecycle.FailureCanGoUnreported`).
- Usage of different accounts can be merged into one row when a dimension holds `|` (`UsageBuffer.BarsMergeStrangers`).
  A call shares its key with a call of other dimensions exactly when one of its dimensions, other than `|` alone, holds a
  bar that touches no whitespace, does not start the account and does not end the model
  (`UsageKeys.KeyIsSharedExactly`).
- The delete that ends a promotion removes a candidate with another fingerprint, confirmations included, exactly when one
  was staged after the promotion was decided and still stands (`AnchorCache.LateDropExactly`,
  `AnchorCache.LateDropHappens`).
- An anchor's fingerprint depends on the order of keys, which `jsonb` forgets: it survives storing exactly when the
  attributes and the scope were written in the order in which they are loaded
  (`AnchorCache.StoringKeepsFingerprintExactly`). A scope in the order its type declares does not survive
  (`AnchorCache.DeclaredScopeOrderIsLost`).
- The feed's search threshold is said to fall back to its default when illegal, but a value such as 0.5 is accepted and
  rounds down to zero (`SearchLoop.ThresholdBelowTwo`); below two, a search skipped at once never leaves the cascade
  (`SearchLoop.CascadeEndsExactly`).
- Two keyword evaluations that overlap can approve the same keyword (`SearchLoop.OverlapRepeats`): an answer can repeat an
  approval's key exactly when its evaluation was offered a word with that key, which takes an approval made since the
  evaluation started, or left unrecorded (`SearchLoop.RepeatExactly`).
- The list of an owner named `__proto__` can be looked up but is not found by enumerating the owners, which is how the
  lists are written out (`OwnerLists.EnumerationMissesExactly`).

## Model

| member | source | states |
|---|---|---|
| PatrolSafety.NoPermanentFreeze | src/agents/excursion-resumer.ts:94-184 | In every reachable subscribed state, frozen browsing means that an excursion with its stall timer armed, or a self-capture with its timer armed, is under way |
| PatrolSafety.TimersAloneThaw | src/agents/excursion-resumer.ts:118-184 | From any reachable subscribed state the stall timer and the capture timer alone, with the edge silent, thaw browsing and end both protocols |
| PatrolSafety.StepSpendsBudget | src/agents/notification-triage.ts:55-95 | While an excursion lasts, a home report or stall expiry lowers (attempts left over the categories + recoveries left) by exactly one, any other input leaves it unchanged |
| PatrolSafety.BudgetOverRun | src/agents/notification-triage.ts:55-95 | Over a stretch of one excursion the budget falls by exactly the number of home reports and stall expiries, and never below zero |
| PatrolSafety.ExcursionTerminates | src/agents/excursion-resumer.ts:139-184 | An excursion cannot outlast more home reports and stall expiries than its budget |
| PatrolSafety.CommandsAreBounded | src/agents/notification-triage.ts:55-95 | Read off the log of any run: at most 3·maxAttempts category browse commands and 1 + maxStallRecoveries read-only home openings per excursion |
| PatrolSafety.RealignmentNeverBrowses | src/agents/excursion-resumer.ts:139-167 | A stall expiry reopens the notification home or ends the excursion, and emits nothing else |
| PatrolSafety.RequestsAndEndingsAlternate | src/agents/notification-gatekeeper.ts:63-89 | Over any run, requests and endings alternate with equal epochs, an excursion is active exactly while a request is unanswered, and only a session reset drops one |
| PatrolAudit.EndingAnswersRequest | src/agents/excursion-resumer.ts:169-184 | In a legal log each ending answers an earlier request of the same epoch with no request, ending or reset in between |
| PatrolAudit.RequestsAreSeparated | src/agents/notification-gatekeeper.ts:63-89 | In a legal log the end of the first, or a session reset, lies between two requests |
| PatrolSafety.FeedEnteredUnfrozen | src/agents/excursion-resumer.ts:169-184 | Browsing is never suspended at the moment a return to the feed is announced |
| PatrolSafety.PickIsFirst | src/agents/notification-triage.ts:63-86 | The category selected is the first in priority order with unread items and attempts left |
| PatrolReactions.HomeReportExactly | src/agents/notification-triage.ts:55-95 | At any home report of a run during an excursion, comments are selected and browsed, under the excursion's epoch and with nothing else announced, if they are unread and the log has browsed them less often than the limit; else likes, else follows; else the excursion ends |
| PatrolReactions.ReactionsFollow | src/agents/notification-like-browser.ts:27-42 | In the log of a run every browse command directly follows the selection of the same category and epoch, every notify call the discovery of the same items, every freeze its request, every way home a closed category; a stalled ending always names the opening phase |
| PatrolSafety.GivenUpMembers | src/agents/notification-triage.ts:63-88 | The given-up list holds, once each, exactly the unread categories out of attempts |
| PatrolSafety.TriageEndsHonestly | src/agents/notification-triage.ts:55-95 | A home report ends the excursion exactly when no unread category has attempts left; the reason is done exactly when nothing is unread, and otherwise names exactly the categories still unread |
| PatrolSafety.DoneOnlyWhenCleared | src/agents/excursion-resumer.ts:79-93 | Of the competing end triggers, only a home report without unread counts ends an excursion as done |
| PatrolSafety.DoneOverRun | src/agents/notification-triage.ts:87-94 | Behind every done ending of a run lies such a home report during a running excursion |
| PatrolSafety.StepOutcome | src/agents/excursion-resumer.ts:77-107 | Every other input leaves the excursion, its budgets and its log alone, or ends it with the reason that names the cause |
| PatrolReactions.ReturnsToLastPage | src/agents/excursion-resumer.ts:169-184 | An excursion so ended goes back to the page on which browsing was last reported in the session |
| PatrolReactions.OutsideExcursionsDeaf | src/agents/notification-triage.ts:55-62 | Without a running excursion, or after the session has ended, reports, receipts and stall expiries change nothing |
| PatrolFlow.AdmittedExactly | src/agents/notification-gatekeeper.ts:63-79 | A detection is admitted exactly without hard pause, capture, comment or running excursion, and put off exactly when only a comment is in the way; an admitted excursion starts frozen, timed and with full budgets |
| PatrolFlow.DeferredIsAdmitted | src/agents/notification-gatekeeper.ts:81-89 | A detection put off for a comment starts its excursion once the comment has settled |
| PatrolReactions.RetriesInOrder | src/agents/notification-gatekeeper.ts:81-89 | Put-off detections are retried in the order in which their comments settled, each as if it came anew |
| PatrolReactions.EndedSessionIsDeaf | src/agents/notification-gatekeeper.ts:55-61 | An ended session forgets what was put off, and admits and retries nothing |
| PatrolReactions.RestartExactly | src/agents/session-context.ts:252-269 | A restart drops excursion, capture and freeze, and keeps delivered keys, attempts, remembered ids, outstanding pushes and queued retries |
| PatrolFlow.ReceiptExactly | src/agents/notification-like-browser.ts:27-42 | What every receipt during an excursion announces: the end on a failure, the closing of likes or follows and the way home on success |
| PatrolInvariant.StepKeepsInv | src/agents/session-context.ts:202-250 | Every input keeps the invariant that ties both protocols, their timers, budgets and memories to the event log |
| PatrolInvariant.RunKeepsInv | src/agents/session-context.ts:202-269 | Every run keeps it, session endings and restarts included |
| PatrolInvariant.WindowShift | src/agents/nickname-enricher.ts:134-142 | Appending an id and dropping the oldest keeps the list equal to the last fifty consumed ids and equal ids more than fifty apart |
| PatrolFlow.BatchIsPushed | src/agents/notification-classifier.ts:102-146 | In the comments category every worthy item not yet notified is pushed as often as it occurs in the batch, and nothing else |
| PatrolReactions.BatchExactly | src/agents/notification-classifier.ts:102-146 | All that a batch announces during an excursion: nothing unless comments are selected, the failed ending when the filter throws, else the worthy items in their order, those of them not delivered in their order, and their notify call or the closing of the category |
| PatrolFlow.RepeatedKeyExactly | src/agents/notification-deduper.ts:66-78 | A key is pushed exactly as often as worthy items of the batch have it, unless a push with it has succeeded |
| PatrolFlow.PushesOverRun | src/agents/notification-notifier.ts:47-63 | Over any run the keys marked are exactly those of successful pushes, no push repeats a marked key, each settles at most once, and each is made in turn |
| PatrolReactions.SettlementExactly | src/agents/notification-notifier.ts:47-63 | A settled push delivers exactly its non-empty keys when it succeeds, and closes its category under its own epoch either way, going home only from a running excursion |
| PatrolReactions.DeliveredNeverRepeats | src/agents/notification-deduper.ts:66-78 | In the log of a run no key of a delivered push is handed to the notifier again |
| PatrolFlow.NotifyInTurn | src/agents/notification-deduper.ts:66-78 | At each notify call of a run the excursion of that epoch is open, its last selection is comments, and no item was delivered before |
| PatrolFlow.OverlappingPushesRepeat | src/agents/notification-deduper.ts:66-78 | A run in which one item is pushed twice in a batch and again before the first push settles |
| PatrolLatePush.ForeignHomeExactly | src/agents/notification-notifier.ts:47-63 | Over any run, settling a push opens the home page inside an excursion of another ordinal than the push's own exactly when the push's excursion has ended or was reset since its notify call |
| PatrolLatePush.StaleEpochExactly | src/agents/notification-notifier.ts:47-63 | It does so under another epoch than the running one exactly when, besides, the push's epoch is not the running one |
| PatrolLatePush.LatePushHappens | src/agents/notification-return-home.ts:27-35 | Runs in which that happens, for a second excursion of any epoch, the first one's included |
| PatrolLatePush.CallsAreLocated | src/agents/notification-notifier.ts:47-53 | Each outstanding push of a run is traced to its own notify call in the log |
| PatrolFlow.CollisionExactly | src/agents/nickname-enricher.ts:107-132 | Excursion and self-capture become busy at once exactly when a sent capture starts during an excursion |
| PatrolFlow.CollisionHappens | src/agents/nickname-enricher.ts:107-164 | A run in which that happens |
| PatrolFlow.EarlyThawExactly | src/agents/nickname-enricher.ts:216-231 | Browsing thaws within an excursion exactly when a capture ends, is not sent, or starts without holding the freeze |
| PatrolFlow.EarlyThawHappens | src/agents/nickname-enricher.ts:209-231 | A run in which the capture's timer thaws browsing in mid-excursion |
| PatrolFlow.CaptureStepExactly | src/agents/nickname-enricher.ts:100-231 | Exactly which inputs bring a capture into flight and which end it |
| PatrolReactions.CardsExactly | src/agents/nickname-enricher.ts:100-164 | All that a report of cards does: remember the id, or arm and request a capture, freeze exactly for a plan that leaves the feed, and finish at once when the command is not sent; nothing for a remembered id, during a capture, after three empty ones or without an account |
| PatrolReactions.ObservationExactly | src/agents/nickname-enricher.ts:166-196 | An observation is accepted exactly when account, capture id, source and page effect fit the running capture; it then writes a nickname that is neither empty nor known already, counts an empty one, and finishes |
| PatrolReactions.CaptureTimerExactly | src/agents/nickname-enricher.ts:209-231 | The capture's timer finishes a running capture as timed out and does nothing otherwise |
| PatrolReactions.NicknameIsPending | src/agents/nickname-enricher.ts:121-124 | A nickname is marked as awaited exactly once a capture was ever armed |
| PatrolFlow.CapturesOverRun | src/agents/nickname-enricher.ts:100-231 | Over any run captures are armed and finished in turn, nicknames answer the running capture, empty attempts stop at three, and the remembered ids are the last fifty, distinct and equal as set and list |
| PatrolFlow.ForeignObservationIgnored | src/agents/nickname-enricher.ts:166-190 | An observation that is late, or of another account or capture, changes nothing |
| PatrolCaptures.FinishReturnsExactly | src/agents/nickname-enricher.ts:216-231 | At every end of a capture in the log of a run, the capture was armed and then requested at once, with no arming, end or reset since; the return to the feed follows immediately when that request's plan had left the feed, with the trigger that fits the ending, and does not when it had not |
| PatrolCaptures.ReturnFollowsAnEnd | src/agents/nickname-enricher.ts:216-231 | Every return to the feed in the log of a run is announced right after the end of an excursion or of a capture |
| PatrolCaptures.CaptureReturnsAtMostOnce | src/agents/nickname-enricher.ts:216-231 | In the log of a run no two positions are returns to the feed for one arming |
| PatrolRoles.PatrolBus.Receive | src/agents/browse-suspender.ts:26-34 | The wired roles react to any input exactly as the step function says, and keep the invariant |
| PatrolRoles.PatrolBus.Triage | src/agents/notification-triage.ts:55-95 | The priority loop selects, counts and gives up as specified |
| PatrolRoles.ExcursionResumer.Resume | src/agents/excursion-resumer.ts:169-184 | The point of convergence ends an active excursion once: timer, context, recovery count, both announcements |
| PatrolRoles.ExcursionResumer.OnStall | src/agents/excursion-resumer.ts:139-167 | The stall handler realigns within its budget and otherwise ends the excursion |
| PatrolRoles.NotificationGatekeeper.Admit | src/agents/notification-gatekeeper.ts:63-79 | Admission order: hard pause, self-capture, comment in flight, running excursion, then begin |
| PatrolRoles.NicknameEnricher.RememberStartupId | src/agents/nickname-enricher.ts:134-142 | The bounded memory after one more startup id |
| PatrolRoles.NicknameEnricher.OnIdentityObserved | src/agents/nickname-enricher.ts:166-196 | An observation is accepted, written, counted and finished as specified |
| PatrolRoles.NicknameEnricher.FinishCapture | src/agents/nickname-enricher.ts:216-231 | Finishing a capture clears timer, plan, id, both flags, and returns to the feed when due |
| PatrolRoles.SessionContext.MarkItemsNotified | src/agents/session-context.ts:248-250 | Marking a batch adds exactly its non-empty keys |
| BrowseHistory.RecencyIsLastDistinct | src/agents/session-context.ts:162-175 | After any history the recency list is the last thirty distinct ids ordered by last occurrence |
| BrowseHistory.MarkCommutes | src/agents/session-context.ts:162-171 | Marking on the bounded list is marking on the unbounded one and then bounding it |
| BrowseHistory.NoCardUncounted | src/agents/session-context.ts:182-188 | For any batches the counts add up to at least the number of distinct feed cards seen |
| BrowseHistory.SearchNeverTouchesFeed | src/agents/session-context.ts:116-131 | Search batches, search endings and resets never change what feed batches count |
| BrowseHistory.FeedNeverTouchesSearch | src/agents/session-context.ts:182-188 | Feed batches never change what search batches count |
| BrowseHistory.CountExtremes | src/agents/session-context.ts:182-188 | A repeated batch counts zero; all of a batch counts exactly when it shares no id with the one before |
| BrowseHistory.BaselineIsLastBatch | src/agents/session-context.ts:116-131 | A batch is compared with exactly the ids of the last batch of its kind, for the search only since the search last ended or the session was reset |
| BrowseHistory.NewCountCounts | src/agents/session-context.ts:125-131 | The count is the number of different ids of the batch outside the baseline |
| BrowseHistory.CountOutside | src/agents/session-context.ts:125-131 | The counting loop returns the size of the set difference |
| BrowseHistory.CardMemory.MarkEvaluated | src/agents/session-context.ts:162-171 | The in-place update keeps the list equal to its definition over the whole history |
| SessionMonitor.ClockExcludesPauses | src/agents/session-monitor-role.ts:153-169 | Whenever nothing is held, elapsed session time is wall time since subscription less the measure of the union of all pauses, for nested, repeated and unknown tokens |
| SessionMonitor.ClockInvariant | src/agents/session-monitor-role.ts:153-169 | The same during a pause, with the pause under way included |
| SessionMonitor.ReasonsAreHeld | src/agents/session-monitor-role.ts:153-169 | The reason set holds exactly the reasons whose last operation was a pause |
| SessionMonitor.NoLimitEndWhilePaused | src/agents/session-monitor-role.ts:229-261 | No limit ends the session at an operation that leaves a reason held |
| SessionMonitor.ActionEndsExactly | src/agents/session-monitor-role.ts:199-261 | A completed action ends the session exactly when nothing is held and the window is closed, the actions so far and this one reach the maximum, the unpaused time is up, or likes, collects and searches are all spent, once, with the first of these as its cause |
| SessionMonitor.OthersAreSilent | src/agents/session-monitor-role.ts:153-169 | Pauses, other reports and resumes that leave a reason held say nothing |
| SessionMonitor.SubscribingStartsAfresh | src/agents/session-monitor-role.ts:135-148 | Whatever the state before, subscribing begins as the first subscription did, and unsubscribing forgets every held reason |
| SessionMonitor.DeferredEndIsDelivered | src/agents/session-monitor-role.ts:162-169 | The resume that releases the last reason ends the session exactly when a limit then holds by wall clock and history, once, with the first such limit as its cause |
| SessionMonitor.UnknownResumeIsIgnored | src/agents/session-monitor-role.ts:162-163 | Resuming a reason that is not held changes nothing |
| SessionMonitor.IdleEndIgnoresPauses | src/agents/session-monitor-role.ts:211-221 | A tick ends the session exactly after a full idle period since the last report, paused or not |
| SessionMonitor.TickExactly | src/agents/session-monitor-role.ts:211-226 | A tick ends the session after a full idle period since the last report, else nudges after a nudge period since both the last report and the last nudge, else says nothing |
| SessionMonitor.NudgesAreSpaced | src/agents/session-monitor-role.ts:211-226 | With a fixed threshold nudges are at least that far apart over any run, across subscriptions |
| SessionMonitor.SessionMonitorRole.ResumeClock | src/agents/session-monitor-role.ts:162-169 | The method has exactly the effect of the step |
| SessionMonitor.SessionMonitorRole.OnTick | src/agents/session-monitor-role.ts:211-226 | The method has exactly the effect of the step |
| ServiceLifecycle.StartsNeverOverlap | src/automation-service-entry.ts:241-254 | At each start of a run no start is under way, none has succeeded, and closing has not begun |
| ServiceLifecycle.StartsExactly | src/automation-service-entry.ts:241-267 | A start begins exactly on a report of ready, at boot or from the armed watch, while no start is pending |
| ServiceLifecycle.StartEndsExactly | src/automation-service-entry.ts:241-254 | A start ends exactly when its promise settles, with the matching entry, and only a success lets the business in |
| ServiceLifecycle.BootExactly | src/automation-service-entry.ts:340-378 | The boot goes on only after the root has started and the first start, if any, is over |
| ServiceLifecycle.ShutdownBeginsExactly | src/automation-service-entry.ts:276-338 | An open service begins to shut down exactly on a signal it listens to, a request once it is up, or a failed root, and then waits exactly for a start under way |
| ServiceLifecycle.ReadinessKeepsBeingRetried | src/automation-service-entry.ts:257-267 | An armed watch means neither closing nor started, and an open service that is up is either started or still retrying |
| ServiceLifecycle.ShutdownRunsEveryStep | src/automation-service-entry.ts:276-314 | A finished shutdown called stop exactly when a start had succeeded, then dispose, then the root's close, once each and in order whatever threw, and reports the first error |
| ServiceLifecycle.ShutdownNeverRepeats | src/automation-service-entry.ts:276-314 | A shutdown under way has performed a beginning of those acts and nothing else |
| ServiceLifecycle.ShutdownNeverSticks | src/automation-service-entry.ts:276-314 | However the awaited call ends, the shutdown comes closer to its end |
| ServiceLifecycle.ShutdownCompletes | src/automation-service-entry.ts:276-314 | Settling the awaited calls closes the service within seven continuations |
| ServiceLifecycle.CloseIsCleanExactly | src/automation-service-entry.ts:289-312 | The close resolves exactly when every error a step threw was `undefined` |
| ServiceLifecycle.FirstErrorIsThrown | src/automation-service-entry.ts:289-312 | Over any run the first error of the log is the first one, other than `undefined`, that an awaited step of the shutdown threw |
| ServiceLifecycle.FailureCanGoUnreported | src/automation-service-entry.ts:289-312 | A run in which a failed step goes unreported |
| ServiceLifecycle.ExitsOnceWithTheResult | src/automation-service-entry.ts:327-338 | The process exits at most once, after the shutdown, with zero exactly when no error was reported |
| ServiceLifecycle.ExitsExactly | src/automation-service-entry.ts:327-338 | Over any run the process has exited exactly when the shutdown is over and a signal began it |
| ServiceLifecycle.StepKeepsInv | src/automation-service-entry.ts:241-378 | Every tick, signal, settlement and continuation keeps the lifecycle invariant |
| ServiceLifecycle.ServiceShell.Handle | src/automation-service-entry.ts:241-378 | The closure variables change exactly as the step says and keep the invariant |
| UsageBuffer.UsageIsConserved | src/automation-llm-usage-buffer.ts:131-230 | Over any interleaving all recorded calls and tokens equal the live window plus every row handed to the sink |
| UsageBuffer.TokensAreConserved | src/automation-llm-usage-buffer.ts:131-230 | Prompt, completion and total tokens, calls and successful calls are each conserved, added up from the records themselves |
| UsageBuffer.RowsAreAccountedFor | src/automation-llm-usage-buffer.ts:192-230 | Applied, unapplied, discarded and unanswered rows add up to the rows submitted |
| UsageBuffer.SubmissionsTakeTurns | src/automation-llm-usage-buffer.ts:225-230 | Because each flush is chained to the promise of the one before, submissions start in order, each after all earlier ones have ended, so that at most one is running |
| UsageBuffer.QueueNeverSticks | src/automation-llm-usage-buffer.ts:225-230 | While a submission waits, it or an earlier one is running or may start |
| UsageBuffer.FlushesExactly | src/automation-llm-usage-buffer.ts:225-249 | Exactly flushes, stops and ticks of a timer that was started and not stopped since queue a submission, one each, chained to the one before |
| UsageBuffer.SubmissionExactly | src/automation-llm-usage-buffer.ts:192-199 | A submission that begins takes the whole window as one batch; with an empty window it is over at once and the sink hears nothing |
| UsageBuffer.NoEmptyBatch | src/automation-llm-usage-buffer.ts:192-199 | Over any run no batch handed over is empty |
| UsageBuffer.AnswerIsBooked | src/automation-llm-usage-buffer.ts:199-222 | An answer is booked for every row of its submission, as discarded or as applied up to the whole number reported |
| UsageKeys.DimensionsAsGiven | src/automation-llm-usage-buffer.ts:99-102 | Trimmed dimensions are taken over unchanged, absent ones get their placeholders |
| UsageKeys.PaddingIsIgnored | src/automation-llm-usage-buffer.ts:99-102 | White space around a dimension does not count, and a blank dimension is an absent one |
| UsageKeys.NonNegative | src/automation-llm-usage-buffer.ts:104-106 | Token numbers are rounded down; missing, infinite and negative ones count zero |
| UsageBuffer.OrphansAreCounted | src/automation-llm-usage-buffer.ts:133-145 | Calls without an account are counted as dropped, all others are kept |
| UsageBuffer.BatchesPartitionTheCalls | src/automation-llm-usage-buffer.ts:192-197 | The recorded calls are cut into consecutive stretches, one merged into each batch and the rest into the window |
| UsageBuffer.MergeIsFaithful | src/automation-llm-usage-buffer.ts:154-182 | A merged window has one row per key, each the sum of the calls with that key, and no row is missing |
| UsageBuffer.MergeIsExact | src/automation-llm-usage-buffer.ts:154-182 | A row whose dimensions hold no such bar is the sum of the calls with exactly its five dimensions, whatever the other calls hold |
| UsageBuffer.BatchRowsAreExact | src/automation-llm-usage-buffer.ts:154-197 | The same for every row ever submitted in a run, over the stretch of calls it covers |
| UsageKeys.KeyIsSharedExactly | src/automation-llm-usage-buffer.ts:131-155 | Some call with an account has other dimensions and the same key exactly when a part of the given call's dimensions, other than `\|` alone, holds a bar that touches no whitespace, does not start the account and does not end the model |
| UsageKeys.KeyIsExactWithoutBars | src/automation-llm-usage-buffer.ts:153-155 | Among arbitrary dimensions, those of calls or not, a key belongs to one exactly when account, role, provider and model hold no `\|` |
| UsageBuffer.BarsMergeStrangers | src/automation-llm-usage-buffer.ts:153-155 | Two accounts whose calls are merged into one row |
| UsageBuffer.FlushCoversEarlierCalls | src/automation-llm-usage-buffer.ts:225-249 | Once the submission queued by a flush, a stop or the timer has ended, each call with an account recorded before it lies in a stretch whose batch was taken by a submission that has ended |
| UsageBuffer.FlushBoundsOutstanding | src/automation-llm-usage-buffer.ts:225-249 | By then at most the calls recorded after it are outstanding |
| UsageBuffer.EntryMerges | src/automation-llm-usage-buffer.ts:154-182 | Updating or adding an entry of the ordered map is merging into its values |
| UsageBuffer.MergeBuffer.RecordCall | src/automation-llm-usage-buffer.ts:131-190 | The method has exactly the effect of the step |
| UsageBuffer.MergeBuffer.Submit | src/automation-llm-usage-buffer.ts:192-199 | The window is swapped out and handed over once |
| UsageBuffer.MergeBuffer.OnAnswer | src/automation-llm-usage-buffer.ts:199-222 | The answer is booked as applied, unapplied or discarded |
| AnchorCache.PromotionWasConfirmed | src/cache/pg-anchor-cache.ts:199-246 | Whatever calls interleave, every promotion writes the anchor last staged under a fingerprint that was confirmed at least the threshold's number of times since, with no drop and no other fingerprint staged in between |
| AnchorCache.CountsSinceFirstStage | src/cache/pg-anchor-cache.ts:199-228 | Over any run a staged row counts exactly the confirmations since its candidate was first staged undisturbed, however often the same candidate was staged again |
| AnchorCache.DecidesExactly | src/cache/pg-anchor-cache.ts:225-241 | Over any run a confirmation decides to promote exactly when a candidate stands and that count, this confirmation included, reaches the threshold: two without an option, else the option, but at least one |
| AnchorCache.PromotionCompletes | src/cache/pg-anchor-cache.ts:225-241 | A call that decided writes the staged anchor to the main table and then empties the staged row |
| AnchorCache.StatementsExactly | src/cache/pg-anchor-cache.ts:160-246 | Each operation runs exactly its own statement |
| AnchorCache.StagingTableIsLastStaged | src/cache/pg-anchor-cache.ts:199-246 | Over any run the staging table holds what the last stage wrote unless it was dropped since |
| AnchorCache.MainTableIsWritten | src/cache/pg-anchor-cache.ts:160-177 | Over any run the main table holds what the last put or promotion wrote |
| AnchorCache.LateDropExactly | src/cache/pg-anchor-cache.ts:225-246 | When a promotion comes to its delete, whatever has interleaved, its decision is found in the log, the delete empties the row, and what it removes has another fingerprint exactly when such a candidate was staged after the decision and neither replaced nor dropped since |
| AnchorCache.LateDropHappens | src/cache/pg-anchor-cache.ts:225-246 | A run in which that happens, for any two anchors of an action with different fingerprints |
| AnchorCache.StepKeepsInv | src/cache/pg-anchor-cache.ts:160-246 | Every statement keeps what is known of staged rows, of calls about to promote and of past promotions |
| AnchorCache.StoringKeepsFingerprintExactly | src/cache/pg-anchor-cache.ts:100-127 | Storing and loading keeps a fingerprint exactly when attributes and scope were written in the loading order |
| AnchorCache.CopyingKeepsFingerprint | src/cache/pg-anchor-cache.ts:160-177 | A loaded anchor keeps its fingerprint when stored again, as promotion does |
| AnchorCache.SameFingerprintSameAnchor | src/cache/pg-anchor-cache.ts:100-127 | Candidates with one fingerprint load as one anchor, an absent and an empty scope aside |
| AnchorCache.LoadedIsLean | src/cache/pg-anchor-cache.ts:119-128 | A loaded anchor has a text match, no empty texts, and attributes exactly when some were stored |
| AnchorCache.DeclaredScopeOrderIsLost | src/cache/pg-anchor-cache.ts:100-127 | A scope with `containsText` before `attributes` always changes its fingerprint when stored |
| AnchorCache.ReloadingKeepsExactly | src/cache/pg-anchor-cache.ts:119-128 | A jsonb column returns an object unchanged exactly when its keys are in the loading order at every depth |
| AnchorCache.IndicesAscendFirst | src/cache/pg-anchor-cache.ts:119-128 | The loading order lists array indices first, as ascending numbers, and then shorter keys before longer ones |
| AnchorCache.PgAnchorCache.ConfirmStaged | src/cache/pg-anchor-cache.ts:225-241 | The update of a confirming call and its decision to promote |
| AnchorCache.PgAnchorCache.StageAnchor | src/cache/pg-anchor-cache.ts:199-220 | Staging keeps the confirmations exactly for an equal fingerprint |
| EdgeResume.AppliedToOneCaller | src/comm/edge-resume-command-receiver.ts:49-80 | At most one caller of a command is told that it was applied |
| EdgeResume.SuccessesAgree | src/comm/edge-resume-command-receiver.ts:49-80 | All successful answers about a command carry the same account and count |
| EdgeResume.SuccessIsReported | src/comm/edge-resume-command-receiver.ts:49-99 | Over any run every success goes back to a call of that command and the edge server's reply to it, and carries that call's account and that reply's count |
| EdgeResume.ReplyIsPassedOn | src/comm/edge-resume-command-receiver.ts:64-99 | However late a suspended call goes on, a resumed count reaches the owner as applied, with the receipt stored, and all others as duplicates; a missing server, a throw or a bad count fails them all and leaves neither receipt nor running entry |
| EdgeResume.RunningCommandIsShared | src/comm/edge-resume-command-receiver.ts:59-65 | While a command runs, a call for its account waits for that application and a call for another account collides |
| EdgeResume.ResumedOnce | src/comm/edge-resume-command-receiver.ts:71-99 | At most one application of a command ever succeeds |
| EdgeResume.BoundForGood | src/comm/edge-resume-command-receiver.ts:52-57 | A stored receipt answers every later call, with a duplicate for its account and a collision for any other |
| EdgeResume.FailureLeavesNoReceipt | src/comm/edge-resume-command-receiver.ts:73-80 | A failed application leaves neither receipt nor running entry, and the command can be tried again |
| EdgeResume.CapacityHolds | src/comm/edge-resume-command-receiver.ts:68-70 | Receipts and running commands never exceed 1024, and a call is refused exactly when its command is new and there is no room |
| EdgeResume.WaitersAreAnswered | src/comm/edge-resume-command-receiver.ts:64-80 | What a suspended call awaits exists, and once it settles the call is answered |
| EdgeResume.StepKeepsInv | src/comm/edge-resume-command-receiver.ts:49-107 | Every call, application and continuation keeps the receiver's invariant |
| EdgeResume.CommandReceiver.ResumeEdgesForAccount | src/comm/edge-resume-command-receiver.ts:49-72 | The synchronous part of a call has exactly the effect of the step |
| EdgeResume.CommandReceiver.Continue | src/comm/edge-resume-command-receiver.ts:64-80 | The part after the await has exactly the effect of the step |
| CopyGuard.NearVerbatim | src/agents/comment-de-ai-flavor.ts:213-224 | The gram-counting loop decides exactly: both normal forms at least six long and twice the shared 4-grams at least all of them |
| CopyGuard.NearCopyIsSymmetric | src/agents/comment-de-ai-flavor.ts:213-224 | The verdict does not depend on which text is the reference |
| CopyGuard.SameWordsAreCaught | src/agents/comment-de-ai-flavor.ts:201-224 | Texts with the same normal form are near copies exactly when it is long enough |
| CopyGuard.FillerChangesNothing | src/agents/comment-de-ai-flavor.ts:201-203 | Spacing and punctuation put anywhere into a text never change the verdict |
| CopyGuard.CaseChangesNothing | src/agents/comment-de-ai-flavor.ts:201-203 | The case of letters never changes the verdict |
| CopyGuard.PlainTextIsNormal | src/agents/comment-de-ai-flavor.ts:201-203 | Small letters, digits and ideographs are all kept as they are |
| CopyGuard.GramsAreRunsOfFour | src/agents/comment-de-ai-flavor.ts:206-210 | The grams are exactly the stretches of four characters |
| CopyGuard.CharNgrams | src/agents/comment-de-ai-flavor.ts:206-210 | The loop builds exactly the set of 4-grams |
| CopyGuard.OverlapsAny | src/agents/comment-de-ai-flavor.ts:227-229 | True exactly when some reference is a near copy |
| CommentLine.AppraisedExactly | src/agents/comment-appraiser.ts:101-218 | Without expiry a comment is proposed exactly when the mandatory rule or every gate and the model allow it; the rule is handed on only when it asks for a comment |
| CommentLine.SkipIsHonest | src/agents/comment-appraiser.ts:101-218 | A skip names the first gate that is shut, or what became of the question to the model |
| CommentLine.AppraiserSilentExactly | src/agents/comment-appraiser.ts:89-218 | The appraiser is silent exactly when a consultation on the way to its conclusion finds the line expired |
| CommentRoles.CommentSubline.OnInteractionCompleted | src/agents/comment-appraiser.ts:101-218 | The handler emits that conclusion and nothing else: one terminal event when it skips, none otherwise |
| CommentLine.FirstUsableReply | src/agents/comment-composer.ts:145-203 | The composer asks at most twice, twice only for a mandatory comment or a required language, passes on the first usable reply, otherwise skips naming what is wrong with the last, and never repeats a failed request |
| CommentLine.ComposerNeedsNoteAndLanguage | src/agents/comment-composer.ts:100-111 | Without a note, or a language where one is required, it skips without asking |
| CommentLine.ComposerSpeaksAlive | src/agents/comment-composer.ts:100-203 | It says something only if it found the line alive at the start, before and after every question and at the end, and is silent only if some consultation found it expired |
| CommentLine.ReferencesExactly | src/agents/comment-composer.ts:113-142 | The references are the first three of the looked-up texts that are not empty |
| CommentRoles.CommentSubline.OnAppraised | src/agents/comment-composer.ts:100-203 | The retry loop emits that outcome and nothing else, after as many questions |
| CommentLine.ClearedTextIsOriginal | src/agents/comment-de-ai-flavor.ts:76-147 | Whatever both rewrites return, a cleared text is trimmed, not empty and no near copy of a reference |
| CommentLine.CleanedExactly | src/agents/comment-de-ai-flavor.ts:76-147 | What becomes of a draft: cleaned or left as it is, rewritten once when it copies a reference, cleared exactly when it then is not empty, copies none and is in the right language, and otherwise skipped for the first of these that fails |
| CommentLine.CleanerSpeaksAlive | src/agents/comment-de-ai-flavor.ts:76-147 | A text is cleared only if every consultation found the line alive |
| CommentRoles.CommentSubline.OnComposed | src/agents/comment-de-ai-flavor.ts:76-147 | The handler emits the conclusion and nothing else, expiry checks included |
| CommentLine.PollDecidedExactly | src/agents/comment-approval-gate.ts:207-235 | The first round that is late, expired or answered yes decides the poll: a skip when it is late and alive, approval when it is in time and alive, else silence |
| CommentLine.ApprovedByARound | src/agents/comment-approval-gate.ts:207-231 | Polling approves exactly when some round is in time, alive and answered yes, and every round before was in time, alive and not answered yes |
| CommentRoles.CommentSubline.OnCleared | src/agents/comment-approval-gate.ts:127-236 | The gate's handler, from the mode to the last round of the poll, emits exactly what the steps say, and one terminal event exactly when it ends speaking |
| CommentRoles.GatePollingIsBounded | src/agents/comment-approval-gate.ts:207-231 | At most timeout/interval + 1 rounds leave the gate polling when each sleep advances the clock by the interval |
| CommentFlow.AtMostOneTerminal | src/agents/comment-appraiser.ts:89-218 | Over any interleaving an interaction leads to at most one skipped or approved event across the four roles |
| CommentFlow.ExactlyOneTerminal | src/agents/comment-approval-gate.ts:127-236 | While nothing has expired, an interaction that has ended led to exactly one terminal event |
| CommentSettles.SettledCallsEndOnce | src/agents/comment-approval-gate.ts:127-236 | When nothing of an interaction expires and every awaited call settles, it ends with exactly one terminal event, from any stage and whatever happens to other interactions meanwhile |
| CommentSettles.EveryInteractionEndsOnce | src/agents/comment-appraiser.ts:101-218 | The same from the start of the interaction through all four roles |
| CommentSettles.RoundsEndIt | src/agents/comment-approval-gate.ts:207-235 | Timeout/interval + 2 rounds end the poll with a terminal event |
| CommentSettles.OthersDoNotMatter | src/agents/comment-composer.ts:80-87 | Where an interaction stands depends only on its own events |
| CommentFlow.StepMovesOn | src/agents/comment-composer.ts:100-203 | When nothing expires, each role's answer moves its interaction on and never ends it in silence |
| CommentFlow.ExpiredNeverSpeaks | src/agents/comment-approval-gate.ts:114-236 | Once expired, an interaction emits nothing more and is over at the next answer |
| CommentFlow.ApprovalRestsOnConsent | src/agents/comment-approval-gate.ts:127-236 | Every approved text was cleared for its interaction, is original, and was allowed: by a round answered yes, in time and alive, to the request that carried it, or because at its gate the account's policy was automatic approval, or gave none while the interaction's own rule demands the comment and allows it |
| CommentFlow.GateStartsExactly | src/agents/comment-approval-gate.ts:127-205 | A gate that starts alive approves at once exactly under the second condition; otherwise it skips without a port, skips when the request cannot be sent, and else polls under its own request id and deadline |
| CommentFlow.GateStartsAlive | src/agents/comment-approval-gate.ts:114-205 | It goes on only if its consultations found the line alive |
| CommentFlow.RoundExactly | src/agents/comment-approval-gate.ts:207-235 | What one round of the poll notes and concludes |
| CommentFlow.ApprovedWordsOrigin | src/agents/comment-composer.ts:145-203 | Every approved text goes back to a usable reply of the model to the interaction's composer, changed at most by the two rewrites, and copies none of the references looked up for it |
| SearchLoop.CascadeEndsExactly | src/agents/feed-scroller.ts:72-103 | The synchronous cascade ends exactly when a refresh is due, the search is not skipped at once, or the threshold is at least two |
| SearchLoop.CascadeExactly | src/agents/feed-scroller.ts:72-103 | What a cascade that ends emits and counts: refresh, scroll, call for a search with the count starting over, and after a skip the first scroll of the new count |
| SearchLoop.EndsWithinOneNestedCall | src/agents/search-scroller.ts:63-80 | A cascade that ends has at most one nested call, which then only scrolls |
| SearchLoop.DepthOnlyHelps | src/agents/search-scroller.ts:63-80 | What a cascade that ends does is independent of how deep it is followed |
| SearchLoop.ThresholdBelowTwo | src/agents/feed-scroller.ts:19-22 | Exactly the configured values between zero and two give a threshold below two |
| SearchLoop.ThresholdExactly | src/agents/feed-scroller.ts:19-22 | The threshold is a positive configured number rounded down, and twenty otherwise |
| SearchLoop.Scrollers.ScrollOrSearch | src/agents/feed-scroller.ts:72-103 | The nested handler emits and counts exactly as the cascade says |
| SearchLoop.UntakenExactly | src/agents/search-evaluator.ts:150-165 | The available words are given words with untaken keys, no key twice, and none is missing |
| SearchLoop.OfferedExactly | src/agents/search-evaluator.ts:66-165 | An evaluation goes ahead exactly when a seed or candidate is neither known nor searched, by key; it is offered every such key once, by the first word that has it |
| SearchLoop.AnswerExactly | src/agents/search-evaluator.ts:114-134 | An answer approves exactly the offered word with the key of the trimmed keyword, tells its source, and is recorded as told; any other answer approves nothing |
| SearchLoop.SearchedIsRecorded | src/agents/search-executor.ts:49-62 | Over any run the searches known are exactly the recorded approvals, in order |
| SearchLoop.ComputeAvailable | src/agents/search-evaluator.ts:150-165 | The loop with its set of seen keys computes them |
| SearchLoop.ApprovedIsOffered | src/agents/search-evaluator.ts:114-134 | Every approved keyword is a non-empty seed or candidate, is not known, and its source is told truly |
| SearchLoop.NoRepeatedSearch | src/agents/search-executor.ts:49-62 | An approval never repeats, in any case, a search recorded before its evaluation started |
| SearchLoop.ApprovedPairwiseDistinct | src/agents/search-evaluator.ts:66-140 | When each evaluation is answered before the next starts and every approval is recorded, approved keywords are pairwise different in any case |
| SearchLoop.RepeatExactly | src/agents/search-evaluator.ts:66-140 | In every reachable state some answer to a pending evaluation repeats an approval's key exactly when a word with it was offered; that takes an approval made since the evaluation started, or left unrecorded |
| SearchLoop.OverlapRepeats | src/agents/search-evaluator.ts:66-140 | Two overlapping evaluations that approve the same word |
| OwnerLists.OwnerTableLists | scripts/db-split/generate-owner-table-lists.ts:24-35 | Looking up an owner that has rows gives exactly its rows' tables, as often as they occur, sorted, and no other owner was given a list; enumerating finds every owner but `__proto__` |
| OwnerLists.EnumerationMissesExactly | scripts/db-split/generate-owner-table-lists.ts:32-34 | Every row is found by lookup; enumeration misses it exactly when its owner is named `__proto__` |
| OwnerLists.SortSorts | scripts/db-split/generate-owner-table-lists.ts:33-33 | Sorting orders by UTF-16 code units and keeps every table as often as it occurs |
| OwnerLists.RoundTripExactly | scripts/db-split/generate-owner-table-lists.ts:37-56 | For an owner without a newline, reading a printed list gives the list back exactly when every name is trimmed, non-empty, without a newline and not led by `#` |
| OwnerLists.ParsedIsPlain | scripts/db-split/generate-owner-table-lists.ts:51-56 | Whatever a file holds, reading it yields such names only |
| Text.SplitJoin | scripts/db-split/generate-owner-table-lists.ts:38-53 | Splitting joined parts gives the parts back when none holds the separator |
| Text.TrimCutsSpaceOnly | src/automation-llm-usage-buffer.ts:99-102 | Trimming cuts white space and nothing else off both ends |
| Text.TrimUnpads | src/automation-llm-usage-buffer.ts:99-102 | Trimming cuts off all of it |

## Left out

- The role dispatcher and the composition root are wiring: a session end unsubscribes the patrol roles, a restart
  unsubscribes, resets the context and subscribes again (`src/orchestrator/role-dispatcher.ts:3658-3704`); starting a
  session without that reset is not modelled.
- Failures that the dispatcher reports synchronously while a role is emitting, and a session end triggered inside
  `excursion.ended`, are separate steps that follow.
- The text filter and the deduplication key of a notification item are fields of the item; a disagreement about an item's
  kind is only logged by the source and is not modelled.
- Negative attempt and recovery limits behave as zero.
- Log entries such as a consumed startup id, an armed or finished capture, a failed notify and a session reset stand for
  state changes that the source does not announce on the bus.
- The session monitor's operations read the clock once where the source may read it twice within one handler.
- Prompts, model calls and the parsing of their answers are replaced by arbitrary results, as are the language check and
  the phrase-based rewrite, whose code is not part of this model.
- The start of a usage bucket is an input of each recorded call; the function that computes it is not part of this model.
- Numbers are unbounded integers, and token counts beyond 2^53 are exact.
- The fingerprint's text is represented by the ordered content that it prints; text that a database column rejects, hit
  statistics and time stamps are not modelled.
- Lower-casing in keyword choice is an arbitrary function; in the copy guard it is the source's own, for the characters
  that survive normalisation.
- SearchLoop.ApprovedPairwiseDistinct: speaks of evaluations that do not overlap and of approvals that are recorded; the
  executor records each approval, while the dispatcher of this repository notes a keyword only when its command is sent,
  so an answer carries a flag that tells which. `SearchLoop.RepeatExactly` covers all runs.
- The keyword evaluator, the conversion of rows and the printing and reading of owner lists are functions, as in the
  source they only compute.
- The owner lists are the entries assigned to the result object; members that a plain object inherits, such as
  `constructor`, are not modelled.
- The running totals of browsed cards, which the dispatcher adds up from the batch counts, are not modelled.
- HTTP clients, sockets, database drivers, real timers, logging texts, the font script, the migration script and simple
  decision tables: each would add only single-branch members.
