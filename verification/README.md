# Delivery, execution and editorial protocols of the evening news service

A Dafny model of the parts of the service that must never send a message twice and never
lose track of a message that may have been sent, and of the editorial engine that decides
what those messages say.  `dafny verify dfyconfig.toml` checks everything.

* **Viber delivery** (`ViberStore`, `ViberDecisions`, `ViberProtocol`, `ViberGuarantees`,
  `ViberProgress`, `ViberRetries`).  Deliveries, numbered
  parts, channel leases and test messages, with one class method for each committed
  transaction.  The protocol interleaves any number of publishing sessions, crashes, settings
  changes and dispatches; a session may call the store in any order, which includes the order
  of the driver loop.  The loop itself is a run of the protocol, and left alone it settles its
  delivery in a way that is known for all answers; a rate limit leaves it open, and the next
  call goes on from the refused part.
* **Telegram delivery** (`TelegramStore`, `TelegramProtocol`, `TelegramProgress`).  One intent
  with its receipts, takeover by later owners, the fallback from the rich message to plain
  parts, and 429 pauses; and what one undisturbed call posts and records for any answers and
  any receipts that earlier calls have left.
* **Execution receipts** (`JobPipeline`, `ReceiptStore`, `AttemptProtocol`, `AttemptGuarantees`,
  `AttemptOutcomes`, `JobScripts`).
  A job is a conversation with other services; runs, cancellations, finalization, worker
  takeover and process restarts interleave between any two of its operations.
* **Source alerts** (`SourceLedger`, `SourceAlerts`, `SourceNotices`).  The two-strike ledger, its
  history, and when it announces.
* **Editorial engine** (`EvidenceSpans`, `Stories`, `StoryCover`, `StoryOrder`, `Editions`,
  `EditionRules`, `EditionGuarantees`, over `Ordering` and `Permutation`).  Cutting evidence, resolving a
  model's answer into an exact cover, validating it, and comparing two locales.
* **Packing** (`TextSize`, `ViberPacking`, `PlainPacking`).  Bounded messages with footers.
* **Small structures** (`DomainRegistry`, `CallbackCache`, `SlidingWindow`, `JsonEscapes`,
  `Schedule`, `WebSocketRelay`, `RelayDecisions`).

Conventions.  A committed database transaction is one atomic step with one clock reading, and
the clock does not go back.  A network post has any outcome: accepted, refused, or unknown.
Hashes and formatted identifiers are taken to determine what they are computed from.  An
authority check that fails can stop a session at any step, so fences need no model of their
own in the delivery protocols.  Viber and execution times are whole seconds, Telegram times
real seconds, schedule instants nanoseconds.

Where a property turned out to be false, the exact condition is proved.

* The Viber packer skips leading blocks that fit nowhere, so it can lose text.  A pass loses
  nothing exactly when its first block fits a message alone (`LosslessIffFirstFits`).  Before
  the call that can be told from the blocks: nothing is lost if the first one fits under the
  widest footer (`NothingLostIfFirstFitsWide`), it is lost if it does not fit under the
  narrowest (`FirstLostIfTooLong`), and up to nine blocks the two conditions are one
  (`ShortListsLoseIff`).  RenderViber puts a short heading first.  Within its bounds on token,
  sender and address it loses nothing provided that the token takes at most 13000 bytes in JSON
  (`RenderedBlocksSurvive`), which every token does that JSON need not escape
  (`PlainTokensLoseNothing`).  A token of 4096 `<` takes 24576 bytes, and with it the heading can
  vanish without an error (`HeadingVanishes`).  `OversizedFirstBlockVanishes` is about the packer
  called with other lists.
* A domain operation can be started twice if a post passes its deadline checks and then waits for
  the lock until its earlier record has been pruned (`LatePostRepeats`).  It is started at most
  once if every post is pruned for before its deadline plus five minutes (`ExecutedAtMostOnce`).
* A resolved answer passes validation exactly when it has at most five main groups, its wording
  does, and no chosen span is blank (`ResolvedIsValidIff`).  `BlankQuoteIsRefused` gives an
  article and an answer that resolve and are then refused.
* The pause after a 429 ends for a later owner only while nothing has been sent: then the edition
  is completed (`LaterOwnerFinishes`).  Once a plain part is sent, its own owner stays refused and
  nobody else gets the intent, so that it is never completed (`RateLimitAfterSentIsFinal`).
* The two readings of `send_telegram` agree exactly off null (`ReadingsAgreeIffNotNull`).
* A closing connection has forwarded everything it read exactly unless the stream is a server's
  and a message is open at its close frame (`ForwardsWhatItReads`); `ServerCloseInsideMessage`
  is such a stream of five bytes.

## Model

| member | source | states |
|---|---|---|
| `ViberStore.Database.Load` | go-domain/viberdelivery/postgres.go:170-215 | loading a delivery that another attempt or instance left in `sending` turns it into `delivery_unknown`; nothing else changes |
| `ViberStore.Database.Materialize` | go-domain/viberdelivery/postgres.go:217-262 | the parts of a rendering are written once, numbered and pending, and only onto an open delivery without parts |
| `ViberStore.Database.Reserve` | go-domain/viberdelivery/postgres.go:264-358 | every refusal and the grant of a reservation: next part in line, attempt counted, lease taken and spaced |
| `ViberStore.Database.Finish` | go-domain/viberdelivery/postgres.go:359-432 | the part, delivery, retry time and lease after an answer, and in literals: a rate limit (429 or API status 12) leaves `retry_wait` on the first two attempts and `exhausted` on the third, another refusal `rejected`, doubt `delivery_unknown`, and an accepted part `completed` exactly when all are sent; a foreign or malformed answer changes nothing |
| `ViberStore.FinishRecords` | go-domain/viberdelivery/postgres.go:378-408 | for a part that its owner is sending, the state of part and delivery after every answer, by status, attempts and the other parts; nothing else of the row moves |
| `ViberStore.FinishPauses` | go-domain/viberdelivery/postgres.go:409-431 | when row and channel come up again: the pause asked for up to an hour, for a retry at least 30 seconds and after the second attempt 120; the lease is kept only while parts follow |
| `ViberStore.Database.Stop` | go-domain/viberdelivery/postgres.go:435-457 | which open deliveries may be stopped, and in which state |
| `ViberStore.Database.CheckSendAuthority` | go-domain/viberdelivery/postgres.go:460-497 | a send is allowed only to the lease holder of a part being sent, and renews the lease |
| `ViberStore.Database.BeginTest` | go-domain/viberdelivery/testsend.go:38-111 | a test message takes the channel lease exactly when settings, spacing, cooldown and lease allow it |
| `ViberStore.Database.CheckTest` | go-domain/viberdelivery/testsend.go:115-144 | the authority check of a test message |
| `ViberStore.Database.FinishTest` | go-domain/viberdelivery/testsend.go:145-190 | the receipt and the lease after a test message |
| `ViberDecisions.BindingIsExact` | go-domain/viberdelivery/postgres.go:86-90 | two settings that bind the same delivery agree in switch, channel, sender, credential, verification, webhook, start and stored credential, and a change to one of them unbinds it |
| `ViberDecisions.LoadDecides` | go-domain/viberdelivery/postgres.go:170-215 | loading gives up what another attempt or process of the job was sending, and nothing else |
| `ViberDecisions.MaterializeDecides` | go-domain/viberdelivery/postgres.go:217-262 | parts are frozen once, numbered and pending, from 1 to 512 texts of at most a mebibyte; a later rendering changes nothing |
| `ViberDecisions.MaterializeAgrees` | go-domain/viberdelivery/postgres.go:242-250 | a repeated rendering succeeds exactly when version and texts are those frozen |
| `ViberDecisions.ReserveCloses` | go-domain/viberdelivery/postgres.go:284-313 | an open row a day old is exhausted, with delivery switched off cancelled, and unbound configuration_changed, in this order |
| `ViberDecisions.ReserveDecides` | go-domain/viberdelivery/postgres.go:314-358 | in any other open row: which part is refused, known, out of line, to wait for its channel, or granted |
| `ViberDecisions.ReservationIsRecorded` | go-domain/viberdelivery/postgres.go:344-358 | a granted reservation counts the attempt, marks part and row with its owner, and leases the channel for 60 seconds, spaced by one |
| `ViberDecisions.ReserveRefuses` | go-domain/viberdelivery/postgres.go:279-286 | a row of another job or that is not open is left alone |
| `ViberDecisions.CheckDecides` | go-domain/viberdelivery/postgres.go:460-497 | a message goes out exactly for its own reservation, under a running lease without a test, for a bound row younger than a day |
| `ViberDecisions.StopDecides` | go-domain/viberdelivery/postgres.go:435-457 | which rows can be closed and with which states; a refusal needs that nothing was sent |
| `ViberDecisions.TestBeginDecides` | go-domain/viberdelivery/testsend.go:38-111 | a test starts exactly once for a request, over verified settings and a channel without lease, spacing or cooldown |
| `ViberDecisions.TestRecoveryDecides` | go-domain/viberdelivery/testsend.go:33-58 | a test whose lease is gone becomes unknown and is never sent again |
| `ViberDecisions.TestCheckDecides` | go-domain/viberdelivery/testsend.go:115-144 | a test goes out exactly under its own running lease and the settings that it began with, and renews the lease |
| `ViberDecisions.TestFinishDecides` | go-domain/viberdelivery/testsend.go:145-190 | a test answer is recorded once, and the channel rests a second, or 30 after a rate limit |
| `ViberProtocol.EnvHarmless` | go-domain/appsettings/viber.go:105-109 | settings changes, dispatch, recovery and the clock touch no part that was tried and no lease |
| `ViberProtocol.ReserveKeepsInv` | go-domain/viberdelivery/postgres.go:264-358 | a granted reservation keeps the whole invariant: row shape, posts, sessions, timing, spacing |
| `ViberProtocol.SendKeepsInv` | go-domain/airuntime/viber.go:122-170 | handing a part to the network keeps the invariant; on one channel any earlier post is over or out of time |
| `ViberProtocol.DoFinishKeepsInv` | go-domain/viberdelivery/postgres.go:359-432 | recording an answer keeps the invariant |
| `ViberProtocol.RunKeepsInv` | go-domain/airuntime/viber.go:41-176 | the invariant holds after every interleaving of jobs, attempts, crashes, tests and settings changes |
| `ViberGuarantees.PartsInOrder` | go-domain/viberdelivery/postgres.go:184-195 | in every reachable state the sent parts are a prefix, at most the next part was tried, the rest is pending with no attempt, and `completed` holds exactly when all are sent |
| `ViberGuarantees.NeverRepeated` | go-domain/airuntime/viber.go:122-170 | a message is posted again only after the network definitely refused every earlier post of it |
| `ViberGuarantees.PossibleSendStaysVisible` | go-domain/viberdelivery/postgres.go:264-358 | a post that may have been accepted leaves its part sending, sent or unknown |
| `ViberGuarantees.AtMostThreePosts` | go-domain/viberdelivery/postgres.go:264-358 | at most three posts of a part and one of a test, over all jobs and attempts |
| `ViberGuarantees.CompletedMeansConfirmed` | go-domain/viberdelivery/postgres.go:359-432 | each part of a completed delivery has a post that the network confirmed |
| `ViberGuarantees.LeaseExclusive` | go-domain/viberdelivery/testsend.go:87-102 | a delivery and a test never hold a channel together |
| `ViberGuarantees.ReservationsSpaced` | go-domain/viberdelivery/postgres.go:334-358 | any two reservations of a channel are at least a second apart |
| `ViberGuarantees.PostsNeverOverlap` | go-domain/viberdelivery/postgres.go:460-497 | if every post ends within 60 s of its authority check, posts on a channel never overlap |
| `ViberGuarantees.RateLimitBlocksChannel` | go-domain/viberdelivery/postgres.go:409-431 | a rate-limited answer of the lease holder blocks every later reservation of the channel for 30 s, or 120 s after the second attempt |
| `ViberProgress.Poll` | go-domain/airuntime/viber.go:123-140 | asking once a second moves nothing but the clock, and ends no later than the channel becomes free |
| `ViberProgress.Attend` | go-domain/airuntime/viber.go:122-170 | a run of the protocol; the next part of an open row is reserved, checked and posted once, and for every answer the row is what that answer makes of it; a sent part is passed over |
| `ViberProgress.ExecuteDelivery` | go-domain/airuntime/viber.go:41-176 | always a run of the protocol; on an open and bound row young enough for the waits and answers, exactly the parts left are posted, once each and in order, up to the first message not accepted: the delivery is completed, or that part and the row carry its refusal, its doubt, its rate limit or, without a token, nothing |
| `ViberRetries.FirstFailureDecides` | go-domain/viberdelivery/postgres.go:384-396 | after a call of the driver, by the first answer that was not an acceptance: rejected, unknown, exhausted, or after a rate limit on the first or second attempt an open row with the refused part next |
| `ViberRetries.DeliverWithRetry` | go-domain/airuntime/viber.go:41-176 | two calls with a dispatch between them: when a rate limit stops the first on attempt one or two, the second waits for the channel, posts that part again and the later ones once each in order, and completes the delivery when nothing else is refused |
| `TelegramStore.Receipts.ResolveIntent` | go-domain/telegramdelivery/postgres.go:162-217 | who may open, take over or resume an intent, and what is left of its receipts |
| `TelegramStore.Receipts.Reserve` | go-domain/telegramdelivery/postgres.go:39-117 | when a part is new, already known, paused or closed; in literals: rate limited exactly while a 429 of the caller, or one of another owner whose pause runs, is on record, and otherwise a part without receipt or with another owner's 429 is granted |
| `TelegramStore.Receipts.Finish` | go-domain/telegramdelivery/postgres.go:118-150 | what an answer does to the receipt of its own part |
| `TelegramStore.Receipts.Complete` | go-domain/telegramdelivery/postgres.go:221-244 | an active intent of its owner takes the given outcome, of at least one part, once; otherwise nothing changes |
| `TelegramStore.ResolveCreates` | go-domain/telegramdelivery/postgres.go:162-217 | the first owner creates the intent and finds it open until it is completed |
| `TelegramStore.TakeoverDecides` | go-domain/telegramdelivery/postgres.go:162-217 | another owner gets an unfinished intent exactly when every receipt is a refusal, and keeps the receipts |
| `TelegramStore.ReserveDecides` | go-domain/telegramdelivery/postgres.go:56-116 | every answer of Reserve to the intent's owner, from owners, statuses and elapsed pauses, in both directions |
| `TelegramStore.FinishDecides` | go-domain/telegramdelivery/postgres.go:118-150 | an answer is recorded once, by the owner of the message, with its status and pause |
| `TelegramProtocol.DoKeepsInv` | go-domain/telegramdelivery/delivery.go:69-112 | every step of every publishing session keeps the invariant over owners, receipts and posts |
| `TelegramProtocol.RunKeepsInv` | go-domain/airuntime/digest_execute.go:255-303 | so does every interleaving of owners, takeovers and crashes |
| `TelegramProtocol.DeliveredIsRichOrPrefix` | go-domain/telegramdelivery/delivery.go:45-68 | whatever may be delivered belongs to the current owner, and is just the rich message or exactly a prefix of the plain parts |
| `TelegramProtocol.NeverRepeated` | go-domain/telegramdelivery/delivery.go:69-112 | a message is posted again only after a definite refusal |
| `TelegramProtocol.CompletedMeansSent` | go-domain/telegramdelivery/postgres.go:221-244 | a completed intent has its rich message, or all its plain parts, sent |
| `TelegramProtocol.NothingAfterCompletion` | go-domain/telegramdelivery/postgres.go:27-37 | nothing is posted after completion, which is final |
| `TelegramProtocol.RateLimitPausesIntent` | go-domain/telegramdelivery/postgres.go:39-117 | after a 429 no session reserves any part of the intent before the announced pause is over |
| `TelegramProtocol.RateLimitAfterSentIsFinal` | go-domain/telegramdelivery/postgres.go:53-74 | once a plain part is sent, a 429 of the owner is never got over: no run reserves another message or completes the intent |
| `TelegramProgress.Publish` | go-domain/airuntime/digest_execute.go:255-303 | always a run of the protocol; for any receipts and any answers, exactly which messages an undisturbed call posts, in which order, and what it records; an intent in conflict, doubt or completed is left alone |
| `TelegramProgress.ResumePostsTheRest` | go-domain/airuntime/digest_execute.go:284-303 | after an interruption or an announced pause: the rich message is tried unless refused for good, the sent plain parts are passed over, each of the others, refused ones included, is posted once in order, and the intent is completed |
| `TelegramProgress.LaterOwnerFinishes` | go-domain/telegramdelivery/postgres.go:53-105 | in every reachable state, an intent that another owner left with refusals alone, all pauses over, is open to a later owner, whose call posts what got a 429 again, then every plain part, and completes it |
| `TelegramProgress.AcceptedMeansCompleted` | go-domain/airuntime/digest_execute.go:268-303 | without receipts and with the plain parts accepted: one rich post, or each plain part once, or the refused rich post and then each plain part, and completion with that count |
| `SourceLedger.LedgerState.Reconcile` | go-domain/terminalevents/sources.go:90-97 | announcements of jobs that are gone become unknown incidents |
| `SourceLedger.LedgerState.BreakStreaks` | go-domain/terminalevents/sources.go:98-109 | a gap in the queue resets the streaks and moves the position on |
| `SourceLedger.LedgerState.Prepare` | go-domain/terminalevents/sources.go:110-208 | the ledger and the events of one job: replay, gap, vanished sources, observation by observation; the events are decided in `WarningDecides` and `GoodReadingDecides` |
| `SourceLedger.LedgerState.FinishNotice` | go-domain/terminalevents/sources.go:209-236 | what a delivered or failed notice does to the sources it announced |
| `SourceLedger.LedgerState.Abandon` | go-domain/terminalevents/store.go:115-122 | abandoning a job makes its announcements unknown |
| `SourceAlerts.RunKeepsInv` | go-domain/terminalevents/sources.go:90-236 | for every source, the ledger tracks the history of its readings over every run |
| `SourceAlerts.AlarmNeedsTwoStrikes` | go-domain/terminalevents/sources.go:110-208 | a warning event needs two consecutive warning readings with no gap |
| `SourceAlerts.RecoveryNeedsDeliveredAlarm` | go-domain/terminalevents/sources.go:110-236 | a recovery event needs a delivered, unanswered alarm and two consecutive good readings |
| `SourceAlerts.AlarmsAreSeparated` | go-domain/terminalevents/sources.go:110-208 | between two warning events of an unchanged source there are two consecutive good readings |
| `SourceAlerts.LedgerStaysSound` | go-domain/terminalevents/sources.go:47-81 | a job is recorded exactly in attempting and recovering, and every ledger stored is one that loads |
| `SourceAlerts.ReplayIsSilent` | go-domain/terminalevents/sources.go:110-208 | a replayed position announces nothing |
| `SourceAlerts.ObserveOne` | go-domain/terminalevents/sources.go:110-208 | the loop treats each source exactly once, with its own reading |
| `SourceNotices.WarningDecides` | go-domain/terminalevents/sources.go:146-160 | a warning of a known source raises the alarm exactly when it is the second in a row and no incident is open; state, streak and job afterwards |
| `SourceNotices.GoodReadingDecides` | go-domain/terminalevents/sources.go:160-178 | a good reading announces the recovery exactly when it is the second in a row after a delivered alarm, and the second clears an incident of unknown outcome |
| `SourceNotices.FirstReadingStarts` | go-domain/terminalevents/sources.go:139-145 | a new or reconfigured source starts from scratch and is not announced |
| `SourceNotices.GapStartsAgain` | go-domain/terminalevents/sources.go:115-121 | after a gap in the queue nobody is announced, streaks start again and incidents stay |
| `SourceNotices.AbsenceDecides` | go-domain/terminalevents/sources.go:126-136 | a source that is not read is forgotten exactly when nothing is open about it, and loses its streaks otherwise |
| `SourceNotices.TwoWarningsRaiseAlarm` | go-domain/terminalevents/sources.go:110-208 | two positions in a row that warn of a source without an open incident raise exactly one alarm |
| `SourceNotices.BreakDecides` | go-domain/terminalevents/sources.go:98-109 | a job without readings breaks streaks and keeps incidents, a replayed one only settles what is lost |
| `SourceNotices.AbandonDecides` | go-domain/terminalevents/store.go:115-122 | what a given-up job was announcing is in doubt, and nothing else changes |
| `SourceNotices.OutcomeDecides` | go-domain/terminalevents/sources.go:209-236 | a delivered alarm is active, a delivered recovery closes the incident, an undelivered one is in doubt, each settled once |
| `SourceNotices.SecondReadingDecides` | go-domain/terminalevents/sources.go:110-208 | in every run, the second of two warning readings with nothing between raises the alarm exactly when no incident is open, and the second of two good ones announces the recovery exactly when the alarm is active |
| `ViberPacking.PackBlocksForTotal` | go-editorial/editorial/viber.go:173-199 | the packing loop for an assumed total computes the specified groups |
| `ViberPacking.PassIsOrdered` | go-editorial/editorial/viber.go:173-199 | a pass keeps blocks whole and in order; only leading blocks that fit nowhere are missing |
| `ViberPacking.SplitsAreNeeded` | go-editorial/editorial/viber.go:173-199 | a pass begins a new message only where the next block would take the present one over a soft limit |
| `ViberPacking.DigitsDecide` | go-editorial/editorial/viber.go:201-209 | the size of a finished part depends on its numbers only through their digits |
| `ViberPacking.SoftLimitsHold` | go-editorial/editorial/viber.go:145-171 | a pass that needs no more messages than assumed gives parts within the soft limits |
| `ViberPacking.PackBlocks` | go-editorial/editorial/viber.go:145-171 | the repacking loop, with the hard-limit error proved unreachable in it |
| `ViberPacking.RepackingConverges` | go-editorial/editorial/viber.go:145-171 | at most four of the eight attempts for 999 blocks, and enough for every list below ten million |
| `ViberPacking.OnlyOversizeFails` | go-editorial/editorial/viber.go:145-171 | the exhaustion error is unreachable: packing fails exactly when the settled pass gives up over a block |
| `ViberPacking.PreflightPasses` | go-domain/airuntime/viber.go:114-120 | every returned part is within the limits that the later preflight tests |
| `ViberPacking.MessagesAreNumbered` | go-editorial/editorial/viber.go:201-203 | message i of n shows its blocks, then i and n in this order, then the link |
| `ViberPacking.JoinReads` | go-editorial/editorial/viber.go:173-199 | a message begins with its first block and goes on with the others behind blank lines |
| `TextSize.DecimalDenotes` | go-editorial/editorial/viber.go:201-203 | the numeral written for a number denotes it, without leading zeros |
| `ViberPacking.LosslessIffFirstFits` | go-editorial/editorial/viber.go:173-199 | a pass loses nothing exactly when its first block fits alone |
| `ViberPacking.NothingLostIffFirstFits` | go-editorial/editorial/viber.go:173-199 | the same for what the packer returns, at the total it settles on |
| `ViberPacking.NothingLostIfFirstFitsWide` | go-editorial/editorial/viber.go:145-199 | a first block that fits under a footer as wide as the number of blocks means that nothing is lost |
| `ViberPacking.FirstLostIfTooLong` | go-editorial/editorial/viber.go:173-199 | a first block that does not fit as the only message is lost, whatever follows |
| `ViberPacking.ShortListsLoseIff` | go-editorial/editorial/viber.go:145-199 | up to nine blocks, nothing is lost exactly when the first block fits as the only message |
| `ViberPacking.RenderedBlocksSurvive` | go-editorial/editorial/viber.go:63-108 | with a heading of at most 100 bytes, a sender and an address within the renderer's bounds and a token of at most 13000 bytes in JSON, nothing is lost |
| `ViberPacking.PlainTokensLoseNothing` | go-editorial/editorial/viber.go:63-108 | nothing is lost with any accepted token that JSON need not escape |
| `ViberPacking.HeadingVanishes` | go-editorial/editorial/viber.go:173-199 | with an accepted token that JSON escapes, a heading is lost and packing succeeds |
| `ViberPacking.FittingBlocksArePacked` | go-editorial/editorial/viber.go:145-199 | blocks that each fit alone are always packed, without loss |
| `ViberPacking.OversizedFirstBlockVanishes` | go-editorial/editorial/viber.go:173-199 | a list of one oversized block, which the renderer never makes, yields success and no message |
| `PlainPacking.PackPlainParts` | go-editorial/editorial/render.go:202-233 | the loop over strings returns the messages of the specified groups, or the size error |
| `PlainPacking.PackingIsFaithful` | go-editorial/editorial/render.go:202-252 | every block once, whole and in order; every message within 4096 with its footer; every categorised block under its own heading in its own message |
| `PlainPacking.MessagesAreFlagged` | go-editorial/editorial/render.go:202-252 | a heading stands exactly where the category changes or a message begins, a divider exactly inside a category, and the footer last |
| `PlainPacking.SplitsAreNeeded` | go-editorial/editorial/render.go:202-233 | a new message begins only where the next block would take the present one over 4096 |
| `PlainPacking.JoinReads` | go-editorial/editorial/render.go:202-252 | a message begins with its first piece: heading, divider, block; the others follow behind blank lines |
| `PlainPacking.OnlyOversizeFails` | go-editorial/editorial/render.go:213-228 | packing fails only over a block that is too large alone |
| `JobPipeline.DeliveryIsLast` | go-execution/orchestration/pipeline.go:128-165 | whatever a job has been answered, a delivering operation is the last it asks; then it stops, may deliver, and is not marked as failing before delivery |
| `JobPipeline.DigestFailureMark` | go-execution/orchestration/pipeline.go:278-314 | a failing digest job is marked risky exactly when it had asked for the publication |
| `JobPipeline.DigestDoneIsPublished` | go-execution/orchestration/pipeline.go:278-314 | a digest job that may deliver and ends with a result has asked the publication and was told success, unless delivery is switched off |
| `JobPipeline.DisabledDeliversNothing` | go-execution/orchestration/pipeline.go:128-165 | with delivery switched off a digest job asks neither preparation nor publication |
| `JobScripts.JobAsks` | go-execution/orchestration/pipeline.go:76-314 | a job of any kind, payload and switches whose calls go well asks exactly the listed operations in that order, and then ends |
| `JobScripts.FailureEndsJob` | go-execution/orchestration/pipeline.go:237-314 | a failing call ends the job in an error exactly unless it is for the statistics, or for a picture and the fence is not stale |
| `JobScripts.FailureMarks` | go-execution/orchestration/pipeline.go:128-165 | errors of a digest are marked, those of another delivery as risky once it has been asked, no others |
| `JobScripts.SourceTestTells` | go-execution/orchestration/pipeline.go:168-185 | a source test reports a warning exactly when its source did not succeed |
| `JobScripts.PayloadDecides` | go-execution/validation.go:121-131 | a switch of the payload is absent or a truth value |
| `JobPipeline.ReadingsAgreeIffNotNull` | go-execution/validation.go:326-337 | the two readings of `send_telegram` agree exactly on values other than null, which validation refuses |
| `JobPipeline.RiskyRunIsNeverDenied` | go-execution/lifecycle.go:61-123 | a run that asked a delivery ends as succeeded or delivery_unknown under every error, timeout, cancellation and refused result; which of the two, `SucceededIff` says |
| `JobPipeline.SucceededIff` | go-execution/lifecycle.go:64-109 | a run is recorded as succeeded exactly when it returned a result within its size, with its context on, sound, not disabled, and not a source test that warns |
| `JobPipeline.FailureIsClassified` | go-execution/lifecycle.go:115-123 | any other run: in doubt exactly when it is marked so, or unmarked with a kind and payload that may deliver; else interrupted exactly on cancellation, else failed |
| `ReceiptStore.ReceiptTables.CheckFence` | go-execution/lifecycle.go:259-290 | the fence in front of every write, and when the deadline is its only objection |
| `ReceiptStore.ReceiptTables.Accept` | go-execution/store.go:19-92 | when a submission is new, known, in conflict or refused, and the receipt it leaves |
| `ReceiptStore.ReceiptTables.SetRunning` | go-execution/lifecycle.go:152-154 | an accepted receipt becomes running under the fence |
| `ReceiptStore.ReceiptTables.Finish` | go-execution/lifecycle.go:209-228 | a terminal write happens under the fence or not at all |
| `ReceiptStore.ReceiptTables.Finalize` | go-execution/orchestration/legacy.go:66-90 | the current worker under its guard gives an open receipt the state of its ended job and creates a missing one |
| `ReceiptStore.FenceDecides` | go-execution/lifecycle.go:259-290 | a write gets through exactly for an open receipt of this process while its worker leads, its job is assigned and its guard is held |
| `ReceiptStore.AcceptDecides` | go-execution/store.go:19-92 | a new attempt is accepted exactly under a leading worker, for its assigned running job, within the deadline bounds, with a valid payload and a held guard |
| `ReceiptStore.WritesDecide` | go-execution/lifecycle.go:152-228 | behind the fence an accepted receipt becomes running, and an open one takes the final state |
| `ReceiptStore.CancelDecides` | go-execution/http.go:432-452 | a cancel leaves doubt exactly for a running attempt that may deliver, and interrupts any other of this process |
| `ReceiptStore.FinalizeDecides` | go-execution/orchestration/legacy.go:66-90 | an attempt of an ended job without a final receipt gets one with the job's state |
| `AttemptProtocol.StepIsLater` | go-execution/lifecycle.go:209-290 | every step keeps receipts, their digests and instances, and changes only open ones |
| `AttemptProtocol.SubmitKeepsInv` | go-execution/http.go:111-165 | admission keeps the invariant |
| `AttemptProtocol.CancelAskKeepsInv` | go-execution/http.go:390-401 | stopping a run keeps it |
| `AttemptProtocol.CancelReadKeepsInv` | go-execution/http.go:432-452 | so does the decision between interruption and unknown delivery, read at another time |
| `AttemptProtocol.CancelWriteKeepsInv` | go-execution/http.go:453-466 | and the fenced write of that decision, later still |
| `AttemptProtocol.RecordKeepsInv` | go-execution/http.go:453-466 | a terminal write by an entitled process keeps the invariant |
| `AttemptProtocol.RunKeepsInv` | go-execution/lifecycle.go:12-113 | the invariant holds after every interleaving of submissions, runs, cancels, finalization, crashes and takeovers |
| `AttemptGuarantees.DeliveryNeverDenied` | go-execution/http.go:432-466 | an attempt that put a delivery on the wire is never recorded by its run or a cancel, before or after, as failed or interrupted |
| `AttemptOutcomes.SuccessMeansReturned` | go-execution/lifecycle.go:61-113 | in every run, an attempt recorded as succeeded returned from the pipeline at some step with a result, in time, sound and not cancelled |
| `AttemptOutcomes.SuccessMeansPublished` | go-execution/orchestration/pipeline.go:278-314 | and a digest that may deliver was published, with success confirmed |
| `AttemptGuarantees.ResubmissionIsAnswered` | go-execution/store.go:19-47 | submitting an attempt again is answered with its present state, or as a conflict if the digest differs, and changes nothing |
| `AttemptGuarantees.EntersAtMostOnce` | go-execution/store.go:19-92 | each (job, attempt) enters the pipeline at most once, only under the digest of its receipt |
| `AttemptGuarantees.OneActiveAttempt` | go-execution/http.go:131-165 | a process has at most one active attempt and none while it admits, so the second busy check never fires |
| `AttemptGuarantees.TerminalReceiptsAreFinal` | go-execution/lifecycle.go:209-228 | a terminal receipt never changes again; none changes its digest or disappears |
| `AttemptGuarantees.TakeoverFreezesReceipts` | go-execution/store.go:101-141 | after a worker takeover only finalization changes earlier receipts |
| `EvidenceSpans.SplitSourceSpans` | go-editorial/editorial/gemini.go:332-371 | the loop cuts the text where the specification says, and numbers the spans |
| `EvidenceSpans.SpansTile` | go-editorial/editorial/gemini.go:332-371 | spans join to the whole text, each 1 to 500 characters of it, with ids counting from one |
| `EvidenceSpans.CutPrefersSentences` | go-editorial/editorial/gemini.go:341-362 | a cut inside the text follows the last sentence end of the preferred half, else the last white space, else the limit |
| `EditionGuarantees.BuildSpans` | go-editorial/editorial/gemini.go:155-171 | no span of any article overwrites another, and each comes from the summary of its own article |
| `Stories.ResolveModelStories` | go-editorial/editorial/gemini.go:235-304 | the loops over notes, groups and articles compute the specified stories or the error |
| `EditionRules.ResolvesIff` | go-editorial/editorial/gemini.go:235-304 | an answer resolves exactly with one usable note for each article and nothing else, and groups of 1 to 100 noted articles with a primary among them, none twice |
| `EditionRules.SnapshotDecides` | go-editorial/editorial/validate.go:43-63 | a snapshot has 1 to 500 articles with different ids, readable titles and bounded summaries |
| `Stories.OrderStories` | go-editorial/editorial/gemini.go:306-320 | the loops compute the specified order, which `StoriesFollowSnapshot` tells by positions |
| `StoryOrder.StoriesFollowSnapshot` | go-editorial/editorial/gemini.go:235-330 | in a resolved answer the main groups come first, in the order of the answer; each brief has a member at a position before every member of the later ones |
| `Stories.StorySnapshotIndex` | go-editorial/editorial/gemini.go:322-330 | the least snapshot position of a member |
| `StoryCover.ExactCover` | go-editorial/editorial/gemini.go:235-304 | every article of the snapshot is in exactly one story, once, and nothing else is |
| `StoryCover.StoriesSound` | go-editorial/editorial/gemini.go:259-301 | each story has its primary among its members and one quote for each of them, in their order |
| `StoryCover.PlacesDiffer` | go-editorial/editorial/gemini.go:322-330 | groups that share no article have different snapshot positions |
| `StoryCover.ListingOrderIsForgotten` | go-editorial/editorial/gemini.go:306-330 | listing the brief groups in another order gives the same stories or the same refusal |
| `StoryCover.ResolutionOutline` | go-editorial/editorial/gemini.go:259-304 | kinds, primaries and members of the stories depend only on those of the groups |
| `Ordering.SortStrings` | go-editorial/editorial/validate.go:255-261 | the in-place sort computes the specified sort |
| `Ordering.SortForgetsOrder` | go-editorial/editorial/validate.go:255-261 | sorting forgets the order of its input, for every order that decides between its elements |
| `Editions.StoryIdOf` | go-editorial/editorial/validate.go:204-214 | the id is a function of kind and sorted members |
| `EditionGuarantees.IdForgetsOrder` | go-editorial/editorial/validate.go:204-214 | the id does not depend on the order of the members |
| `Editions.ValidateEdition` | go-editorial/editorial/validate.go:72-183 | the loops accept exactly the editions that satisfy the declarative rules |
| `EditionRules.ValidMeans` | go-editorial/editorial/validate.go:40-183 | a valid edition has at most five main stories, readable texts, known members with a primary, one quote for each member found in its own article, and every article of the snapshot in exactly one story or exclusion |
| `EditionGuarantees.ResolveLocalized` | go-editorial/editorial/localization.go:29-46 | from the snapshot and an answer to the edition, over the spans of the prompt, with locales and ids written in; or the refusal of snapshot, summaries, prompt size, answer or edition |
| `EditionGuarantees.ResolvedIsValidIff` | go-editorial/editorial/validate.go:72-177 | a resolved answer is valid exactly when it has at most five main groups, acceptable wording and no blank quote; every other check is bound to pass |
| `EditionGuarantees.BlankSpansHappen` | go-editorial/editorial/validate.go:135-137 | a summary that is not blank can have a blank span, so that last condition is real |
| `EditionGuarantees.BlankQuoteIsRefused` | go-editorial/editorial/gemini.go:240-258 | for every locale and prose test, a snapshot and an answer naming a blank span: it resolves, and its edition is not valid |
| `EditionGuarantees.SameEditorialPlan` | go-editorial/editorial/localization.go:49-70 | the comparison loops decide sameness of the plan |
| `EditionGuarantees.SameGroupsSamePlan` | go-editorial/editorial/localization.go:49-70 | two answers with equal main groups and the same brief groups in any order always have the same plan |
| `DomainRegistry.Service.Prune` | go-domain/domainops/service.go:119-126 | exactly the expired records that do not run go, and the byte count follows |
| `DomainRegistry.Service.Post` | go-domain/domainops/service.go:153-211 | every verdict on a request, by its four clock readings, and the registry after it |
| `DomainRegistry.Service.Complete` | go-domain/domainops/service.go:304-335 | the record and counters after an operation |
| `DomainRegistry.RepostIsAnswered` | go-domain/domainops/service.go:153-335 | until five minutes after its deadline a finished request posted again gets its outcome, succeeded exactly when the result was within both bounds; another request under its key is a conflict |
| `DomainRegistry.WorkBegins` | go-domain/domainops/service.go:153-211 | an operation starts exactly within the deadline bounds, for a free key, in an idle process with room that does not drain |
| `DomainRegistry.Service.Drain` | go-domain/domainops/service.go:336-344 | admission stops for good and every running operation is cancelled |
| `DomainRegistry.NothingStartsAfterDrain` | go-domain/domainops/service.go:153-211 | whatever happens after a drain, no request is started, and what was running stays cancelled |
| `DomainRegistry.RunKeepsInv` | go-domain/domainops/service.go:119-335 | the invariant holds after every sequence of posts, lookups, completions and drains |
| `DomainRegistry.ExecutedAtMostOnce` | go-domain/domainops/service.go:153-211 | no request is started twice in the life of the process, if no post is pruned for later than five minutes after its deadline |
| `DomainRegistry.LatePostRepeats` | go-domain/domainops/service.go:153-211 | every post pruned for later than that starts its operation a second time in some run |
| `DomainRegistry.BoundsHold` | go-domain/domainops/service.go:196-208 | bytes are the sum of record sizes within 4 MiB, records within 512, and active counts the running ones, at most one |
| `CallbackCache.AdmissionCache.Begin` | go-domain/callbacks/admission.go:36-51 | a hit moves to the recent end; otherwise admission, running or full |
| `CallbackCache.AdmissionCache.Finish` | go-domain/callbacks/admission.go:54-73 | caching and eviction; the branch that replaces a cached key is proved dead |
| `CallbackCache.TrimIsLeast` | go-domain/callbacks/admission.go:70-72 | eviction drops the oldest entries, as few as will do |
| `CallbackCache.NewestSurvives` | go-domain/callbacks/admission.go:61-72 | a response that is cached survives its own eviction |
| `CallbackCache.RunKeepsInv` | go-domain/callbacks/admission.go:36-79 | counts, bounds, disjointness of active and cached keys, and the order of use hold after every run |
| `CallbackCache.BoundsHold` | go-domain/callbacks/admission.go:36-79 | after every run the running callbacks, the cached responses and their bytes are within their limits |
| `CallbackCache.HitIsLatest` | go-domain/callbacks/admission.go:36-42 | a hit returns exactly the bytes last finished for its key |
| `CallbackCache.FinishedIsHit` | go-domain/callbacks/admission.go:54-73 | a response that fits is a hit from then on, whatever is evicted; one that does not leaves the cached ones alone |
| `CallbackCache.AdmissionDecides` | go-domain/callbacks/admission.go:36-51 | a cached key is a hit, a running one is refused, another starts exactly below the limit |
| `CallbackCache.EvictsOldest` | go-domain/callbacks/admission.go:70-79 | whatever is evicted was used before everything that is kept |
| `SlidingWindow.Limiter.TryAcquire` | go-domain/airuntime/admission.go:32-51 | one pass under the lock: forgotten calls, admission, and the wait otherwise |
| `SlidingWindow.AdmitsAtMostLimit` | go-domain/airuntime/admission.go:27-56 | admission i+limit comes at least one window after admission i, over every run |
| `SlidingWindow.RefusalMeansFull` | go-domain/airuntime/admission.go:42-47 | a refusal means that `limit` admissions lie inside the window |
| `JsonEscapes.Rewrite` | go-domain/domainops/canonical.go:11-41 | the loop over runs of backslashes rewrites escape by escape |
| `JsonEscapes.MeaningKept` | go-domain/domainops/canonical.go:11-41 | every well-formed text keeps its structure and the code units of its strings (section 7 of RFC 8259) |
| `JsonEscapes.NoEscapeLeft` | go-domain/domainops/canonical.go:28-35 | no escape of U+2028 or U+2029 is left, and a second rewrite changes nothing |
| `JsonEscapes.EscapedBackslashStays` | go-domain/domainops/canonical.go:23-38 | an escaped backslash in front of `u2028` is left alone |
| `Schedule.NextOccurrence` | go-execution/orchestration/legacy.go:408-465 | for a schedule that fires, the earliest allowed slot strictly after now, after at most six advances; an interval of 1 to 1440 minutes, 1440 beyond it, and half an hour for everything else |
| `Schedule.SlotReads` | go-execution/orchestration/legacy.go:408-465 | what a usable schedule, its slots and its allowed days are, in hours, minutes and weekdays of the local clock |
| `Schedule.WeekdaysFollow` | go-execution/orchestration/legacy.go:440-461 | the first of January 1970 is a Thursday and each day is the weekday after the one before |
| `Schedule.AdvanceSkipsNothing` | go-execution/orchestration/legacy.go:455-461 | advancing a day over a weekday that is not allowed skips no allowed slot |
| `WebSocketRelay.EncodedTextReadsBack` | scripts/shadow_cdp_relay.py:121-163 | a frame of an encoded text reads back as that text at all three length encodings, and is refused exactly above 1 MiB (section 5.2 of RFC 6455) |
| `WebSocketRelay.RawIsPrefix` | scripts/shadow_cdp_relay.py:121-150 | the raw bytes of a frame are the beginning of the stream |
| `RelayDecisions.FrameDecides` | scripts/shadow_cdp_relay.py:121-150 | a frame is read exactly when its bits, opcode, mask, length form and size are legal and all its bytes are there, and is what they say |
| `RelayDecisions.MaskTwice` | scripts/shadow_cdp_relay.py:149 | masking a byte twice gives the byte |
| `WebSocketRelay.WebsocketCopy` | scripts/shadow_cdp_relay.py:396-481 | the loop over frames computes the specified copy of its stream |
| `RelayDecisions.DataDecides` | scripts/shadow_cdp_relay.py:408-480 | which data frame is refused, held back, or releases its message: everything held, in order, behind a burst only where a server reply is held for one |
| `RelayDecisions.ControlDecides` | scripts/shadow_cdp_relay.py:431-439 | a ping or pong goes out at once, inside a message behind everything held |
| `RelayDecisions.CloseDecides` | scripts/shadow_cdp_relay.py:431-446 | a close releases what a client has sent, and drops what a server has not finished |
| `WebSocketRelay.ForwardsWhatItReads` | scripts/shadow_cdp_relay.py:396-481 | what is forwarded is always a prefix of what was read; after a close it is all of it, exactly unless a server closes while a message is open |
| `WebSocketRelay.ServerCloseInsideMessage` | scripts/shadow_cdp_relay.py:430-444 | a server's unfinished text and then its close: the client gets neither |

## Left out

- HTTP handlers, authentication, JSON decoding and encoding, SQL text and locking: replaced by the transactions and steps they perform.
- AI providers, prompts, circuit breaking, usage pricing and media refresh: their outcomes are arbitrary inputs here.
- Backup, migration, archive and recovery code, and settings administration apart from the changes that the Viber model lets happen.
- HTML escaping, URLs and story wording in rendering: blocks are opaque texts, and the visible length is a parameter.
- orderStories, the order of categories in rendered editions: the packing results hold for every list of blocks, so that order affects none of them.
- The executor's mutexes and active map are values in `AttemptProtocol`, because their updates interleave with other processes; the tables they protect are a class.
- Pipeline.Execute is a function of the replies so far instead of a method, so that other steps can come between its operations.
- Retention pruning of old jobs and receipts: in the model a receipt is never deleted.
- AttemptProtocol.RunKeepsInv: assumes that a request on a cancelled context is not sent, and that kind and payload of a job row do not change.
- ViberGuarantees.PostsNeverOverlap: assumes that each post ends within 60 s of its authority check, as the client timeout is meant to ensure.
- ViberPacking.RepackingConverges: for fewer than ten million blocks; beyond that eight attempts need not be enough.
- Schedule.NextOccurrence: zones with a fixed offset only, so no daylight saving changes.
- SlidingWindow.Limiter.TryAcquire: is one turn of the waiting loop; waiting and cancellation are left to the caller.
- TelegramStore.Receipts.Complete: does not look at receipts, although the comment above the code says that it completes what they confirm; the code does not look at them either, and that only sent messages are recorded is `CompletedMeansSent`.
- ReceiptStore.ReceiptTables.Finalize: without the completion marker and the effects on schedules.
- ViberProgress.ExecuteDelivery: the messages and the row are stated for a row that stays entitled; time passes only while it waits for the channel or for an answer, and no other session moves.
- ViberRetries.DeliverWithRetry: between its two calls only the clock, the dispatch and the second session's start happen.
- TelegramProgress.Publish: no other session moves, and the executor's fence holds.
- DomainRegistry.ExecutedAtMostOnce: counts starts; the second start of a late post has a context that is past its deadline.
- SourceAlerts.LedgerStaysSound: without the 12 KiB bound on a stored ledger.
- SourceLedger.LedgerState.Prepare: the text of notices is not modelled, and the 12 KiB bound on a stored ledger is a flag.
- Editions.ValidateEdition: without the metadata and content hash, which FinalizeEdition copies and recomputes, and with the Serbian prose test as a parameter.
- Stories.OrderStories: the library's stable sort is taken as a stable insertion sort.
- PlainPacking.OnlyOversizeFails: one direction only, since nothing is assumed of the visible length, under which a block that does not fit alone may still fit behind another.
- EvidenceSpans.SplitSourceSpans: on valid Unicode text, character by character.
- EditionGuarantees.ResolveLocalized: whether the encoded prompt is within its limit is a parameter.
- WebSocketRelay.WebsocketCopy: over a finite stream, with JSON validity and the places of notification bursts as parameters; idle timeouts are left out.
