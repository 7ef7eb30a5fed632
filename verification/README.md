# WhatsApp sales agent: verification

The system answers leads on WhatsApp with a language model, moves them along a sales funnel,
mirrors every conversation as a card on a two-pipeline board, delivers what was bought once a
payment is validated, and admits people at the door of an event with a single-use QR entry.

This project models that behaviour in Dafny and proves what it guarantees. `dafny verify
dfyconfig.toml` checks all of it.

## Parts

- **The inbound turn.** `History` is the message table and the ten-row window a turn reads.
  `TurnProtocol` is the protocol itself as a step relation: webhook transactions, the dispatch
  list, the per-conversation locks, any number of workers and the start-up sweep, in any
  interleaving. `TurnEffects` says what its steps are for, from a message to the job it pushed and the
  rows a turn leaves. `TurnSight` follows it and says which messages a turn had before its eyes and which
  ones the mark passes over. `Worker` has the dispatcher, the worker loop and the sweep as methods and
  shows that serving a job is a run of that relation. `Webhook` is the ingestion of delivered batches,
  and `WebhookEffects` what one message, or an opt-out, brings about alone and over any deliveries.
- **The turn's inside.** `Funnel` is the stage machine, `AgentLoop` the bounded tool loop with the
  model as an arbitrary oracle, `AgentTools` what a turn does read off the calls the model makes,
  `AgentService` the assembly of what is stored and sent.
- **The board.** `Board` holds the stages, `Crm` says what each operation does to the stored
  state, and `CrmRuns`, `CrmDelivery`, `CrmEntries` and `CrmNotices` prove what holds over every run.
  `CrmInvariant` joins their invariants into the one every method of the store in `CrmService`
  requires and keeps, each running step by step against `Crm`. `CrmLaws` has the laws of single
  operations and of deletions, and `CrmOutcomes` how each operation ends, read off the fields it starts from. `Capacity` splits deliveries into check and insertion, among all the
  other operations, and bounds what overlapping ones can do to the seats of an event; `CapacityReached`
  shows that the bounds are met. `CrmBuyers` has the runs of single leads that show what the code does
  less than it says. `Admission` is the door.
- **Smaller algorithms.** `Delivery` (what to send), `CardFlags` (notices of a card),
  `CardServices` (services of a card), `Money`, `MoneyRoundTrip` and `MoneyRefusals` (the amount
  parser, its printers and what it refuses), `Beneficiary` (tolerant name matching), `Slugs`, with `Numerals`, `Sequences`, `Text`
  and `Wrappers` underneath.

## What is assumed

- Database statements are atomic and rows are never lost once committed. `message_order` is the
  row's position in the insertion order; a row becomes visible when its transaction commits.
- A lock key may expire at any point: safety is proved for the runs in which no key expires under
  a running turn, and `TurnProtocol.ExpiryBreaksExclusionExactly` says that this is exactly what is needed.
- The table holds one entry per card and a card one entry: entries are a field of the card. A token
  is a counter, so that two entries share none by construction, as with random ones in practice.
- The model, the vision and the sending of messages are oracles that answer anything or fail.
- One organisation; stage names are distinct within a pipeline; the delivery stages stand in their
  seeded order (`Board.InOrder`) and the sale starts in an open stage (`Board.SaleStartsOpen`), which
  `Board.SeededIsInOrder` shows of the seeded board.

## Where the code does less than it says

- A lock key that expires under a long turn lets the same message be answered twice
  (`TurnProtocol.ExpiryAnswersTwice`).
- The webhook pushes the job before its transaction commits; a quick worker finds nothing and the
  message waits for the next sweep (`TurnProtocol.LateCommitIsForgotten`). Six steps can leave the newest
  message of a lead pending with nobody on its way (`TurnProtocol.CoverageKeptExactly`).
- The order of a message is drawn when it is inserted and the message shows when its transaction commits.
  One that commits after a later one was read is answered by no turn, now or later: the mark is above it
  (`TurnSight.OvertakenIsForgotten`, `TurnSight.SkipsExactly`, `TurnSight.MissedToTheEnd`).
- Ten later rows hide a message from the window. If they are not the lead's, the turn finds nothing to
  answer (`History.TenRepliesHide`, `History.WindowAgreesExactly`); if one is, the turn answers that one and
  the mark passes over the hidden one (`TurnSight.BurstIsCut`, `TurnSight.SkipsExactly`).
- One media that cannot be downloaded loses the messages delivered with it, but those up to the last
  extra receipt before it, whose notice commits the session (`Webhook.TextLostWithPhoto`,
  `Webhook.ExtraReceiptKeepsWhatCameBefore`, `Webhook.FailedBatchIsLostExactly`); a media message without payload leaves
  nothing to recognise a retry by (`Webhook.PayloadlessRetryCreates`, `Webhook.RetryIsSilentExactly`).
- The positivity test of the amount parser runs before rounding: "0,0.001" is accepted as zero
  (`MoneyRoundTrip.ThousandthParsesToZero`, `Money.ZeroExactlyBelowHalfCent`).
- A surname cut by the bank to a noise word loses the match (`Beneficiary.DelgadoIsLost`,
  `Beneficiary.CuttingKeepsExactly`).
- A service the operator assigned before the bot sent it is not protected by the capture
  (`CardServices.CapturedButForgotten`, `CardServices.CaptureProtectsExactly`).
- An operator who loses a race against a revocation is told "already used" although nobody used the
  entry (`Admission.RevokedButToldUsed`, `Admission.LoserIsToldUsed`).
- A revoked entry of a card that comes back to the validated stage is sent again
  (`CrmBuyers.ARevokedEntryGoesOut`, `CrmEntries.HandedEntryIsLiveExactly`).
- A lead is told twice that its payment is confirmed when the row of the first notice is lost
  (`CrmBuyers.LostNoticeIsToldAgain`, `CrmNotices.RunsTellOnce`).
- A job left in the list when an opportunity is deleted brings the opportunity back, since every job ends
  in a reconciliation (`CrmLaws.DeletedComesBack`, `CrmLaws.DeletionLastsExactly`).
- Overlapping deliveries can exceed the capacity of an event, by exactly their overlap less one, and an
  edit of the capacity under way by one more (`CapacityReached.ExcessIsReached`,
  `CapacityReached.EditExcessIsReached`, `CapacityReached.CapacityIsSafeExactly`).

## Model

| member | source | states |
|---|---|---|
| History.WindowIsLeadToLead | src/server/modules/agent/services/conversation_store.py:37-69 | The window is the contiguous slice of the ascending rows between the first and the last lead row, and reports the last one's order |
| History.WindowRefinesThread | src/server/modules/agent/services/conversation_store.py:93-128 | If one of the ten newest rows is the lead's, the window's newest lead order is the whole thread's maximum and its rows run from a lead row to a lead row |
| History.WindowAgreesExactly | src/server/modules/agent/services/conversation_store.py:93-128 | The ten-row window and the full thread agree on what is left to answer exactly when the lead never wrote or one of the ten newest rows is the lead's |
| History.TenRepliesHide | src/server/modules/agent/services/conversation_store.py:93-128 | A message followed by ten replies is in no window, though it is the newest of its lead |
| History.WindowShowsExactly | src/server/modules/agent/services/conversation_store.py:37-128 | The window holds exactly the visible messages of the lead with fewer than ten newer rows in the thread |
| History.ProjectableKeeps | src/server/modules/agent/services/conversation_store.py:72-82 | Projection keeps order and exactly the user and assistant rows |
| History.RecentHoldsLatestLead | src/server/modules/agent/repositories/ai_chat_history_repository.py:88-136 | The newest lead row of the thread is among the recent rows as soon as any lead row is |
| TurnProtocol.RunsAreSafe | src/server/worker.py:52-77 | In every interleaving with no expiry under a turn, one turn per conversation is in flight, saved intervals are disjoint and increasing, sends follow their own save |
| TurnProtocol.AnsweredAtMostOnce | src/server/modules/agent/services/agent_service.py:124-138 | No lead row lies in the intervals of two different saved turns of its conversation |
| TurnProtocol.ExpiryBreaksExclusionExactly | src/server/shared/dispatcher.py:98-105 | Losing the lock key puts two turns in flight if and only if one was running |
| TurnProtocol.ExpiryAnswersTwice | src/server/shared/dispatcher.py:29 | A run in which an expired key lets two workers save the same interval |
| TurnProtocol.CoverageKeptExactly | src/server/modules/agent/api/webhook_router.py:65-72 | From a safe state where every conversation whose newest message is above its mark has a job or a worker on its way, the next state has it too if and only if the step is none of the six that strand one |
| TurnProtocol.QuietMeansAnswered | src/server/worker.py:107-123 | After a run with no stranding step, once the list is empty and the workers idle, the newest message of every active conversation is at or below its mark |
| TurnProtocol.LateCommitIsForgotten | src/server/modules/agent/api/webhook_router.py:65-68 | A run in which the job is consumed before its row commits and the message stays pending with nobody on its way |
| TurnEffects.ReceivedCommitsInTime | src/server/shared/dispatcher.py:52-60 | The commit of a message that pushed its job strands nobody, over any run in which no more jobs were taken than the list held before it |
| TurnEffects.FirstReceivedIsFirstTaken | src/server/shared/dispatcher.py:52-96 | The jobs of two messages received one after the other into an empty list are taken in the order of the messages |
| TurnEffects.SavedTurnIsStored | src/server/modules/agent/services/conversation_store.py:130-186 | A saved turn leaves its replies, in order and last in its thread, the mark at its target and the switch as it answered |
| TurnEffects.SavedTurnEndsFree | src/server/worker.py:52-77 | From the save on, send, finish and leave: the worker is idle, the lock of its conversation free and the send recorded under its own save |
| TurnEffects.StaffStepsShow | src/server/modules/agent/services/conversation_store.py:93-128 | A reply of an operator is at once the last of its thread; closing and switching change only what they name |
| TurnProtocol.ReleaseUnguardsExactly | src/server/shared/dispatcher.py:104-105 | A worker that leaves takes the key from under another's turn of the same conversation exactly when there is one, and never from a safe state |
| TurnSight.SkipsExactly | src/server/modules/agent/services/catch_up_service.py:39-44 | From a safe state where every visible message the mark has passed, or a turn in flight is about to pass, was in that turn's window, the next state has the same property if and only if the step neither commits a message at or below the mark or the target of a turn in flight, nor starts a turn on a thread with an unanswered message under ten newer rows |
| TurnSight.RunsSkipExactly | src/server/modules/agent/services/agent_service.py:136-138 | Over any run whose locks outlive their turns, no message is ever passed over if and only if no step of those two kinds occurs |
| TurnSight.MissedToTheEnd | src/server/modules/agent/services/catch_up_service.py:39-44 | A message passed over stays so through the rest of any run: no turn and no sweep comes back to it |
| TurnSight.EveryMessageIsSeen | src/server/modules/agent/services/agent_service.py:124-138 | After a run with no stranding step and none of those two, once all is quiet, every visible message of every active conversation was in the window of a saved turn whose interval holds it |
| TurnSight.OvertakenIsForgotten | src/server/modules/agent/api/webhook_router.py:65-68 | A run with no stranding step that ends quiet with nothing pending and a visible message no turn was shown: it committed after a later one was answered |
| TurnSight.BurstIsCut | src/server/modules/agent/services/conversation_store.py:93-128 | For every burst of more than ten messages, a run with no stranding step after which the mark is at the last one and each message with ten or more after it was in no window |
| Worker.Dispatcher.Dequeue | src/server/shared/dispatcher.py:81-96 | The oldest job leaves the list, or none does when it is empty |
| Worker.JobsAreTakenInOrder | src/server/shared/dispatcher.py:52-96 | Jobs pushed one after the other are taken in that order, after all that was in the list before |
| Worker.MessagesAreTakenInOrder | src/server/shared/dispatcher.py:52-96 | The jobs of any messages received one after the other, none opting out, are taken in the order of the messages, after those there before |
| Worker.Backend.ProcessMessage | src/server/modules/agent/services/agent_service.py:124-229 | Guard on the mark, then save, then send, as the protocol's steps compose |
| Worker.Backend.ProcessOne | src/server/worker.py:52-77 | Lock, handle, release, or put the job back, equal to serving the job in the protocol |
| Worker.Backend.Consume | src/server/worker.py:107-123 | The loop drains the list |
| Worker.Backend.RunCatchUp | src/server/modules/agent/services/catch_up_service.py:27-53 | Enqueues exactly the eligible conversations whose newest lead order is above the mark |
| Worker.SweepCoversExactly | src/server/modules/agent/services/catch_up_service.py:27-53 | After a sweep below its limit, from any state, a pending conversation has a job or a worker on its way exactly when it is open or already had one |
| Worker.SweepRecoversExactly | src/server/modules/agent/services/catch_up_service.py:27-53 | After a sweep below its limit, from any state, every pending conversation has somebody on its way if and only if every closed one already had |
| Worker.SweptIsARun | src/server/modules/agent/services/catch_up_service.py:27-53 | The sweep equals a run of the protocol, one step for each unanswered eligible conversation in their order |
| Worker.ServedIsARun | src/server/worker.py:52-77 | Serving one job start to finish is a run of the protocol |
| Worker.DrainSavesOnce | src/server/worker.py:107-123 | Draining saves each listed conversation with something in sight exactly once whatever duplicates are queued, and no other |
| Worker.DrainMovesMarks | src/server/modules/agent/services/conversation_store.py:130-186 | Each listed conversation's mark moves to its target and no other mark moves |
| Worker.EligibleHoldsAll | src/server/modules/agent/services/catch_up_service.py:38-46 | Below its limit the sweep looks at every open conversation with the agent active |
| Worker.SweepGoesByAge | src/server/modules/agent/repositories/conversation_repository.py:43-57 | The sweep pushes the jobs of the unanswered conversations by age, and its limit keeps the oldest ones |
| Worker.SweepThenDrain | src/server/modules/agent/services/catch_up_service.py:27-53 | After a sweep below its limit and the loop, every eligible unanswered conversation got exactly one turn; those still unanswered are exactly the ones hidden by ten later rows |
| Webhook.Service.Receive | src/server/modules/agent/services/webhook_service.py:67-101 | A batch is handled message by message; where it raises the session is rolled back to its last commit and the jobs stay; what the database holds afterwards is what the session sees |
| Webhook.Service.HandleText | src/server/modules/agent/services/webhook_service.py:154-182 | Stores the text, in its words and under a conversation of its phone, and pushes one job for that conversation; an opt-out pushes none and registers the phone |
| Webhook.Service.HandleMedia | src/server/modules/agent/services/webhook_service.py:184-240 | Stores the media and pushes its jobs, raises when it cannot be downloaded, stores nothing without payload; the database holds what was handled so far exactly when the media is the first extra receipt of its card |
| WebhookEffects.OpensOnlyWhenNeeded | src/server/modules/agent/services/webhook_service.py:126-152 | A message goes to the newest conversation of its phone when that one is open, and opens a new one exactly otherwise |
| WebhookEffects.NewsDoesItsWork | src/server/modules/agent/services/webhook_service.py:154-240 | A new message leaves one row of its own words there, sends vision exactly on media that may be the awaited receipt, and the agent exactly once unless the lead opted out; then the phone is registered |
| WebhookEffects.TheRestDoesNothing | src/server/modules/agent/services/webhook_service.py:90-101 | A repetition, an unsupported kind or a message without body or payload leaves no row, no job and no opt-out |
| WebhookEffects.OptOutIsHeard | src/server/modules/agent/services/webhook_service.py:173-182 | A new opt-out registers its phone and sends nobody |
| WebhookEffects.OptOutsExactly | src/server/modules/agent/services/webhook_service.py:173-182 | Under any failures and retries a phone is opted out exactly when an opt-out of it, not a repetition, was committed |
| WebhookEffects.EveryMessageSendsTheAgent | src/server/modules/agent/services/webhook_service.py:154-240 | Under any failures and retries every committed message that is new and no opt-out is stored and has a job of its conversation |
| Webhook.StoredAreFirstOccurrences | src/server/modules/agent/services/webhook_service.py:90-101 | Under any failures and retries the stored ids are the first occurrences of the storable messages among those committed, whole batches or what a failure left of them, each once and in order of arrival |
| Webhook.StoredWordsAreFirst | src/server/modules/agent/services/webhook_service.py:90-101 | Under any failures and retries the stored rows are, in order, the first committed message of each id, each with its own text and under a conversation of its own phone |
| Webhook.RetryDoesNothing | src/server/modules/agent/repositories/ai_chat_history_repository.py:23-36 | A retry of a committed batch, after anything else and however conversations were closed, creates no conversation, row or job, as long as its media came with a payload |
| Webhook.RetryIsSilentExactly | src/server/modules/agent/services/webhook_service.py:126-200 | One more delivery changes nothing exactly when the id is stored, the kind is unsupported, or the payload is missing and the conversation is open |
| Webhook.PayloadlessRetryCreates | src/server/modules/agent/services/webhook_service.py:184-200 | A photo without payload, delivered again after its lead was closed, leaves two conversations for one message |
| Webhook.BatchSucceedsExactly | src/server/modules/agent/services/webhook_service.py:90-101 | A batch goes through if and only if none of its messages is a media with payload that was not ingested before it and cannot be downloaded |
| Webhook.BatchIsStoredExactly | src/server/modules/agent/api/webhook_router.py:65-72 | The storable messages of a batch are all stored if and only if none of its messages is such a media |
| Webhook.FailedBatchKeepsPrefix | src/server/modules/crm/services/extra_receipt_service.py:32-57 | A batch that breaks at a message leaves exactly its messages up to the last one before it that was the first extra receipt of its card, and the jobs pushed by all of them |
| Webhook.FailedBatchIsLostExactly | src/server/modules/agent/api/webhook_router.py:65-72 | Rows, conversations and opt-outs are as before the failed batch if and only if nothing before its failure commits |
| Webhook.ExtraReceiptKeepsWhatCameBefore | src/server/modules/crm/services/extra_receipt_service.py:32-57 | A text, the first extra receipt and a photo that cannot be downloaded, in one batch: the first two stay |
| Webhook.TextLostWithPhoto | src/server/modules/agent/api/webhook_router.py:65-72 | A text alone is stored; the same text delivered with a photo that cannot be downloaded is lost while its job stays in the list |
| Funnel.AdvanceTowardQualified | src/server/modules/agent/domain/agent_tools.py:132-142 | The hop-by-hop walk ends at qualified from any stage in conversation and stays put otherwise |
| Funnel.ReachesClimbs | src/server/modules/agent/domain/funnel_fsm.py:29-48 | Along allowed transitions the rank never falls, a change climbs and a terminal stage absorbs |
| Funnel.BuyingSignalReaches | src/server/modules/agent/domain/agent_tools.py:93-142 | The multi-hop advance of the QR and service tools is a path of allowed transitions |
| Funnel.AcceptedReaches | src/server/modules/agent/domain/funnel_fsm.py:71-81 | A validated target is reached by allowed transitions |
| Funnel.ChangesAreBounded | src/server/modules/agent/domain/funnel_fsm.py:29-97 | Over any sequence of allowed transitions and reopenings the stage changes at most four times plus four per reopening |
| AgentLoop.RunTools | src/server/modules/agent/services/agent_service.py:392-449 | The loop over the calls equals the fold, errors included |
| AgentLoop.Generate | src/server/modules/agent/services/agent_service.py:280-390 | The bounded loop equals its specification for every oracle |
| AgentLoop.FoldAnswersInOrder | src/server/modules/agent/services/agent_service.py:392-449 | Every call gets one result with its id, in order, even when its handler raises |
| AgentLoop.GeneratedTranscripts | src/server/modules/agent/services/agent_service.py:303-351 | Every transcript handed to a completion extends the window lawfully and ends with a user message; at most max_iterations + 2 completions |
| AgentLoop.TurnTranscripts | src/server/modules/agent/services/agent_service.py:263-278 | A whole turn makes at most max_iterations + 3 completions, each on a transcript ending with a user message |
| AgentLoop.TurnIsSound | src/server/modules/agent/services/agent_service.py:258-278 | On every path the outcome silences the agent if and only if it carries a reason; a reason implies a terminal stage and no images; the stage moved along allowed transitions |
| AgentLoop.TurnsOnlyAdvance | src/server/modules/agent/domain/funnel_fsm.py:29-97 | Over any number of turns without a reactivation, whatever the model answers, the stage moves along allowed transitions, never falls in rank, stays once terminal, and changes at most four times |
| AgentLoop.LifeChangesAreBounded | src/server/modules/agent/domain/funnel_fsm.py:50-97 | Over any turns and reactivations the stage changes at most four times, plus four per reopening |
| AgentLoop.LoopReasons | src/server/modules/agent/services/agent_service.py:409-449 | Inside the loop a reason implies exactly handed_off and a silenced agent |
| AgentLoop.NarrationStaysInternal | src/server/modules/agent/services/agent_service.py:451-512 | The reply is empty, fixed, or the text of a completion that called no tool |
| AgentTools.FoldIsAsAsked | src/server/modules/agent/domain/agent_tools.py:60-201 | Running any calls through the handlers leaves exactly what five separate readings of the calls say: the first closing call decides the terminal stage, buying signals and proposals climb, the last handoff gives the reason, and each accepted slug, asked material, asked code and given name is kept |
| AgentTools.LoopIsOneFold | src/server/modules/agent/services/agent_service.py:309-344 | The loop is one fold over the calls of all its completions up to the first that fails, calls nothing or hands off |
| AgentTools.GeneratedExactly | src/server/modules/agent/services/agent_service.py:280-390 | Whatever the model does, the generative flow goes on exactly while completions call tools and no handoff is heard, gives the lead up when one fails or the iterations run out, and otherwise stage, reason, switch, documents, slugs, images, name and farewell are those its calls ask for |
| AgentTools.HandoffEndsTheTurn | src/server/modules/agent/domain/agent_tools.py:176-184 | A handoff call of a known reason, not preceded by a disqualification, ends the turn at its completion with that reason, the agent silenced, the lead handed off and no payment code |
| AgentTools.ClosedExactly | src/server/modules/agent/domain/agent_tools.py:93-201 | Of the calls that close a lead the first decides for good; with none, an accepted service or an asked code leaves any lead in conversation qualified |
| AgentTools.TurnRoutes | src/server/modules/agent/services/router.py:114-160 | A lead who asks for a person is handed over at once, a bare first contact is greeted, a failing classifier gives the lead up, and everything else is generated |
| AgentTools.SaysWhatWasSaid | src/server/modules/agent/services/agent_service.py:381-512 | Without a handoff the reply is the model's last text, or the one asked for when it was silent, reworded once exactly when it repeats the agent's previous message |
| AgentService.AssembleMessages | src/server/modules/agent/services/agent_service.py:140-189 | The messages of an outcome in order: text, documents, each image once with the caption on the first |
| AgentService.ImagesAreSentOnce | src/server/modules/agent/services/agent_service.py:140-189 | Every image of the outcome is sent and none twice |
| AgentService.TurnIsSentInOrder | src/server/modules/agent/services/agent_service.py:140-229 | Text first and only without images, then the documents in order, then each image once, the reply as the caption of the first |
| AgentService.AskedIsSent | src/server/modules/agent/services/agent_service.py:140-229 | A file goes out if and only if a call of the turn asked for its material, the payment code if and only if a call asked for it, one is configured and nothing is handed off |
| AgentService.SavedAsSent | src/server/modules/agent/services/conversation_store.py:130-186 | The thread after the save ends with one agent row for each message sent, in their order and with their words |
| AgentService.HandoffSendsNoImage | src/server/modules/agent/services/agent_service.py:346-359 | A turn that hands off silences the agent and sends no image |
| AgentService.GuardedTurnTranscripts | src/server/modules/agent/services/agent_service.py:124-138 | From the stored thread to the model: a turn let through starts and ends with the lead and stays within its completions |
| Board.SeededIsInOrder | src/server/modules/crm/seed.py:25-51 | The seeded board has its delivery stages in order and starts the sale open |
| Board.Least | src/server/modules/crm/repositories/board_repository.py:61-81 | The stage found by status or as the first is one of least position, or there is none |
| CrmService.Store.Sync | src/server/modules/crm/services/card_service.py:122-191 | Creates, moves or leaves the card as specified, so that it stands for its conversation or further on in the postsale pipeline; a handoff with the card in the sale awaits its payment exactly when that is its reason |
| CrmService.Store.MoveCard | src/server/modules/crm/services/board_service.py:313-370 | Records the move and closes or opens, or refuses a win without a name; the invariants hold after any move of a person |
| CrmService.Store.CreateOpportunity | src/server/modules/crm/services/opportunity_service.py:44-107 | Succeeds exactly when the sale has a stage; the latest conversation of the phone is then open with its card, reused or new, and the invariants are kept when the sale starts open |
| CrmService.Store.Deliver | src/server/modules/crm/services/fulfillment_service.py:87-137 | The delivery with failing sends equals its specification; nothing moves or the lead was served; a delivery that is done wins exactly when the lead is named, and then writes the contact |
| CrmService.Store.Ship | src/server/modules/crm/services/fulfillment_service.py:115-174 | Send, fall back to the template outside the window, hold or advance |
| CrmService.Store.Close | src/server/modules/crm/services/fulfillment_service.py:176-189 | Wins the card, or leaves the notice when the lead has no name |
| CrmService.Store.Block | src/server/modules/crm/services/fulfillment_service.py:191-197 | Leaves the notice and moves nothing |
| CrmService.Store.Plan | src/server/modules/crm/services/delivery_planner.py:54-90 | Services, existing entry, gate and venue resolve to the specified plan; a blocked one names a delivery notice, and one that issues an entry found room for it |
| CrmService.Store.IssueEntry | src/server/modules/crm/services/entry_service.py:135-168 | The card has an entry afterwards, the one it had if it had one; behind the gate the entries stay within capacity with tokens of their own |
| CrmService.Store.GenerateEntry | src/server/modules/crm/services/entry_service.py:63-111 | The button with its refusals equals its specification, entries stay, and all the invariants are kept |
| CrmService.Store.ConfirmPaymentPending | src/server/modules/crm/services/delivery_notice.py:46-71 | Sends only when the lead was not told, records only a message that was accepted, and nobody is told twice |
| CrmService.Store.MoveAndDeliver | src/server/modules/crm/services/delivery_trigger.py:39-60 | A drag into the validated stage delivers in the same request and keeps all the invariants |
| CrmService.Store.Approve | src/server/modules/crm/services/receipt_validation_service.py:209-268 | An approved receipt changes the notices of a card that waits for its payment, moves it by the system and delivers it; approved exactly when it waited and the stage may be entered |
| CrmService.Store.RetryPending | src/server/modules/crm/services/delivery_trigger.py:87-100 | Retries only a delivery that waited for the window, keeps all the invariants, and takes no postsale card back |
| CrmService.Store.RetryForEvent | src/server/modules/crm/services/delivery_trigger.py:103-130 | Retries the waiting cards in order, keeps all the invariants and every entry, and takes no postsale card back |
| CrmLaws.WinningNeedsAName | src/server/modules/crm/services/board_service.py:300-370 | A move is refused exactly when it wins and neither the conversation nor the contact of its phone has a name with something to read; otherwise it is recorded, closes exactly in a won or lost stage, and a win writes the contact |
| CrmOutcomes.DeliveryEndsExactly | src/server/modules/crm/services/fulfillment_service.py:87-189 | How a delivery ends, by board, plan, answers of the sends and name: refused, told and held, raised, held for the window, or done; a done one is won exactly when the board can win and the lead is named, and the card keeps its other notices and its warnings, with the name notice exactly when it stays open |
| CrmOutcomes.DeliverySendsExactly | src/server/modules/crm/services/fulfillment_service.py:115-174 | A done delivery sent the entry the card now holds, free or by template, or the links, before its moves; a new entry is bound to the planned date |
| CrmOutcomes.PlanExactly | src/server/modules/crm/services/delivery_planner.py:54-90 | None or several accepted services block the plan; a course with an in-person part and no entry needs the next date ahead with a seat free of live entries; an issued entry needs neither and keeps its date |
| CrmOutcomes.PaymentHandoffsAwait | src/server/modules/crm/services/card_service.py:50-75 | After a reconciliation a conversation left to the team, with its card off the board or in the sale, awaits its payment exactly when that is its reason, and stands in the intake stage with any other |
| CrmOutcomes.SeededSyncExactly | src/server/modules/crm/services/card_service.py:50-178 | On the seeded board, row by row: where each conversation's card goes, when it stays, who signs the move and when the conversation closes |
| CrmOutcomes.ApprovalValidatesAndDelivers | src/server/modules/crm/services/receipt_validation_service.py:209-268 | A receipt in order moves a card that awaits its payment, and no other, by the system into the validated stage, swaps the review notice for the pending reconciliation, and the delivery planned for it follows |
| CrmOutcomes.ButtonGeneratesExactly | src/server/modules/crm/services/entry_service.py:63-168 | The button gives an entry exactly when the card is validated, its one course is in person, the plan is free, the send is accepted and the move is allowed; then the lead has the image and the operator's move follows |
| CrmOutcomes.RetryExactly | src/server/modules/crm/services/delivery_trigger.py:87-100 | The lead's next message retries exactly the card that carries the pending notice |
| CrmOutcomes.EachWaitingCardHasItsTurn | src/server/modules/crm/services/delivery_trigger.py:103-130 | Over the list of a new date each card comes to its turn untouched, is delivered exactly when it waited for a date or a seat from the start, and cards outside the list stay as they were |
| CrmOutcomes.DragDeliversExactly | src/server/modules/crm/services/delivery_trigger.py:39-60 | A drag that is not refused records the operator's move and delivers exactly when it ends in the validated stage |
| CrmOutcomes.AgendaExactly | src/server/modules/crm/services/event_service.py:61-89 | A date is added under a new number, an edit replaces its own number only, a refused request changes nothing, and a deleted date leaves its entries without one |
| Crm.CurrentFor | src/server/modules/crm/repositories/event_repository.py:35-57 | An upcoming event of the service, active before scheduled and then nearest, or none exists |
| CrmRuns.RunsKeepCardsOk | src/server/modules/crm/services/card_service.py:140-178 | Over every run each card's history is a connected path without self-loops ending at its stage, and its conversation is closed iff the stage is won or lost |
| CrmRuns.CreationClosesExactly | src/server/modules/crm/services/opportunity_service.py:56-72 | Creating a card keeps "closed iff won or lost" if and only if the sale starts in an open stage |
| CrmInvariant.RunsKeep | src/server/modules/crm/services/fulfillment_service.py:87-189 | Over every run that keeps room for the entries issued: connected histories and closing, capacity and tokens, no handover without service, and the lead told once, all together, which is what the methods of the store rely on |
| CrmDelivery.DeliveryServesOrStays | src/server/modules/crm/services/fulfillment_service.py:87-137 | A delivery either moves nothing, or the lead received a message and then exactly this card moved |
| CrmDelivery.HeldKeepsTheCard | src/server/modules/crm/services/fulfillment_service.py:191-197 | A held delivery keeps stage and history, leaves exactly one delivery notice and all other known notices in order |
| CrmDelivery.RunsServeFirst | src/server/modules/crm/services/fulfillment_service.py:126-137 | Over every run the system moves a card into the handed stage only from the validated one and right after its lead was served |
| CrmDelivery.OncePerStay | src/server/modules/crm/services/fulfillment_service.py:97-106 | Between two handovers by the system the card was put in the validated stage again |
| CrmDelivery.StepKeepsRatchet | src/server/modules/crm/services/card_service.py:89-120 | No step but an operator's drag takes a postsale card back in position |
| CrmDelivery.PostsaleOnlyAdvances | src/server/modules/crm/services/card_service.py:89-120 | Over any run without drags a card that stays in the postsale pipeline never loses position |
| CrmEntries.RunsRespectCapacity | src/server/modules/crm/repositories/event_repository.py:59-75 | Over every sequential run the live entries of an event never exceed its capacity and no two cards share a token |
| CrmEntries.StepKeepsEntry | src/server/modules/crm/services/entry_service.py:135-168 | The entry of a card keeps its token and its copy of the event through every step |
| CrmEntries.RunsKeepEntry | src/server/modules/crm/services/entry_service.py:135-168 | The same over every run during which the card stays on the board |
| CrmEntries.RevokedEntryIsResent | src/server/modules/crm/services/delivery_planner.py:67-75 | A delivery of a card with a revoked entry sends that entry and hands the card over |
| CrmBuyers.ARevokedEntryGoesOut | src/server/modules/crm/services/delivery_planner.py:67-75 | From an empty board: a lead is served, its entry is revoked, its card is dragged back into the validated stage, and the same revoked entry goes out again and the card is handed over |
| CrmEntries.HandedEntryIsLiveExactly | src/server/modules/crm/services/delivery_planner.py:67-83 | After a delivery the card's entry is live exactly when it was not revoked before |
| CrmNotices.RunsTellOnce | src/server/modules/crm/services/delivery_notice.py:46-71 | Over every run a lead is told again that the payment is confirmed only after a notice whose row was lost; with no such loss each lead is told at most once |
| CrmBuyers.LostNoticeIsToldAgain | src/server/modules/crm/services/delivery_notice.py:46-71 | From an empty board, a notice accepted by WhatsApp whose session fails to commit is sent a second time by the next delivery |
| CrmLaws.SyncIsIdempotent | src/server/modules/crm/services/card_service.py:122-178 | Reconciling twice is reconciling once |
| CrmLaws.SyncMirrors | src/server/modules/crm/services/card_service.py:68-178 | After reconciling the card exists and stands in the stage its conversation calls for, or at or beyond it in the postsale pipeline |
| CrmLaws.ReactivationReturnsToSale | src/server/modules/crm/services/board_service.py:419-433 | Turning the agent on always returns the lead to the sale pipeline, turning it off to the postsale one |
| CrmLaws.CreationIsIdempotent | src/server/modules/crm/services/opportunity_service.py:44-98 | Adding an opportunity twice for a phone adds one card and one conversation |
| CrmLaws.GoneExactly | src/server/modules/agent/services/dispatch_handler.py:120-126 | A deleted opportunity stays closed and off the board through a step exactly when the step is not a reconciliation of it with a target stage, which brings back the card, and the conversation as open as its stage |
| CrmLaws.DeletionLastsExactly | src/server/modules/crm/services/opportunity_service.py:164-179 | The same over any run: gone at every point if and only if no such reconciliation comes in, and then the phone's next message or opportunity belongs to another conversation |
| CrmLaws.DeletedComesBack | src/server/modules/agent/services/dispatch_handler.py:120-126 | A run in which a job left in the list at the deletion reconciles afterwards: the card is back, the conversation is open and takes the next message |
| CrmLaws.DeliveredOnce | src/server/modules/crm/services/fulfillment_service.py:87-106 | A second delivery of a delivered card changes nothing and says it is not in the validated stage |
| CrmLaws.CheckedVenueIsOk | src/server/modules/crm/api/event_schemas.py:17-26 | A venue that passes the validator is trimmed and never blank; blanks become no venue |
| CrmLaws.EveryVenueReplaces | src/server/modules/crm/services/delivery_planner.py:85-88 | Over any run, every event with a venue puts its map in the message in place of the service's, and only one without a venue leaves the service's |
| Capacity.StepIsATick | src/server/modules/crm/services/fulfillment_service.py:87-137 | Every step of the board, deliveries split into check and insertion, but an edit of the event: what it can do to the live entries, the deliveries in flight and the capacity of any event |
| Capacity.OverlapBoundsExcess | src/server/modules/crm/repositories/event_repository.py:59-75 | Over every run from an empty board with at most K deliveries of an event in flight and edits that keep room for its entries and those in flight, entries and deliveries in flight never exceed capacity + K - 1 |
| Capacity.EditsBoundExcess | src/server/modules/crm/services/event_service.py:71-82 | When edits keep room only for the entries already issued, they never exceed capacity + K |
| CapacityReached.ExcessIsReached | src/server/modules/crm/services/event_service.py:101-117 | For every event with a capacity and every K, a run from an empty board, with buyers put in the validated stage and K overlapping deliveries, ends with capacity + K - 1 live entries |
| CapacityReached.EditExcessIsReached | src/server/modules/crm/services/event_service.py:71-82 | For every capacity and K, an edit that lowers the capacity to the entries issued while K deliveries are in flight ends with capacity + K live entries |
| CapacityReached.CapacityIsSafeExactly | src/server/modules/crm/repositories/event_repository.py:72-75 | No event ever exceeds its capacity, over every run, if and only if its deliveries do not overlap and no edit takes the room of those in flight |
| Admission.RunsAdmitOnce | src/server/modules/crm/services/entry_admission.py:89-109 | For any interleaving of admissions, revocations and deletions the row matches one use at most, and none after its end |
| Admission.OneWinner | src/server/modules/crm/services/entry_admission.py:89-109 | Two successful admissions are the same one, and the row keeps its hour |
| Admission.UseIsWrittenOnce | src/server/modules/crm/services/entry_admission.py:95-103 | The fields of a use never change while the row exists |
| Admission.Registry.Use | src/server/modules/crm/services/entry_admission.py:89-109 | The conditional update wins exactly on an unused, unrevoked row, and then writes hour, user and manner |
| Admission.Registry.Admit | src/server/modules/crm/services/redemption_service.py:77-140 | An undisturbed admission is the protocol's four steps |
| Admission.AloneIsToldExactly | src/server/modules/crm/services/redemption_service.py:77-140 | Undisturbed, an entry neither withdrawn nor used nor bound to another event comes in and the row says who, when and how; every other is told why and changes nothing |
| Admission.LoserIsToldUsed | src/server/modules/crm/services/redemption_service.py:93-104 | A loser is always told "already used", falsely exactly when the row was gone or revoked without a use |
| Admission.RevokedButToldUsed | src/server/modules/crm/services/redemption_service.py:93-104 | A run where a revocation between read and update is reported as a use |
| Delivery.OrderedIsComplete | src/server/modules/crm/domain/delivery.py:186-203 | Every deliverable link is listed as often as it was loaded and nothing else is |
| Delivery.OrderedIsStable | src/server/modules/crm/domain/delivery.py:186-203 | Links are grouped by kind in delivery order and keep the catalogue order within a kind |
| Delivery.OnlyStableGrouping | src/server/modules/crm/domain/delivery.py:186-203 | No other arrangement has both properties |
| Delivery.DecidesExactly | src/server/modules/crm/domain/delivery.py:115-168 | Blocked iff the modality is unknown or a virtual course has no usable access link; an in-person part always ships; warnings say exactly what is missing |
| Delivery.EveryLinkIsSent | src/server/modules/crm/domain/delivery.py:139-168 | A course with a virtual part that is not blocked carries a line for every deliverable link |
| Delivery.DetailsTellApart | src/server/modules/crm/domain/delivery.py:171-183 | The message tells its facts apart: two that read the same carry the same date, hour, place and map |
| Delivery.BuildHybrid | src/server/modules/crm/domain/delivery.py:148-168 | The hybrid plan with its deduplicated warnings |
| CardFlags.Normalize | src/server/modules/crm/domain/card_flags.py:63-76 | Known codes of the column, in first-come order, each once; anything else is dropped |
| CardFlags.Add | src/server/modules/crm/domain/card_flags.py:79-85 | Appends the known codes that are missing |
| CardFlags.Merge | src/server/modules/crm/domain/card_flags.py:120-125 | The groups as one list |
| CardFlags.KnownIsStable | src/server/modules/crm/domain/card_flags.py:63-76 | Normalising is idempotent, repeats nothing and keeps exactly the known codes |
| CardFlags.AddedAbsorbs | src/server/modules/crm/domain/card_flags.py:79-85 | Adding to a list is normalising the concatenation |
| CardFlags.ReplaceKeepsTheRest | src/server/modules/crm/domain/card_flags.py:98-117 | A new attempt leaves the other known notices in order followed by exactly its own |
| CardServices.Table.SetAssigned | src/server/modules/crm/repositories/card_service_repository.py:118-151 | Adds the missing, removes the assigned in excess, leaves the captured |
| CardServices.Table.SetCardServices | src/server/modules/crm/services/board_service.py:269-298 | Repeated ids count once; an id outside the catalogue changes nothing |
| CardServices.Table.OnCaptured | src/server/modules/crm/services/service_capture_service.py:24-44 | Stamps each known service once, never over an existing row |
| CardServices.AssignmentReconciles | src/server/modules/crm/repositories/card_service_repository.py:118-151 | After an assignment the linked set is exactly the target and the captured ones, the captured rows are the same in order, and no service has two rows |
| CardServices.StampedAreLinked | src/server/modules/crm/services/service_capture_service.py:34-42 | Linked afterwards are exactly the services linked before and those sent and known |
| CardServices.RunsKeepCaptures | src/server/modules/crm/repositories/card_service_repository.py:103-151 | Over any run one row per service, and no captured row removed, moved or relabelled |
| CardServices.CaptureProtectsExactly | src/server/modules/crm/services/service_capture_service.py:38-39 | A captured service survives an assignment without it exactly when it was not assigned before |
| CardServices.CapturedButForgotten | src/server/modules/crm/services/service_capture_service.py:38-39 | Assigned, captured, unassigned: the card forgets the service |
| Money.ParsedIsWithinLimits | src/server/modules/crm/domain/money.py:51-53 | A successful parse never exceeds the maximum |
| Money.ZeroExactlyBelowHalfCent | src/server/modules/crm/domain/money.py:51-53 | The parse is zero exactly when the exact value is positive and at most half a cent |
| MoneyRefusals.SeveralNumbersAreRefused | src/server/modules/crm/domain/money.py:40-56 | Two digits with anything between them that is neither digit nor separator: nothing is read |
| MoneyRefusals.NoNumberIsRefused | src/server/modules/crm/domain/money.py:40-56 | A text without digits reads as nothing |
| MoneyRefusals.RangesAreRefused | src/server/modules/crm/domain/money.py:24 | A text with a range word or sign anywhere, in capitals or not, reads as nothing |
| MoneyRefusals.AcceptedIsNearest | src/server/modules/crm/domain/money.py:51-53 | What is read is positive, within the maximum and the nearest cents, the even ones on a tie |
| MoneyRoundTrip.PrintThenParse | src/server/modules/crm/domain/money.py:29-82 | Any amount up to the maximum printed in any convention, with any digit-free text around it, parses to itself, or to nothing when that text holds a range word |
| MoneyRoundTrip.PrintAloneThenParse | src/server/modules/crm/domain/money.py:29-82 | A number printed alone always parses to itself |
| MoneyRoundTrip.FindsTheNumber | src/server/modules/crm/domain/money.py:23 | The only number found in digit-free text around a number is that number |
| MoneyRoundTrip.ThousandthParsesToZero | src/server/modules/crm/domain/money.py:51-53 | The text "0,0.001" parses to zero |
| Beneficiary.TokenPresent | src/server/modules/crm/domain/beneficiary.py:84-93 | The search finds a word exactly when some candidate is it or a truncation of at least three letters either way |
| Beneficiary.MaskedMatchesExactly | src/server/modules/crm/domain/beneficiary.py:44-81 | A masked name matches exactly when there are identity words and their initials are the same multiset on both sides |
| Beneficiary.MatchesItself | src/server/modules/crm/domain/beneficiary.py:44-57 | A name matches itself exactly when it has a word that is not noise |
| Beneficiary.OrderIsIrrelevant | src/server/modules/crm/domain/beneficiary.py:44-81 | Reordering the words of either side never changes the answer, masked or not |
| Beneficiary.KeptWordsKeepTheMatch | src/server/modules/crm/domain/beneficiary.py:84-93 | Adding words, reordering them and cutting them to three letters or more keeps a match while each word stays an identity word |
| Beneficiary.CuttingKeepsExactly | src/server/modules/crm/domain/beneficiary.py:34-57 | Cutting one word keeps the match unless the cut spells a noise word, which acts as if the word were missing |
| Beneficiary.DelgadoIsLost | src/server/modules/crm/domain/beneficiary.py:26-29 | The cut "del" of "delgado" loses the match |
| Beneficiary.MatchIsEvidence | src/server/modules/crm/domain/beneficiary.py:84-93 | An unmasked match shows each expected word on the receipt, or a word with its first three letters |
| Slugs.UniqueSlug | src/server/modules/agent/services/category_service.py:111-118 | The smallest free candidate, after at most as many retries as there are taken slugs |
| Slugs.Backfill | migrations/versions/20260722_0022_category_materials.py:37-64 | Each row gets the smallest suffix free in its organisation, and slugs of an organisation are pairwise distinct |
| Slugs.BackfillIsDetermined | migrations/versions/20260722_0022_category_materials.py:37-64 | Any two assignments in which each slug is the smallest free one are equal: the migration is determined by the table |
| Slugs.CandidatesDiffer | migrations/versions/20260722_0022_category_materials.py:54-58 | No two suffixes give the same slug |
| Slugs.Catalogue.Create | src/server/modules/agent/services/category_service.py:49-66 | Refuses a repeated name and changes nothing; otherwise the new category gets the smallest free slug and the others keep theirs |
| Slugs.Catalogue.Rename | src/server/modules/agent/services/category_service.py:68-84 | Refuses a name another category has; slugs never change and names stay distinct |

## Left out

- A delivered batch as a run of the protocol's `Receive` and `Commit`: `Webhook` keeps its own rows and conversations, since it also follows ids, closed conversations and rollbacks, which the protocol does not tell apart.
- Field lengths and partial updates of events: an edit of `Crm` replaces the whole event, its venue validated.
- HTTP routes, schemas, authentication, tenants, health, event streaming: plumbing around the services modelled here.
- The language model, the keyword router's rules, the vision checks, the WhatsApp client and files: oracles or parameters.
- Message copy: texts are shortened and written without accents; only their role in a branch matters.
- Unicode folding and punctuation of names: `Beneficiary` starts from the folded words of a name.
- Unicode digits and white space: `Money` and `Text` know the ASCII ones.
- `_slugify`: `Slugs` starts from the base made of a name.
- Contact and card titles, notes, ratings, attention signals, CSV export: one-branch facts.
- The checks of a payment receipt: that one passed them is the free step `Approve`, and the other notices of receipts the free step `Annotate`; an approval recorded by a drag is not kept.
- Outbound campaigns and reminders: the template of an entry is an oracle.
- Redis time to live as a clock: expiry is a step that may happen at any point.
- A list of jobs or a disk that fails while a batch is handled: only the download of media raises in `Webhook`.
- Concurrent webhook transactions on the same message: the unique index of the table decides; `Webhook` runs batches one after the other.
- Concurrent requests on the same card: `Crm` runs are sequential; only the seats of an event and the door are also studied under overlap.
- A write that a failed request leaves uncommitted: whether it survives is the world's choice (`kept`).
- Ties between events with the same start: the database chooses, the model takes the first row.
- `consultar_faq` and `get_service` results: they change nothing a turn decides.
