# WebNest backend: a verified model

This project models the parts of the WebNest backend whose correctness cannot be seen from any one
function, and proves what they keep over every input, every run or every interleaving.

* **The coding assistant's conversation optimizer and its Claude translation** (`Conversation`,
  `HistoryRepair`, `Turns`, `Render`, `RenderFacts`, `SentFacts`, `ContextFacts`, `PartFacts`,
  `TokenFacts`, `ReadFacts`, `Optimizer`, `LadderFacts`, `Claude`, `ClaudeFacts`, `BlockFacts`,
  `Pipeline`). Any list of browser messages is repaired so that tool calls and results pair up, cut into turns, and rendered
  through a ladder of smaller and smaller attempts until one fits a token budget; the result is then
  turned into Claude's alternating blocks. The grammar of paired lists (`Conversation.Paired`) is
  defined once and shared by browser messages, rendered messages and blocks.
* **Metering and payments** (`Payments`, `PaymentFacts`, `OrderFacts`, `BookFacts`, `PassFacts`,
  `Usage`, `UsageFacts`, `WeekFacts`, `Streams`, `StreamFacts`, `ReplyFacts`, `Requests`,
  `RequestFacts`, `AdmissionFacts`, `EndFacts`, `PassCallFacts`, `SettleFacts`, `PassUse`,
  `PassUseFacts`). Each store method is one transaction on a state, and each chat request is a
  state machine that moves from one wait of the event loop to the next, so the lemmas hold for
  every interleaving.
* **Small algorithms with a law of their own**: message pages (`Messages`), one-time codes (`Otp`,
  `OtpFacts`, `CodeFacts`, `GuessFacts`), hourly limits (`RateLimit`), file trees (`FileTree`), and
  CodeLab progress and streaks (`Codelab`, `CodelabFacts`).

Objects that the source updates in place are classes here (`Optimizer.SentParts`,
`Payments.PaymentStore`, `Usage.UsageStore`, `Streams.AssistantChatStream`,
`Streams.ActiveStreamRegistry`, `Otp.AuthService`, `Codelab.CodelabStore`, `RateLimit.LimitStore`).
Each method's contract gives the whole new state as a function of the old one, and the `*Facts`
modules prove what those functions keep, and what they compute: from the places of a list, the
rows of a table or the items of a run, without a word of how. Functions that loop over lists are
methods with invariants, proved against a recursive definition whose meaning is then proved by
lemmas.

What the code does not do, although its comments or its design suggest it, is stated as it is:

* Repair never asks for the role of a message with tool calls, and neither does the request schema.
  A user message with calls keeps them through repair, but Agent mode drops them when it renders and
  leaves their results as orphans. `Pipeline.EveryAttemptIsAcceptedExactly` gives the exact
  condition; alternation and the token estimate do not depend on it.
* The check behind "content is in the read_file result below" looks a result up by its call id
  only, and a provider that sends no ids gets the same ones in every round.
  `ReadFacts.ReadCheckIsTrueExactly` says for which turns the check is true.
* Cutting a text to `limit` characters keeps all of it when the limit is 0;
  `Text.CutMiddleKeepsLimit` says so, and `RenderFacts.TierCutsResults` and
  `RenderFacts.OpenFileCutKeepsLimit` show that no caller asks for that.
* A pass "can only ever run over by its last call" if and only if no full refund of an order's
  payment comes and calls settle within what they reserved (`PassFacts.OneCallBoundsExactly`).
  `PassFacts.RunStaysWithin` gives the bound in every other case too, and
  `PassFacts.RefundReachesBound` and `PassFacts.OvershootReachesBound` reach it.
* A renewal starts a pass's count again while calls may be in flight, and those calls are still
  settled against the new count when they end. `PassUse.CountAddsUp` says what the count then is,
  `PassUse.CountIsConservedExactly` when it is what the calls since the renewal cost, and
  `PassUseFacts` that this is so under every interleaving of requests and payments.
* The weekly cap looks back from the day of each call, so a call that is committed after one of a
  later day of the same 7 days is not held to the week that ends on that later day.
  `WeekFacts.WeekCapHoldsExactly` says which orders of days keep the cap.
* The order in which an order's events arrive can decide whether its payment buys anything, when a
  payment that is not refunded meets the refund of another one. `OrderFacts.DeliveriesEndAlikeExactly`
  says exactly when.
* A list of saved file names may keep its clashes, but clashes of its folders are refused, and only
  the copies of a name's first spelling are held to the number saved (`FileTree.KeptAcceptedExactly`,
  `FileTree.SecondSpellingRepeats`).
* An hourly limit lets nearly two windows' worth of calls through in one hour
  (`RateLimit.HourIsBounded`, `RateLimit.HourIsReached`), and a first call even with a limit of 0
  (`RateLimit.FirstCallIsFree`), so only a limit of 1 is always kept
  (`RateLimit.HourKeepsLimitExactly`).
* Wrong guesses at codes are counted in rows that go with the account, so deleting it starts the
  count again. `GuessFacts.GuessBudgetHoldsExactly` says for which times of deletion an hour's
  budget of 29 holds.

## Model

| member | source | states |
|---|---|---|
| Text.CutMiddleKeepsLimit | services/assistant_prompt_optimizer.py:168-174 | a cut text keeps exactly `limit` characters, two thirds from its start and the rest from its end, if and only if the limit is at least 1; with 0 the whole text stays behind the marker |
| Text.DecimalReads | services/assistant_prompt_optimizer.py:174 | the number in a cut's marker is written in digits that read as it |
| Text.JoinPlaces | services/assistant_prompt_optimizer.py:295 | joined lines are each in their place, with just the separator between two |
| HistoryRepair.Repair | services/assistant_prompt_optimizer.py:189-212 | the loops over the raw list compute `Repaired`; `GivenResultsAreKept` and `RepairKeepsSpeech` say what that is |
| HistoryRepair.TakeResults | services/assistant_prompt_optimizer.py:203-206 | takes exactly the results that follow a message, the first result winning for an id given twice |
| HistoryRepair.AnswerCalls | services/assistant_prompt_optimizer.py:207-211 | one result for each call, in call order; `GivenResultsAreKept` says which |
| HistoryRepair.RepairedIsPaired | services/assistant_prompt_optimizer.py:189-212 | for every list, each call in the output is followed at once by exactly one result, none is an orphan, and there is a user message |
| HistoryRepair.RepairIsIdentityExactly | services/assistant_prompt_optimizer.py:189-212 | repair changes nothing if and only if the list is paired and holds a user message |
| HistoryRepair.RepairIsIdempotent | services/assistant_prompt_optimizer.py:189-212 | repairing twice is repairing once |
| HistoryRepair.PairUpKeepsSpeech | services/assistant_prompt_optimizer.py:193-212 | everything but tool results stays, in order |
| HistoryRepair.RepairKeepsSpeech | services/assistant_prompt_optimizer.py:193-212 | with a message "Continue." in front of it all if and only if no user speaks |
| HistoryRepair.GivenResultsAreKept | services/assistant_prompt_optimizer.py:200-209 | each message goes behind all that was said before it, and call by call is followed by the first of the results that came with the call's id, whole; "Not run." stands only where none came |
| HistoryRepair.PairUpInvents | services/assistant_prompt_optimizer.py:193-212 | nothing is in the output that was not given, but for "Not run." results |
| HistoryRepair.RepairKeepsUserCalls | services/assistant_prompt_optimizer.py:200-202 | the role of a calling message is not checked: user messages with calls stay if and only if there were any |
| HistoryRepair.RepairKeepsOnlyAssistantsCall | services/assistant_prompt_optimizer.py:189-212 | when only assistant messages have calls, that stays so |
| Turns.SplitTurns | services/assistant_prompt_optimizer.py:215-222 | the loop computes `Split` |
| Turns.SplitIsPartition | services/assistant_prompt_optimizer.py:215-222 | turns put together give the list back, and are cut exactly in front of the user messages |
| Turns.TurnsArePaired | services/assistant_prompt_optimizer.py:215-222 | no round is split across turns: each turn of a paired list is paired by itself |
| Turns.FirstKeptTurn | services/assistant_prompt_optimizer.py:465-472 | the longest suffix of whole turns within 10 messages, or the last turn alone |
| Turns.FirstKeptIsUnique | services/assistant_prompt_optimizer.py:465-472 | that description leaves one answer only |
| Turns.WithoutOldestRoundKeeps | services/assistant_prompt_optimizer.py:446-452 | giving up the oldest round takes just what is from the first assistant message up to the second, so it keeps the user's message, the pairing, and the newest assistant message with all after it; only a turn with one assistant message at most has none to give up |
| Turns.NewestRoundIs | services/assistant_prompt_optimizer.py:446-452 | what no attempt gives up is all from the last assistant message on |
| RenderFacts.PartsAddUp | services/assistant_prompt_optimizer.py:92-109 | the six counters are non-negative and sum exactly to the characters sent, in both modes, on every tier, "Continue." included |
| PartFacts.PartsAreCounted | services/assistant_prompt_optimizer.py:92-109 | each counter by itself: the user's own words, the file's, all results in either mode, all else of earlier turns, the assistant's words and arguments in this turn, and what was put around the user's words or behind the end |
| RenderFacts.TierCutsResults | services/assistant_prompt_optimizer.py:230-233 | every limit a tier gives to a tool result is at least 1, so a cut never sends the text twice |
| RenderFacts.OpenFileCutKeepsLimit | services/assistant_prompt_optimizer.py:255-286 | a cut open file is its own start and end, of exactly the limit together, around the marker of what was cut: the limit is never 0 there |
| RenderFacts.AgentModeIsPairedExactly | services/assistant_prompt_optimizer.py:315-396 | in Agent mode the rendered calls and results pair up if and only if no rendered turn is opened by a user message with calls |
| RenderFacts.CallingUserBreaksPairing | services/assistant_prompt_optimizer.py:375-391 | such a message always leaves orphan results |
| RenderFacts.AskModeUsesNoTools | services/assistant_prompt_optimizer.py:343-362 | Ask mode sends no tool message and no tool call |
| RenderFacts.PageEndsElsewhere | services/assistant_prompt_optimizer.py:392-396 | whatever the turns hold, a rendered conversation is not empty, does not end on the assistant, and only assistants call tools in it |
| RenderFacts.PageIsValidExactly | services/assistant_prompt_optimizer.py:365-396 | it is a valid conversation if and only if it is Ask mode's, or no rendered turn is opened by a user message with calls |
| RenderFacts.CurrentTextIsSent | services/assistant_prompt_optimizer.py:377-416 | the current user message starts with the context block and ends with the user's whole text, and all that follows it in the turn is sent after it |
| SentFacts.MessageIsSentInPlace | services/assistant_prompt_optimizer.py:298-391 | every message of every turn is sent one for one, in its place. In Agent mode: the assistant's own words and its calls with their ids and names, arguments whole in the newest round of the current turn and else only strings over 200 characters cut; results marked when they failed, whole within the limit of their age and else their two ends around the count of what was cut. In Ask mode: the same in words and as data |
| ContextFacts.CurrentTextTells | services/assistant_prompt_optimizer.py:264-295 | the current user message line by line: language, up to 40 files with the named and the open one first and how many more there are, the files named, the open file or where it is, the end of the last error; then the hint, the notice and the user's words |
| ContextFacts.AttemptTells | services/assistant_prompt_optimizer.py:255-286 | every attempt is rendered in its mode with its own turns and limits, with that message, and counts as the file's just the characters of it that are sent |
| ReadFacts.LimitsAgree | services/assistant_prompt_optimizer.py:225-252 | the check on the full turn and the renderer on the turn without its first message set a result the same limit, despite the shifted index |
| ReadFacts.WholeReadIsFoundExactly | services/assistant_prompt_optimizer.py:236-252 | the check finds a result if and only if it worked, is sent uncut, and has the id of a read_file call of the path |
| ReadFacts.PointedReadIsSent | services/assistant_prompt_optimizer.py:278-282 | when the context block points to a read below and ids tell reads from other calls, that successful result is in the sent conversation, uncut |
| ReadFacts.ReadCheckIsTrueExactly | services/assistant_prompt_optimizer.py:236-252 | the check tells the truth for a turn, whatever its results say, if and only if no answered call that is not a read of the file shares an id with one that is |
| TokenFacts.EstimateCoversChars | services/assistant_prompt_optimizer.py:419-432 | four characters for each estimated token cover all characters sent, the names of the tools called, and 10 more for each message; and no more than 16 for each |
| TokenFacts.PageCounts | services/assistant_prompt_optimizer.py:315-396 | a rendered conversation has as many results as calls, and more by just the calls of user messages, which rendering drops in Agent mode |
| Optimizer.SentParts.AddAssistant | services/assistant_prompt_optimizer.py:105-109 | assistant characters go to the current turn's counter or to history |
| Optimizer.RenderToolTurn | services/assistant_prompt_optimizer.py:315-340 | the loop computes the entries of tool format, which `SentFacts.MessageIsSentInPlace` tells one by one, and counts them |
| Optimizer.RenderFlatTurn | services/assistant_prompt_optimizer.py:343-362 | the loop computes the entries of flat format, which `SentFacts.MessageIsSentInPlace` tells one by one, and counts them |
| Optimizer.OpenTurn | services/assistant_prompt_optimizer.py:375-386 | opens a turn and charges what the current text has beyond the user's and the file's to the context |
| Optimizer.RenderTurn | services/assistant_prompt_optimizer.py:374-391 | one turn: its opening message and the rest in the mode's own format, with what each counter gains |
| Optimizer.RenderTurns | services/assistant_prompt_optimizer.py:370-391 | all turns in order, the last one as the current one |
| Optimizer.Close | services/assistant_prompt_optimizer.py:392-396 | an ending on the assistant's text gets "Continue.", counted as context |
| Optimizer.RenderAttempt | services/assistant_prompt_optimizer.py:365-396 | a whole rendering with its counters is `Rendering` |
| Optimizer.EstimateTokens | services/assistant_prompt_optimizer.py:426-432 | the loops compute the estimate that `EstimateCoversChars` is about |
| Optimizer.AttemptsLayout | services/assistant_prompt_optimizer.py:485-502 | the ladder: first kept turns fewer and fewer, then tighter tiers on the current turn, then fewer and fewer rounds |
| Optimizer.TryAttempt | services/assistant_prompt_optimizer.py:480-483 | renders an attempt and tells whether it fits the budget |
| Optimizer.FitToBudget | services/assistant_prompt_optimizer.py:475-502 | ends with the first attempt of the ladder that fits, so a result over budget means that every attempt was |
| LadderFacts.AttemptIs | services/assistant_prompt_optimizer.py:475-502 | every attempt by its place: its turns, its limits in numbers, and how many turns and rounds it says are left out |
| LadderFacts.RoundAttemptAt | services/assistant_prompt_optimizer.py:446-452 | the attempts that give up rounds: one assistant message less each time, from the oldest on, until one is left |
| Claude.AnthropicMessages | services/assistant_llm.py:402-417 | the merging loop computes `Converted`, which `BlockFacts` tells block by block |
| Claude.ConvertedIsAnswered | services/assistant_llm.py:388-417 | of paired messages: turns strictly alternate, start with the user, are never empty, and answer each assistant turn's tool uses in the very next turn, one result for each use, in order, ahead of any text |
| ClaudeFacts.ConvertedAlternates | services/assistant_llm.py:402-417 | any list at all becomes strictly alternating turns, none empty, the user first |
| ClaudeFacts.AcceptedBalances | services/assistant_llm.py:388-417 | a conversation that Claude accepts comes only from messages with as many results as calls |
| Claude.ConvertEndsWithLast | services/assistant_llm.py:402-417 | the last turn has the role of the last message |
| Claude.ConvertedKeepsBlocks | services/assistant_llm.py:388-417 | all blocks of all messages are there, in order, after at most the opening note |
| BlockFacts.MessageIsSaidInPlace | services/assistant_llm.py:388-417 | every message is said behind those before it in a turn of its role: a result with its own content or "(no output)" for an empty one, a text unless it is blank, and the calls with their names and parsed arguments, ids and names made safe character by character |
| BlockFacts.NoteIsSaidExactly | services/assistant_llm.py:402-417 | nothing else is said, but for the note that the start was left out, which is there if and only if nobody speaks or the assistant does first |
| Pipeline.PreparedIsHistory | services/assistant_prompt_optimizer.py:455-462 | repaired, tidied and split, any list is a history of paired turns whose last one is a user's |
| Pipeline.PreparedIsTidied | services/assistant_prompt_optimizer.py:455-462 | the turns are the repaired messages one for one, but for the spacing and courtesies of what the user wrote |
| Pipeline.PreparedKeepsUserCalls | services/assistant_prompt_optimizer.py:455-462 | its turns are opened by a user message with calls if and only if the given list holds one |
| Pipeline.EveryAttemptKeeps | services/assistant_prompt_optimizer.py:446-502 | whatever an attempt gives up, it keeps the current user message and the last assistant message with all that follows it, and stays paired |
| Pipeline.EveryAttemptCarries | services/assistant_prompt_optimizer.py:475-502 | on every attempt each message kept is sent in its place as `SentFacts` tells |
| Pipeline.LadderIsPairedExactly | services/assistant_prompt_optimizer.py:189-212 | in Agent mode all attempts have their calls paired if and only if no turn from the first kept one on is opened by a user message with calls |
| Pipeline.EveryAttemptIsValidExactly | services/assistant_prompt_optimizer.py:343-396 | every attempt is a valid conversation if and only if it is Ask mode's, which holds no tools, or none of its turns is opened by a user message with calls |
| Pipeline.EveryAttemptAlternates | services/assistant_llm.py:402-417 | every attempt, converted, alternates from user to user with no empty turn, whatever the messages |
| Pipeline.EveryAttemptIsAcceptedExactly | services/assistant_llm.py:388-417 | every attempt, converted, has all its uses answered and no other results if and only if it is Ask mode's, or none of its turns is opened by a user message with calls |
| Pipeline.EveryPointedReadIsSent | services/assistant_prompt_optimizer.py:278-282 | for every list whose ids tell the reads of the open file from other calls, and every attempt made of it: a read the context block points to is sent, successful and whole |
| Pipeline.SumSentChars | services/assistant_prompt_optimizer.py:419-423 | the sum of all sent characters, arguments included |
| Pipeline.OptimizeConversation | services/assistant_prompt_optimizer.py:505-522 | for every list, context, mode and budget: the first fitting attempt, counters that add up, an estimate that covers the characters, turns that alternate, and acceptance exactly in Ask mode or when no turn that is sent is opened by a user message with calls |
| Pipeline.FittingStaysWithinChars | services/assistant_prompt_optimizer.py:475-498 | what fits the budget holds at most four times the budget in characters |
| Payments.PaymentStore.SaveOrder | database/assistant_payment_persistence.py:167-179 | a new order is created unpaid; one with an id that is taken fails and changes nothing |
| Payments.PaymentStore.ExtendAccess | database/assistant_payment_persistence.py:328-350 | the one upsert: a running pass keeps its start and unused tokens, a lapsed one starts again |
| Payments.PaymentStore.GrantOrder | database/assistant_payment_persistence.py:308-326 | marks an order paid and extends access, unless it was paid or refunded already, its user is gone, or another order has the payment id |
| Payments.PaymentStore.Grant | database/assistant_payment_persistence.py:187-192 | true if and only if this call gave the access |
| Payments.PaymentStore.RefundOrder | database/assistant_payment_persistence.py:292-306 | takes days and tokens back from a pass that had begun when the order was paid, and marks the order |
| Payments.PaymentStore.ApplyEvent | database/assistant_payment_persistence.py:262-290 | every branch of an event and the outcome it reports |
| Payments.PaymentStore.ApplyWebhook | database/assistant_payment_persistence.py:227-241 | the dedupe row and the effect commit together or not at all |
| Payments.PaymentStore.ClaimPlayPurchase | database/assistant_payment_persistence.py:360-386 | a Google Play token is claimed once and extends access |
| Payments.PaymentStore.ReserveTokens | database/assistant_payment_persistence.py:194-211 | lets a call in if and only if the pass has not ended and has tokens left, and counts it |
| Payments.PaymentStore.AddTokens | database/assistant_payment_persistence.py:213-225 | adds or gives back, never below 0, and returns the pass |
| Payments.PaymentStore.DeleteUser | database/models.py:656-706 | deleting an account drops its pass and unlinks its orders and purchases |
| BookFacts.CallIsLetInExactly | database/assistant_payment_persistence.py:194-211 | over every run a call is let in if and only if at its own time its user has a pass that ends later with tokens left; then just that pass counts just what was reserved, else nothing changes |
| BookFacts.ChangeIsCounted | database/assistant_payment_persistence.py:213-225 | a change moves just the used tokens of a pass there is, stopping at 0 |
| BookFacts.OrderIsPaidExactly | database/assistant_payment_persistence.py:308-350 | an order is paid if and only if it was not paid or refunded, by a payment that is no other order's; its user's pass then goes on with what was left of it, or starts now, by just the days and tokens bought |
| BookFacts.OrderIsRefundedExactly | database/assistant_payment_persistence.py:285-306 | a full refund closes an order unless another payment paid it, and takes back its days and tokens if and only if the pass had begun when it was paid |
| BookFacts.OrderFailsExactly | database/assistant_payment_persistence.py:278-284 | a failed payment marks only an order that nothing has happened to yet |
| BookFacts.OtherNewsChangesNothing | database/assistant_payment_persistence.py:227-290 | whatever else an event says is only put on record, and an event told again not even that |
| BookFacts.OutcomesTellExactly | database/assistant_payment_persistence.py:227-290 | each answer to an event is given if and only if the event is of that kind |
| BookFacts.OrderOutcomesTellExactly | database/assistant_payment_persistence.py:262-290 | the answer to an order's payment or refund, by its amount, its status, its account and whose the payment is |
| BookFacts.VerifyTellsExactly | database/assistant_payment_persistence.py:187-192 | the caller is told that its call granted if and only if the order was unpaid, has its account, and the payment is its own |
| BookFacts.PurchaseIsClaimedExactly | database/assistant_payment_persistence.py:360-386 | a purchase counts if and only if its token was never claimed, and then extends just its buyer's pass |
| BookFacts.AccountIsDeletedExactly | database/models.py:656-706 | a deleted account loses its pass and its name on what it bought, and nobody else anything |
| BookFacts.OrderIsSavedExactly | database/assistant_payment_persistence.py:167-179 | a new order starts unpaid; an id that is taken starts none |
| PaymentFacts.RunIsSound | database/assistant_payment_persistence.py:292-350 | over every run of grants, claims, webhooks, refunds, deletions and calls, each pass ends as many days after its start as the unrefunded purchases made since then bought |
| PaymentFacts.StepIsSound | database/assistant_payment_persistence.py:187-386 | every transaction keeps that, and orders paid and purchases made at some time up to now |
| PaymentFacts.RefundingIsSound | database/assistant_payment_persistence.py:292-306 | a refund takes exactly its own order's days, and leaves a pass that began later alone |
| OrderFacts.RunMovesOn | database/assistant_payment_persistence.py:262-326 | an order's status only moves forward through created, failed, paid, refunded; what was bought never changes; a handled event stays handled |
| OrderFacts.OrderCountsOnce | services/assistant_payment_service.py:244-270 | however verify, webhooks and reconciliation interleave, an order extends access at most once and is taken back at most once |
| OrderFacts.RepeatedEventChangesNothing | database/assistant_payment_persistence.py:227-241 | an event delivered again is a duplicate and changes nothing, whatever came between |
| OrderFacts.RunFits | database/assistant_payment_persistence.py:262-326 | where an order stands is always as the events seen so far say: paid by a payment that was seen and not refunded, refunded after some refund, unpaid with neither |
| OrderFacts.FinalStatusIsFurthest | database/assistant_payment_persistence.py:262-326 | with one payment that grants or refunds the order, its final status is the furthest that any of its events reaches, failed attempts under other payments included |
| OrderFacts.DeliveryOrderDoesNotMatter | services/assistant_payment_service.py:323-352 | so two deliveries of the same events, in any order and with repeats, end in the same status |
| OrderFacts.DeliveriesEndAlikeExactly | database/assistant_payment_persistence.py:285-290 | all ways to deliver the same events, in any order and with repeats, end in one status if and only if the order was paid or refunded before, or nothing grants it, or nothing refunds it, or every payment that grants it is refunded |
| PassFacts.RunStaysWithin | database/assistant_payment_persistence.py:194-225 | over all interleavings of calls, settlements, renewals and refunds, use is below the limit plus the largest reservation plus what refunds and overshooting calls added since the pass was last renewed or last let a call in |
| PassFacts.OverrunsByOneCall | services/assistant_payment_service.py:181-197 | while no event can take a pass back and calls settle within their reservation, use stays below the limit plus one reservation; partial refunds and unnamed ones make no difference |
| PassFacts.OneCallBoundsExactly | database/assistant_payment_persistence.py:194-225 | from empty books, in all runs with calls of at most a given size, given refund events and a given largest overshoot, that holds if and only if the overshoot is 0 and no event is a full refund naming an order and a payment |
| PassFacts.RefundReachesBound | database/assistant_payment_persistence.py:297-304 | one call and one refund take use past the limit plus the call's reservation, by all that the refunded order had bought: the bound is reached |
| PassFacts.OvershootReachesBound | services/assistant_payment_service.py:187-190 | so does a call that settles above its reservation |
| Usage.UsageStore.ReserveCall | database/assistant_usage_persistence.py:129-179 | counts, checks the four limits in order, and rolls back when one is passed |
| Usage.UsageStore.ReleaseCall | database/assistant_usage_persistence.py:181-191 | takes a reservation back, never below 0 |
| Usage.UsageStore.SettleTokens | database/assistant_usage_persistence.py:193-202 | replaces a reservation by what was spent, never below 0 |
| UsageFacts.RunConserves | database/assistant_usage_persistence.py:129-202 | every total of the table is that of its calls: reservations of those in flight, and what settled ones spent |
| UsageFacts.RowIsItsCalls | database/assistant_usage_persistence.py:129-202 | down to each single row |
| UsageFacts.RowHoldsCall | database/assistant_usage_persistence.py:181-202 | the clamps at 0 never bite: a row holds all that a call in flight reserved |
| UsageFacts.ReportedCallsAreCounted | database/assistant_usage_persistence.py:172-179 | the reported number of calls is the table's after the answer, denied or not, and a denial changes no row |
| UsageFacts.DecisionIsExact | database/assistant_usage_persistence.py:158-179 | a call is let in if and only if the day's, the user's and the week's totals with it are within their limits, the first that fails is named, and it adds itself to just the totals it is part of |
| UsageFacts.CallsStayWithinLimit | database/assistant_usage_persistence.py:168-169 | a user's calls of a day never exceed the limit |
| UsageFacts.DayStaysBelowCap | database/assistant_usage_persistence.py:166-171 | a day's tokens, everyone's or one user's, stay below their cap plus what its calls spent above their reservations |
| WeekFacts.WeekStaysBelowCap | database/assistant_usage_persistence.py:158-173 | if no day of a user is committed after a later one of the same 7 days, any 7 days in a row stay below the weekly cap plus what calls spent above their reservations |
| WeekFacts.LateDayPassesCap | database/assistant_usage_persistence.py:158-162 | a day committed after a later one of the same 7 days lets them pass any cap of 2 or more |
| WeekFacts.WeekCapHoldsExactly | database/assistant_usage_persistence.py:158-173 | for a given order of commit days, the cap holds at all times in every run that commits them if and only if none comes after a later one of the same 7 days |
| Streams.ActiveStreamRegistry.Acquire | services/assistant_service.py:104-108 | one slot for each user |
| Streams.ActiveStreamRegistry.Release | services/assistant_service.py:110-111 | the slot is free afterwards, taken or not before |
| Streams.AssistantChatStream.ReleaseSlot | services/assistant_service.py:361-367 | frees the slot once |
| Streams.AssistantChatStream.StartCharge | services/assistant_service.py:332-341 | starts one charge at most; `ReplyFacts.ReplyCostsItsUse` says of how much |
| Streams.AssistantChatStream.SendError | services/assistant_service.py:384-387 | records the error and frees the slot before it is sent |
| Streams.AssistantChatStream.FinishCalls | services/assistant_service.py:240-249 | the model has finished: all pending tool calls will be sent, or none, with an error |
| Streams.AssistantChatStream.SendNextCall | services/assistant_service.py:246-249 | one pending call goes out; the reply can stop between any two |
| Streams.AssistantChatStream.TakeItem | services/assistant_service.py:227-249 | every branch of the item loop |
| Streams.AssistantChatStream.EndReply | services/assistant_service.py:250-270 | the end of the provider's stream: an error, or outcome, slot, charge and closing events in that order |
| Streams.AssistantChatStream.FinishReply | services/assistant_service.py:266-270 | the closing events, once the charge is done |
| Streams.AssistantChatStream.FailReply | services/assistant_service.py:271-274 | an unexpected failure of a reply still being sent ends it with an error |
| Streams.AssistantChatStream.TimeOut | services/assistant_service.py:276-280 | only a reply still open becomes timed out |
| Streams.AssistantChatStream.BeginClose | services/assistant_service.py:282-291 | only the first close goes on |
| Streams.AssistantChatStream.FinishClose | services/assistant_service.py:294-301 | frees the slot, charges and settles; `ReplyFacts.ReplyCostsItsUse` says at what |
| StreamFacts.ChargeMatchesSettlement | services/assistant_service.py:282-341 | however a reply ends, the pass is charged the very tokens the daily row is settled at, or nothing when nothing was delivered and no usage was reported |
| StreamFacts.RunSendsCallsInOrder | services/assistant_service.py:235-249 | while a reply runs, also between two calls it sends, the calls sent and those waiting are all calls taken, in order; none is sent of a batch that is not all allowed; nothing follows the end or an error |
| StreamFacts.RunKeepsOutcome | services/assistant_service.py:253-255 | the recorded outcome is what the browser was told, and the slot is free before it is told that the reply ended |
| ReplyFacts.ReplyCostsItsUse | services/assistant_service.py:332-382 | over every run, from the items taken: the close settles the last report's tokens, with at least a token for every four characters read when the output is not final, or the estimate when there is no report; the pass is charged their sum, or 0 when nothing was read or reported |
| ReplyFacts.ItemEndsReplyExactly | services/assistant_service.py:227-254 | what an item makes of a running reply: a provider's error, a batch with a call that is not allowed, and the end of the stream, completed if and only if the model had finished |
| ReplyFacts.ActionEndsReplyExactly | services/assistant_service.py:271-280 | what else ends it: anything unexpected until its end is sent, and the time limit while it is open |
| ReplyFacts.TextsAreSentAsTaken | services/assistant_service.py:235-239 | every text taken has been sent, in order, whatever became of the reply |
| ReplyFacts.SlotIsFreeExactly | services/assistant_service.py:361-367 | the slot is free if and only if the reply has ended or its close is done |
| ReplyFacts.RunTells | services/assistant_service.py:250-301 | timed out, closed, settled and completed say which actions came, and in which order |
| RequestFacts.RunKeepsAccount | services/assistant_service.py:492-634 | over every interleaving, each daily reservation and each pass reservation is held by one request, or by one write on its way, or has ended, and never two of these; a slot is taken exactly while one request holds it |
| RequestFacts.ReservationsEndOnce | services/assistant_service.py:597-616 | each accepted reservation ends at most once; when nothing is left to run, exactly once, and no slot is taken |
| RequestFacts.OneHolderForEachUser | services/assistant_service.py:104-108 | two requests of one user never hold the slot together |
| RequestFacts.LateCloseKeepsSlot | services/assistant_service.py:361-367 | no step of another request, such as a late close, frees a slot that a request holds |
| AdmissionFacts.RequestBeginsExactly | services/assistant_service.py:492-513 | a request begins if and only if its user has no other and its estimate with 30 percent on top is within the prompt limit |
| AdmissionFacts.PassLetsInExactly | services/assistant_service.py:517-519 | it passes the paywall if and only if the database answers that its user's pass has not ended and has tokens left |
| AdmissionFacts.RunPaysFirst | services/assistant_service.py:514-519 | over every interleaving a request behind a paywall goes on only with a reservation of the pass, and no other has one |
| AdmissionFacts.DailyCallIsMadeExactly | services/assistant_service.py:560-574 | a daily call is made if and only if it is within the limits of its kind of request, on the row of the provider about to be tried |
| AdmissionFacts.TriesAreInOrder | services/assistant_service.py:533-557 | over every interleaving a request makes at most one daily call with each provider, the fallback's only after the primary refused it for another reason than its size |
| EndFacts.EveryRunEnds | services/assistant_service.py:282-301 | however answers, timers, disconnects, cancellations, closes and writes come, once no request begins and no provider item and no payment comes, only so many steps follow |
| EndFacts.StuckIsOver | services/assistant_service.py:519-531 | when none of those steps changes anything any more, every request and every write is over |
| EndFacts.EveryRunCanEnd | services/assistant_service.py:519-531 | from every reachable state the run can go on until all is over |
| RequestFacts.RunKeepsLedger | services/assistant_service.py:568-616 | under every interleaving the daily table goes through a run of reservations each released or settled once, so all laws of `UsageFacts` hold of it |
| RequestFacts.RowsAreSettledReplies | services/assistant_service.py:655-666 | when all is over, each row is the number of its settled replies and what they were settled at: refusals, fallbacks and cancellations leave nothing |
| PassCallFacts.PassPaysForReply | services/assistant_service.py:517-531 | when all is over, a request that reserved on a pass changed it once: the whole reservation back when no reply opened, else to what was charged |
| SettleFacts.OpenReplyIsARun | services/assistant_service.py:597-634 | each open reply is a run of the actions that came for it, so all laws of replies hold of it |
| SettleFacts.RequestCostsItsUse | services/assistant_service.py:282-341 | when all is over, under every interleaving, a request whose reply opened has its daily reservation settled once, at what the items used that the reply took before its close, and its pass changed once, to their price |
| PassUse.CountAddsUp | database/assistant_payment_persistence.py:194-225 | over every run of calls, renewals, refunds and deletions, a pass's count is what the calls since its renewal reserve or were charged, less at most what calls from before gave back since and more at most what they overshot |
| PassUse.LateRunMisses | database/assistant_payment_persistence.py:328-350 | for any reservation and charge, a call that ends after a renewal leaves the new count at its own charge, with another call of the same size in flight |
| PassUse.CountIsConservedExactly | services/assistant_payment_service.py:187-190 | for given pairs of reservation and charge of calls that end after a renewal, the count is that of the calls since the renewal in every run if and only if in each pair both are the same |
| PassUseFacts.RunStandsFor | services/assistant_service.py:517-531 | under every interleaving of requests and payments the pass store goes through such a run, each pass reservation one call let in once and ended at most once |
| PassUseFacts.CountIsItsRequests | services/assistant_payment_service.py:181-197 | so a user's count is what the requests since the renewal hold or were charged, up to what older requests gave back or overshot since |
| Messages.LatestPage | database/messaging_persistence.py:301-326 | with no cursor: the end of the conversation in (created_at, id) order, and whether anything is before it |
| Messages.BeforePage | database/messaging_persistence.py:301-326 | before a message: the messages just before it, as many as asked for but 1 to 100, and whether older ones exist |
| Messages.AfterPage | database/messaging_persistence.py:299-323 | after a message: the messages just after it, as many as asked for but 1 to 100, and whether newer ones exist |
| Messages.UnknownCursor | database/messaging_persistence.py:270-276 | a cursor from elsewhere falls back to the latest page, for a forward page with nothing more |
| Messages.BothCursors | database/messaging_persistence.py:282-305 | with two cursors, the page after the first |
| Messages.WalkYieldsEverything | database/messaging_persistence.py:278-281 | walking back from the latest page ends, and brings every message once, in order, whatever ties in time there are and whatever newer messages arrive on the way |
| Otp.AuthService.SignUp | services/auth_service.py:86-106 | a new email gets its first code |
| Otp.AuthService.ResendOtp | services/auth_service.py:122-155 | each refusal in its order, else all earlier codes are retired and one is added |
| Otp.AuthService.RequireGuessBudget | services/auth_service.py:157-169 | a new code is allowed if and only if the hour stays within 29 misses even after the five it can take |
| Otp.AuthService.Retire | database/otp_persistence.py:225-234 | marks just the account's codes as used |
| Otp.AuthService.RequireMatchingOtp | services/auth_service.py:64-84 | the live code's id for a right guess; a wrong one is counted, an expired code counts nothing |
| Otp.AuthService.RecordFailedAttempt | database/otp_persistence.py:179-206 | counts, and locks every unused code at the fifth miss |
| Otp.AuthService.ConsumeIfActive | database/otp_persistence.py:160-177 | uses a code up unless it was used or locked |
| Otp.AuthService.DeleteAccount | database/user_persistence.py:71-89 | removes the email and its codes |
| CodeFacts.GuessIsHeldExactly | services/auth_service.py:64-84 | a guess is right if and only if it is the text of the account's newest code that is neither used nor expired; a wrong one counts against that code alone, and the fifth ends all of the account's codes |
| CodeFacts.ResendIsExact | services/auth_service.py:122-169 | when a new code is refused and why, in order; the seconds to wait are just enough; else the account's codes are ended and one is made |
| CodeFacts.SignUpIsExact | services/auth_service.py:86-106 | only an unknown email signs up, unverified and with one code |
| CodeFacts.UseIsExact | database/otp_persistence.py:160-177 | a code is used if and only if nothing was done with it yet, and only it changes |
| CodeFacts.DeletionIsExact | database/user_persistence.py:71-89 | an account goes with all its codes, and no other code moves |
| OtpFacts.OneLiveCode | database/otp_persistence.py:65-77 | of two codes of an email and purpose the earlier is dead, they are a minute apart, and five misses kill a code |
| GuessFacts.GuessesOfAnyHour | services/auth_service.py:20-24 | unless the account is deleted within the hour, all codes of an email and purpose made within any one hour are missed 29 times at most, counted as the guesses are made |
| GuessFacts.DeletingForgetsMisses | database/user_persistence.py:78-82 | a user who signs up, misses, verifies and deletes the account again can miss any number of times, at any one moment of any hour |
| GuessFacts.GuessBudgetHoldsExactly | services/auth_service.py:20-24 | for every email, purpose and hour, and every set of times: all runs that delete the account only at these times keep the hour's misses to 29 if and only if none of the times is within the hour |
| OtpFacts.UsedOnce | database/otp_persistence.py:160-177 | however requests interleave, a code is used at most once |
| RateLimit.LimitStore.TryConsume | database/generation_limit_persistence.py:20-53 | the upsert: a new or expired window starts again, a full one refuses |
| RateLimit.CallIsLetThroughExactly | database/generation_limit_persistence.py:35-50 | over every run a call is let through if and only if its user has no window yet, the window opened more than an hour ago, or it let fewer calls through than the limit |
| RateLimit.HourIsBounded | database/chatbot_limit_persistence.py:20-46 | no hour lets through more than twice the limit but one, with a limit below 1 taken as 1 |
| RateLimit.HourIsReached | database/generation_limit_persistence.py:35-50 | for every limit of 1 or more some hour lets through that many |
| RateLimit.FirstCallIsFree | database/generation_limit_persistence.py:36-38 | the first call of a user is let through whatever the limit, 0 included |
| RateLimit.HourKeepsLimitExactly | database/generation_limit_persistence.py:35-50 | in all runs every hour keeps to the limit if and only if the limit is 1 |
| FileTree.CheckFileTree | schemas/coding_schemas.py:70-108 | the loops report the first problem, with the names it reports, or that there is none |
| FileTree.CheckNames | schemas/coding_schemas.py:84-97 | the same for the file names, saved names spared as often as they are saved |
| FileTree.AcceptedExactly | schemas/coding_schemas.py:70-108 | with no kept names: accepted if and only if file keys differ, no folder has a file's key, and folders of one key are spelled one way |
| FileTree.KeptAcceptedExactly | schemas/coding_schemas.py:70-108 | with any kept names: accepted if and only if each name is the first spelling of its key and not more often there than saved, or saved as the first spelling is too; and the folders of the first spellings clash with no file and with no other spelling |
| FileTree.SavedAgainExactly | schemas/coding_schemas.py:75-77 | a list with no name more often than saved never fails for its file names, and is accepted if and only if those folders are fine |
| FileTree.SecondSpellingRepeats | schemas/coding_schemas.py:88-96 | a second spelling may come more often than it is saved |
| FileTree.VerdictTells | schemas/coding_schemas.py:84-108 | a refusal names what is wrong: the file that is there too often or has another first spelling, the file a folder is in the way of, or two spellings of one folder |
| Codelab.CodelabStore.ApplySubmission | database/codelab_persistence.py:227-298 | progress, streak and points of a submission in one step |
| Codelab.StatsRow.RollStreak | database/codelab_persistence.py:383-392 | the same day changes nothing, the next day goes on, any other starts again |
| Codelab.StatsRow.AddXp | database/codelab_persistence.py:276-278 | adds points to the row, never fewer |
| Codelab.CodelabStore.TouchStreak | database/codelab_persistence.py:367-374 | rolls the streak alone |
| Codelab.CodelabStore.AddXp | database/codelab_persistence.py:376-381 | adds points, never fewer |
| CodelabFacts.ProgressIsHistory | database/codelab_persistence.py:260-272 | attempts, best score and status are those of all submissions of the problem |
| CodelabFacts.StatsAreHistory | database/codelab_persistence.py:274-280 | the solved count is the number of solved problems, and points are the awards and the first solves |
| CodelabFacts.ProblemPaysOnce | database/codelab_persistence.py:260-280 | each solved problem is reported as newly solved once |
| CodelabFacts.ResultTellsHistory | database/codelab_persistence.py:260-298 | a submission is answered with what the history with it says: attempts, best score, status, whether it solved the problem for the first time and any problem for the first time, and just the points gained |
| CodelabFacts.StreaksAreHistory | database/codelab_persistence.py:383-392 | on days that never go back, the current and the best streak are the final and the longest run of days with activity |

## Left out

- Text tidying, courtesy stripping, task hints and file mentions: parameters (`Render.Wording`); tidying keeps a text that is not blank not blank.
- Block ids and JSON: the data block's id and the encoded arguments are parameters or opaque strings.
- `original_chars` of the optimizer's result: a plain sum over the request.
- Field limits of the request schemas: the model takes every list; only that user messages are not blank is used.
- Tool-call deltas and the two providers' stream readers: their clients and wire formats are not part of this model.
- SQL below one store method: each is atomic, and transaction times strictly increase in `PaymentFacts`; row locks and isolation levels are not modelled.
- Failing databases: except that a daily or a pass reservation may find the database unreachable, store writes succeed; a cancellation between a commit and its answer, or of a close that waits for the provider, is not modelled.
- EndFacts.EveryRunEnds: counts steps, not time: that the event loop takes a step that is due, and that the timers fire, is left to it.
- Audit rows, pings, timings, log lines and user-facing messages.
- Payments.PaymentStore.DeleteUser: stands for the foreign keys' delete rules, as one step.
- Signatures and the reading of payment providers' answers: verify and reconciliation are the grants they end in; order creation and its limits are left out.
- OrderFacts.DeliveryOrderDoesNotMatter: is about the order's status; the days and tokens depend on when the payment came in, as they must.
- Messages.WalkYieldsEverything: new messages are newer than all that are in the conversation; deleting one only marks it, so rows do not vanish.
- Messages.ListMessages: read as filter, sort and take on values, as in the source; joins and eager loading are left out.
- The in-memory fallback for wrong guesses, the cruder limit used when the counter cannot be read, the issuance lock, and flows with email switched off.
- Otp.AuthService.ConsumeIfActive: password hashing and session revocation, which commit with it, are left out.
- FileTree.CheckFileTree: Unicode normal forms and case folding are the parameter `key`, and no law of it is used.
- Codelab.CodelabStore.ApplySubmission: stored attempts, timestamps and achievements other than the first-solve flag are left out.
- Reading marks, participants, tracks, exams, the relay, repositories and the other plain stores.
