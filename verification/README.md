# A verified model of the trading engine's stateful cores

This project models, in Dafny, the parts of the trading engine that carry state from one event to the next or that
must agree with a wire format, and proves what they keep over every run or for every input. `dafny verify
dfyconfig.toml` checks everything.

The modules follow the engine's components.

- **Profit and loss** (`PnlLedger`, `PnlConservation`, `PnlTheorems`, `PnlUnits`, `PnlSettlement`, `PnlTracker`).
  Fills, cross-matching of UP and DOWN, settlement and reversal as steps of a ledger that writes a journal. The main
  results are a conservation law under any valuation of the tokens (`RunConserves`), the double-entry identity that is
  its zero case (`LedgerIdentity`), and the profit of a settled pair, which depends on the fills alone and not on
  their order (`PairProfit`, `OrderIndependence`). A reference that keeps one entry price per open unit pins the order
  of matching: on every run the lots are its units and the gain is its gain (`RunIsUnitRun`). The tracker class with
  its ring buffers is proved to perform these steps.
- **Rate limiter** (`RateWindow`, `RateRefusal`, `RateLimits`, `RateBackoff`, `RateGrants`, `RateLimiter`). The
  bucketed windows, the backoff ladders and the degraded test. Every closed nine seconds of every run hold at most the
  limit of grants, in all and per class (`GrantBound`), and `WindowBoundIff` says for every limit which spans are
  guaranteed; the backoff state is a function of what arrived since the last 2xx or reset (`BackoffFollows`).
  `GrantedIff` says when a request is granted, in terms of the run's events, and `RefusalIff` how far back the grants
  can lie for which a window refuses.
- **Execution gateway** (`ExecTypes`, `FeedbackSink`, `SellLedger`, `Sums`, `Desk`, `DeskInvariant`, `GatewaySteps`,
  `GatewayOrders`, `GatewayRuns`, `GatewayWire`, `GatewaySharing`, `Gateway`). `GatewayRuns` makes the gateway a state
  machine whose moves are arriving intents, single orders, batches, cancels, heartbeats and replies. Nothing is asked
  of the intents: ids may repeat, as they do for the scheduler's cancels. Each id has an account of what was taken,
  sent, replied, said and reserved under it, and the accounts of all ids balance on every run (`ReachableSound`,
  `OutcomeLaw`). Everything sent and said is there for an intent that was taken, and says what the reply to it says
  (`ReachableWire`). The gateway class performs these moves, so `Gateway.Promises` holds of it.
- **Books** (`BookModel`, `OrderBook`, `ShadowBook`, `BookChannel`). The cached best bid and ask agree with a full
  scan; the strategy's shadow book, rebuilt from chunked messages one change at a time, is the book that snapshots and
  batches build; and the two stay in step exactly as long as no snapshot of a non-empty book is rejected and nothing
  that matters is lost on a full queue.
- **Wire formats** (`Bytes`, `Rlp`, `Transaction`, `ProxyCall`, `Decimal`, `OrderAmounts`, `PriceText`, `Recorder`).
  Encoders proved against decoders written from the formats: Appendix B of the Ethereum Yellow Paper, EIP-155, the
  Solidity Contract ABI Specification, the decimal texts and the recorder's length-prefixed frames.
- **Rotation** (`Rotation`, `RotationPlans`). The four-phase handshake between the rotation coordinator and the
  strategy thread as a state machine with every interleaving, which markets a run of rotations follows
  (`RotationsFollow`), the accounting of delayed redeems, and when the strategy is left paused for good.

Where the source updates things step by step the model does too: classes with fields and arrays, methods with loops,
each proved against a function of its inputs or of the state before. The structs the engine keeps by value inside hash
maps (the two rings of an asset, a shadow book) are values in a Dafny map, replaced whole where the source writes into
them.

## What the code does not do

Each of these is a property one might expect that fails of the code, and where the condition under which it holds is
proved.

- Shadow books follow the primary book. A rejected snapshot empties the primary but sends nothing, and a full queue
  drops messages. `BookChannel.SyncStep` and `BookChannel.ShadowAgreesIff` give the condition for every run and every
  pattern of drops; `BookChannel.RejectedSnapshotDiverges` and `BookChannel.DroppedMessageDiverges` are the smallest
  failing runs.
- A batch of SELLs stays within the position. The batch path checks every SELL before it reserves any:
  `SellLedger.BatchBoundIff`.
- Every intent has one outcome. The scheduler's cancels and cancel-alls carry the default id 0
  (`src/events/scheduler_events.h:403`, `src/scheduler/strategy_scheduler.cpp:535-538`), which is also the first id of
  a strategy (`src/scheduler/test_strategy.h:142`) and that of the cancel-all which failing heartbeats trigger. With
  more than one cancel connection (`config/default.json:61` has ten) the ids of answered cancels are never forgotten.
  `GatewayRuns.SettledIff` gives the condition for every run; `GatewaySharing.SettledOnEveryRunIff` that it holds on
  all runs if and only if the id is not the gateway's own and there is one connection or at most one cancel;
  `GatewaySharing.ZeroTwice` and `GatewaySharing.TwoCancelAlls` are the failing runs, for every threshold and number
  of connections.
- A SELL stays reserved while it is on the wire. Any outcome under its id gives its quantity back:
  `GatewaySharing.StaysReservedIff`, with the runs `GatewaySharing.ZeroReleased` and `GatewaySharing.SharedReleased`.
- The gateway hears the exchange's reply to a cancel-all. `GatewaySharing.CancelHeardIff` says which replies are
  heard; `GatewaySharing.DeafIff` that all replies to a second cancel-all with an id, a 401 included, can be lost if
  and only if there is more than one connection; `Gateway.Gateway.OnCancelReply` that a lost reply reaches neither
  limiter nor health nor fatal flag.
- The ten-second windows bound the grants of ten seconds: `RateWindow.WindowBoundIff`.
- The ten-second windows forget a grant after ten seconds. They age by whole seconds when they are called and drop the
  rest, so a refusal may be due to grants 18990 ms old, and to older ones without bound if the clock ever shows zero:
  `RateRefusal.RefusalIff`.
- Numbers that parse fit in 64 bits, and quantities are not negative. The guards of the quantity parser look at the
  whole part only, and long fractions overflow the scale: `PriceText.PrintedQtyIff`, `PriceText.QtyOverflowsIff`,
  `PriceText.PriceOverflowsIff`, `PriceText.LongFractionIff`, `PriceText.QtySignIff`, `PriceText.NegativeQty`.
- Tokens are paired symmetrically and the two of a pair are never both long. Registration does not check:
  `PnlTheorems.ReachableInvIff`.
- A SELL is signed for at most what it reserved: `OrderAmounts.SignedWithinReserved`.
- The 429 ladder is the capped power of two of the base: `RateBackoff.LadderClosedForm`.
- A backoff lasts until its end. A later 429 or 503 replaces it: `RateBackoff.BackoffLastsIff`,
  `RateBackoff.CutShort`.
- A recording that was cut short is continued without loss. It is if and only if nothing is left of it or the cut fell
  on the boundary of a frame: `Recorder.ContinuesIff`.
- The coordinator resumes the strategy before it ends: `Rotation.LeftPausedIff`, with the run `Rotation.LeftPaused`.

## Model

| member | source | states |
|---|---|---|
| `PnlTracker.Ring.Push` | src/common/pnl_tracker.h:38-50 | a ring of 256 slots is a bounded queue: the lot goes behind all others, or is dropped when the ring is full |
| `PnlTracker.Ring.Pop` | src/common/pnl_tracker.h:55-63 | the oldest lot leaves the queue, also across the end of the array |
| `PnlTracker.Ring.Front` | src/common/pnl_tracker.h:52-53 | the slot at the head is the first lot of the queue |
| `PnlTracker.Ring.UseFront` | src/common/pnl_tracker.h:91-97 | the front lot shrinks by the matched quantity and leaves when nothing is left |
| `PnlTracker.CloseFifo` | src/common/pnl_tracker.h:90-98 | the same-asset loop takes exactly the lots that `Take` takes, leaves the rest, and gains the truncated sum of the closed lots |
| `PnlTracker.PairLongs` | src/common/pnl_tracker.h:106-120 | the cross-asset loop pairs the two long queues as `PairQueues` does and gains its stored sum |
| `PnlTracker.SettleAll` | src/common/pnl_tracker.h:158-173 | a settlement loop gains the stored sum of all open lots of a side |
| `PnlTracker.TradeState` | src/common/pnl_tracker.h:87-135 | the half of a fill in its own asset: opposite lots first in first out, the remainder queued |
| `PnlTracker.PnlTracker.constructor` | src/common/pnl_tracker.h:66-68 | a tracker starts as the empty ledger |
| `PnlTracker.PnlTracker.RegisterPair` | src/common/pnl_tracker.h:70-77 | the tracker performs the ledger's `Register`, whatever the two tokens, and keeps the invariant if and only if the registration is legal |
| `PnlTracker.PnlTracker.Ensure` | src/common/pnl_tracker.h:82-83 | looking an asset up inserts an empty state and changes no other |
| `PnlTracker.PnlTracker.CrossMatchAsset` | src/common/pnl_tracker.h:102-121 | the tracker performs the ledger's `CrossMatch` when the partner exists and is not settled |
| `PnlTracker.PnlTracker.TradeAsset` | src/common/pnl_tracker.h:82-101 | only the filled asset's book changes, to `Trade`'s; nothing happens to a settled asset |
| `PnlTracker.PnlTracker.MatchPartner` | src/common/pnl_tracker.h:102-121 | only a BUY is cross-matched |
| `PnlTracker.PnlTracker.TradeThenMatch` | src/common/pnl_tracker.h:87-135 | both halves of a fill, in order, and the sum of their stored gains |
| `PnlTracker.PnlTracker.MatchFill` | src/common/pnl_tracker.h:81-139 | books and total become those of the ledger's `Fill`, and the returned delta is what the total moved by |
| `PnlTracker.PnlTracker.RecordFill` | src/common/pnl_tracker.h:81-139 | the same, from any reachable tracker, and the invariant is kept; counted in single units, the fill closes the oldest open ones and its own are queued behind the others |
| `PnlTracker.PnlTracker.ReverseFill` | src/common/pnl_tracker.h:144-146 | the total goes back by exactly the delta given |
| `PnlTracker.PnlTracker.SettleAsset` | src/common/pnl_tracker.h:151-176 | the tracker performs the ledger's `Settle`, once per asset, and keeps the invariant |
| `PnlTheorems.ReachableInv` | src/common/pnl_tracker.h:70-176 | with legal registrations no asset ever holds longs and shorts, the two tokens of a pair never both hold longs, queued lots are positive, settled assets stay empty and pairing is symmetric |
| `PnlTheorems.ReachableInvIff` | src/common/pnl_tracker.h:70-176 | a run keeps that throughout if and only if each registration is of two different unpaired tokens not both long, or of two paired ones |
| `PnlTheorems.StepKeepsInv` | src/common/pnl_tracker.h:70-176 | each operation keeps that invariant |
| `PnlTheorems.FillKeepsInv` | src/common/pnl_tracker.h:81-139 | a fill restores it although in mid-fill both tokens of a pair may be long |
| `PnlTheorems.RegisterKeepsInv` | src/common/pnl_tracker.h:70-77 | registering keeps it if and only if the registration is legal |
| `PnlTheorems.SettleKeepsInv` | src/common/pnl_tracker.h:151-176 | settling keeps it |
| `PnlTheorems.TakeIsUnitFifo` | src/common/pnl_tracker.h:90-98 | matching lots is matching single units first in first out: the oldest min(qty, open) units leave, the rest stay in order |
| `PnlTheorems.PairIsUnitFifo` | src/common/pnl_tracker.h:107-120 | pairing takes the oldest units of both queues, as many as the shorter one holds |
| `PnlUnits.TradeUnits` | src/common/pnl_tracker.h:87-135 | the half of a fill in its own asset is that of the unit reference: the oldest units of the other side are closed, what is left of the fill becomes the youngest of its own side, and the exact gain is the reference's |
| `PnlUnits.FillClosesOldest` | src/common/pnl_tracker.h:87-135 | on every run a fill of any size gains the sum, over the oldest n units open on the other side, of the SELL price less the BUY price; those n leave and the rest of the fill goes behind the open units of its side while there is room |
| `PnlUnits.PairIsPairUnits` | src/common/pnl_tracker.h:106-120 | pairing closes the longs of both tokens oldest against oldest, for a dollar less what both cost |
| `PnlUnits.SettleHolds` | src/common/pnl_tracker.h:151-176 | settling closes every open unit at the price, once, and gains what the unit reference gains |
| `PnlUnits.RunIsUnitRun` | src/common/pnl_tracker.h:70-176 | on every run with legal registrations the lots are the units of a reference that keeps one entry price per unit in order of purchase, and the exact gain is the reference's |
| `PnlTheorems.RunConserves` | src/common/pnl_tracker.h:70-176 | under every valuation of the tokens, exact gain plus the mark of what is open equals the sum of the flows, on every run |
| `PnlTheorems.LedgerIdentity` | src/common/pnl_tracker.h:81-176 | exact gain = cash + cost of open longs - proceeds of open shorts + 10000 per paired share + dropped lots, on every run |
| `PnlTheorems.RealizedIsStored` | src/common/pnl_tracker.h:81-176 | the stored total is the sum of the truncated journal entries less what was reversed |
| `PnlTheorems.RealizedWithinRounding` | src/common/pnl_tracker.h:81-176 | 10000 times the stored total falls short of the exact gain by at most 9999 per match or settlement that brought a profit, and exceeds it by at most 9999 per losing one |
| `PnlTheorems.ReverseCancelsItsFill` | src/common/pnl_tracker.h:139-146 | reversing a fill at any later time leaves the total the same run would show had the fill recorded no gain |
| `PnlTheorems.RunIgnoresRealized` | src/common/pnl_tracker.h:81-176 | no operation reads the stored total |
| `PnlConservation.TakeConserves` | src/common/pnl_tracker.h:90-98 | taken and left lots together have the mark of the queue |
| `PnlConservation.CloseRealizes` | src/common/pnl_tracker.h:92-95 | closing lots realizes their mark against the closing price |
| `PnlConservation.PairConserves` | src/common/pnl_tracker.h:107-120 | pairing turns the marks of both queues into gain plus 10000 per pair |
| `PnlConservation.TradeConserves` | src/common/pnl_tracker.h:87-135 | the same-asset half of a fill conserves value |
| `PnlConservation.StepConserves` | src/common/pnl_tracker.h:70-176 | every operation conserves value, dropped lots included |
| `PnlSettlement.SettledProfit` | src/common/pnl_tracker.h:81-176 | when everything is settled at one price per token, the exact gain is the flow of the fills at those prices less that of the lots a full queue dropped |
| `PnlSettlement.OrderIndependence` | src/common/pnl_tracker.h:81-176 | two such runs with the same fills in any order have the same exact gain but for the lots they dropped |
| `PnlSettlement.PairProfit` | src/common/pnl_tracker.h:81-176 | for a pair traded in any interleaving and then settled at s and 10000-s, the exact gain is fill cash + s*netUp + (10000-s)*netDown less what dropped lots would have brought |
| `RateLimiter.SlidingWindow.constructor` | src/exec/rate_limiter.cpp:54-61 | a window starts with ten empty buckets |
| `RateLimiter.SlidingWindow.Slide` | src/exec/rate_limiter.cpp:10-37 | advancing the bucket ring drops exactly the counts whose time is over |
| `RateLimiter.SlidingWindow.Total` | src/exec/rate_limiter.cpp:39-43 | the sum over the array is the sum over the ages |
| `RateLimiter.SlidingWindow.TryConsume` | src/exec/rate_limiter.cpp:45-50 | grants, and counts in the youngest bucket, exactly when the total is below the limit |
| `RateLimiter.RateLimiter.constructor` | src/exec/rate_limiter.cpp:54-61 | the configured limits, no backoff |
| `RateLimiter.RateLimiter.TryAcquire` | src/exec/rate_limiter.cpp:91-120 | performs `RateLimits.Acquire`; granted if and only if the backoff is over, the exchange is available or no order is placed, and the global window and the own one grant |
| `RateLimiter.RateLimiter.ApplyJitter` | src/exec/rate_limiter.cpp:144-150 | the offset drawn is within a quarter of the delay, and the delay stays positive |
| `RateLimiter.RateLimiter.RecordResponse` | src/exec/rate_limiter.cpp:152-180 | performs `Respond` with a jitter that is within a quarter of the delay in force |
| `RateLimiter.RateLimiter.RecordRtt` | src/exec/rate_limiter.cpp:182-192 | performs `Measure`: a baseline over ten samples, then a moving average |
| `RateLimiter.RateLimiter.ResetBackoff` | src/exec/rate_limiter.cpp:194-201 | the backoff state is the initial one again |
| `RateWindow.WindowBound` | src/exec/rate_limiter.cpp:10-50 | for a clock that never goes back no closed 9000 ms of any run hold more grants of a window than its limit |
| `RateWindow.WindowBoundIff` | src/exec/rate_limiter.cpp:10-50 | for every limit and span: no closed span of any run holds more grants than the limit if and only if the limit is not positive, the span is at most 9000 ms, or the limit is one and the span at most 9999 ms |
| `RateRefusal.RefusedIsBusy` | src/exec/rate_limiter.cpp:10-50 | a refused call has at least the limit of grants in the 18990 ms before it, for a clock that never goes back nor shows zero |
| `RateRefusal.RefusalIff` | src/exec/rate_limiter.cpp:10-50 | for every limit, start of the clock and span: each refused call has the limit of grants in the span before it if and only if the limit is not positive, or the clock starts after zero and the span is at least 18990 ms |
| `RateLimits.WindowsFollow` | src/exec/rate_limiter.cpp:91-120 | each window of a run has seen exactly the calls that reached it, and a class's window granted exactly the class's grants |
| `RateLimits.GrantBound` | src/exec/rate_limiter.cpp:91-120 | on every run any closed 9000 ms hold at most the global limit of grants in all and the class limit of each class |
| `RateBackoff.BackoffFollows` | src/exec/rate_limiter.cpp:152-180 | counters, cancel-only mode and both ladders are functions of the responses since the last 2xx or reset |
| `RateBackoff.LadderClosedForm` | src/exec/rate_limiter.cpp:152-169 | the ladder after k responses is min(base*2^k, max) if and only if: for k = 0, base <= max; for k = 1, always; from then on, max >= 0 or 2*base <= max |
| `RateBackoff.EngineDownIff` | src/exec/rate_limiter.h:42-43 | the matching engine counts as down if and only if ten 425s have arrived since the last 2xx or reset |
| `RateBackoff.CancelOnlyAfter503` | src/exec/rate_limiter.cpp:91-105 | no place or replace is granted between a 503 and the next 2xx or reset |
| `RateBackoff.BackoffLastsIff` | src/exec/rate_limiter.cpp:152-172 | without a reset, the end that a 429, 425 or 503 set is in force if and only if it or a later one that lasts as long has not been replaced by a 429 or 503 that ends earlier |
| `RateBackoff.NoGrantDuringBackoff` | src/exec/rate_limiter.cpp:91-97 | no request of any type is granted before the end that a 429, 425 or 503 set, unless there was a reset or a later 429 or 503 replaced it by an earlier one |
| `RateBackoff.CutShort` | src/exec/rate_limiter.cpp:152-172 | a 503 right after a 429 can end its backoff early, with both jitters in range |
| `RateBackoff.DelayBounds` | src/exec/rate_limiter.cpp:144-159 | the delay that the k-th 429 in a row sets is within a quarter of min(base*2^k, max), when that is what the ladder holds |
| `RateGrants.EndFollows` | src/exec/rate_limiter.cpp:152-201 | the end of the backoff in force is what the last 429 or 503 since the last reset asked for, from a ladder that counts them, or a later 425 if that ends later |
| `RateGrants.GrantedIff` | src/exec/rate_limiter.cpp:91-120 | on every run a request is granted if and only if its time is not before that end, an order comes with no 503 since the last 2xx or reset, and the global window and that of its kind, each having seen exactly the calls that reached it, have room |
| `RateGrants.QuietMeansGranted` | src/exec/rate_limiter.cpp:91-120 | so outside a backoff a request is refused only if the 18990 ms before it hold the global limit of calls or the limit of grants of its kind |
| `RateGrants.DegradedIff` | src/exec/rate_limiter.cpp:129-192 | the limiter is degraded if and only if the configured number of 429s has arrived since the last 2xx or reset, or the latencies measured are degraded |
| `RateBackoff.BaselineIsMean` | src/exec/rate_limiter.cpp:182-192 | the baseline of n samples, up to ten, is their mean less at most (n-1)/2 for the truncations |
| `RateBackoff.EmaIsSmoothed` | src/exec/rate_limiter.cpp:182-192 | the average stays within nine nanoseconds of nine tenths of the average before and a tenth of the sample, over the reals, however many samples there are |
| `RateBackoff.LatencyDegradedNear` | src/exec/rate_limiter.cpp:129-141 | from twenty samples on, and not before, the latency is degraded when that average exceeds three baselines, give or take nine nanoseconds |
| `RateBackoff.FastSamplesKeepRtt` | src/exec/rate_limiter.cpp:182-192 | samples within three times the baseline never push the average above three times the baseline |
| `RateBackoff.LatencyDegradedNeedsSlowSample` | src/exec/rate_limiter.cpp:129-141 | latency degradation needs a sample above three times the baseline |
| `ExecTypes.ToEvent` | src/exec/execution_gateway.cpp:1650-1697 | the strategy can read the feedback off its event; a reject, a rate limit and an unavailable exchange, and nothing else, are rejects, and neither they nor a timeout are accepted |
| `ExecTypes.OrderFeedbackIff` | src/exec/execution_gateway.cpp:502-683 | the feedback for an order is the one that the reply's fields call for: timeout iff timed out or status 0, 502 or 504; rate limited iff 425 or 429; unavailable iff 503; accepted iff 2xx, success and an order id; rejected otherwise |
| `ExecTypes.CancelFeedbackIff` | src/exec/execution_gateway.cpp:1127-1317 | the same for a cancel: confirmed iff 2xx and the answer lists the order, or nothing particular was to be cancelled, or the refusal says that it had gone |
| `FeedbackSink.FeedbackSink.constructor` | src/exec/execution_gateway.cpp:72-84 | nothing published, flag down |
| `FeedbackSink.FeedbackSink.Raise` | src/exec/execution_gateway.cpp:584-586 | the fatal flag goes up if there is one; nothing else changes |
| `FeedbackSink.FeedbackSink.PushCritical` | src/exec/execution_gateway.cpp:1587-1598 | the event is queued once or not at all, and in the latter case after 1024 attempts |
| `FeedbackSink.FeedbackSink.Publish` | src/exec/execution_gateway.cpp:1583-1648 | what was queued is the published history without the dropped feedbacks, in order; drops are counted; the flag is up if and only if it was raised, a critical feedback was lost or 1000 were dropped; a reject, timeout or unavailability is lost only after 1024 attempts |
| `FeedbackSink.NoSilentLoss` | src/exec/execution_gateway.cpp:1561-1648 | while the flag is down every reject and unavailability is in the queue as an unaccepted reject, every timeout as an unaccepted acknowledgement, fewer than 1000 others were dropped, and queued plus dropped is published |
| `FeedbackSink.QueueKeepsOrder` | src/exec/execution_gateway.cpp:1583-1648 | later feedback is queued after earlier feedback |
| `SellLedger.ReserveBalanced` | src/exec/execution_gateway.cpp:408-410 | reserving a SELL keeps the reserved quantity of each token equal to the sum over the reserved SELLs |
| `SellLedger.ReleaseBalanced` | src/exec/execution_gateway.cpp:1575-1580 | so does releasing one, and the clamp at zero never acts |
| `SellLedger.AdmissionBound` | src/exec/execution_gateway.cpp:383-410 | the single-order check passes if and only if what is reserved after it is at most the position |
| `SellLedger.ReserveAllAdds` | src/exec/execution_gateway.cpp:747-754 | a batch adds to each token the sum of its SELL sizes |
| `SellLedger.OneSellFits` | src/exec/execution_gateway.cpp:698-764 | with at most one SELL of a token the admitted quantity fits in what the position leaves |
| `SellLedger.BatchBoundIff` | src/exec/execution_gateway.cpp:698-764 | the batch path never reserves more of a token than the position, for all sizes, positions and earlier reservations, if and only if the batch has at most one SELL of it |
| `Desk.WireIsQuietIff` | src/exec/execution_gateway.cpp:73-81 | the counts of an id's orders and cancels on the wire are zero if and only if no request in flight concerns it |
| `DeskInvariant.TakeSound` | src/exec/execution_gateway.cpp:277-283 | taking an intent, whatever its id, keeps the accounts of all ids balanced |
| `DeskInvariant.AnswerSound` | src/exec/execution_gateway.cpp:1567-1581 | so does an outcome that a reply brings, of an order or of a cancel, with what was reserved under its id given back |
| `DeskInvariant.RefuseSound` | src/exec/execution_gateway.cpp:1567-1581 | so does an outcome for an intent that was not sent |
| `DeskInvariant.ReceiveSound` | src/exec/execution_gateway.cpp:1109-1115 | a reply leaves one outcome due for each order it answers, and for a cancel exactly if no reply with its id was heard before |
| `DeskInvariant.AdmitSound` | src/exec/execution_gateway.cpp:383-410 | admitting a covered SELL keeps the accounts and the ledger balanced, and what is reserved is within the position |
| `DeskInvariant.OrdersSentSound` | src/exec/execution_gateway.cpp:480-483 | so does sending an order or a batch whose SELLs are reserved |
| `DeskInvariant.CancelSentSound` | src/exec/execution_gateway.cpp:1336-1345 | and a cancel in any number of copies |
| `DeskInvariant.HealthSound` | src/exec/execution_gateway.cpp:316-338 | publishing the opposite health keeps degraded and recovered alternating from degraded on |
| `DeskInvariant.SuccessSound` | src/exec/execution_gateway.cpp:1537-1546 | a heartbeat success ends the failure streak and the latch |
| `DeskInvariant.FailureSound` | src/exec/execution_gateway.cpp:1410-1429 | a heartbeat failure sends the cancel-all exactly when the streak reaches an enabled threshold, once per streak |
| `GatewaySteps.Screen` | src/exec/execution_gateway.cpp:502-616 | the failure branches of the reply handlers, in terms of the reply's fields: which kind of feedback each failure is, none for an answered 2xx, and the fatal flag exactly on 401, 403 and a 425 of a dead matching engine |
| `GatewaySteps.JudgeOrder` | src/exec/execution_gateway.cpp:502-683 | an order's feedback read off the reply's fields: accepted only with an order id; timeouts, 502 and 504 are timeouts, 425 and 429 rate limits, 503 unavailability, all else rejects |
| `GatewaySteps.JudgeCancel` | src/exec/execution_gateway.cpp:1127-1317 | a cancel is confirmed exactly when the order is cancelled now or was already gone |
| `GatewaySteps.BatchSaysOnePerOrder` | src/exec/execution_gateway.cpp:807-1042 | the n orders of a batch get n feedbacks, in order, each read off its own element of the reply, a missing element being a reject |
| `GatewaySteps.IsDueIff` | src/exec/heartbeat_manager.cpp:8-14 | a heartbeat is due if and only if there is an interval and none was sent yet or that many milliseconds have passed |
| `GatewaySteps.ReplySound` | src/exec/execution_gateway.cpp:487-1547 | the reply to an order, a batch, a cancel or a heartbeat, whatever it says, keeps the accounts of all ids balanced |
| `GatewayOrders.PlacedSound` | src/exec/execution_gateway.cpp:380-484 | placing one order keeps the accounts balanced, and the order, no other intent, leaves the hand |
| `GatewayOrders.PlacedProgress` | src/exec/execution_gateway.cpp:380-484 | an order goes on the wire exactly when it was built and, if a SELL, covered, and then its quantity is reserved within the position; otherwise it is given an outcome and nothing is reserved under its id |
| `GatewayOrders.ScreenedSound` | src/exec/execution_gateway.cpp:698-737 | the inventory check of a batch answers those that do not pass and leaves exactly the others in hand |
| `GatewayOrders.BatchedSound` | src/exec/execution_gateway.cpp:698-805 | placing a batch keeps the accounts balanced, all of it leaves the hand, and what goes out as a batch has reserved what `ReserveAll` says |
| `GatewayOrders.BatchAdmits` | src/exec/execution_gateway.cpp:704-733 | if SELLs have ids of their own, those that pass are those that the ledger from before the batch admits, and nothing is given back meanwhile |
| `GatewayOrders.ProcessedSound` | src/exec/execution_gateway.cpp:340-378 | dealing with an intent of any type keeps the accounts balanced, and the intent, no other, leaves the hand |
| `GatewayRuns.StepSound` | src/exec/execution_gateway.cpp:274-1547 | every move of the gateway keeps the invariant |
| `GatewayRuns.ReachableSound` | src/exec/execution_gateway.cpp:274-1547 | so it holds on every run, with intents of any ids |
| `GatewayRuns.OutcomeLaw` | src/exec/execution_gateway.cpp:274-1648 | between polls, on every run and for every id: intents taken plus cancel replies heard equal outcomes given plus orders on the wire plus cancels sent |
| `GatewayRuns.SettledIff` | src/exec/execution_gateway.cpp:274-1648 | once nothing on the wire concerns an id, its intents have had one outcome each if and only if, with one connection, no own cancel-all used the id, and with more, at most one of them was sent as a cancel and one was if an own cancel-all used it |
| `GatewayRuns.OncePerIntent` | src/exec/execution_gateway.cpp:274-1648 | if the id is not the gateway's own and, with redundant connections, at most one cancel carries it, there are never more outcomes than intents, and as many exactly when no request on the wire owes one |
| `GatewayRuns.AloneStaysReserved` | src/exec/execution_gateway.cpp:1575-1580 | a SELL on the wire is reserved if nothing else carries its id |
| `GatewayRuns.ReservedIsOnTheWire` | src/exec/execution_gateway.cpp:73-81 | between polls only SELLs on the wire are reserved; with ids of their own, all of them, and what is reserved of a token is the sum of their sizes |
| `GatewayWire.ReachableWire` | src/exec/execution_gateway.cpp:274-1547 | on every run each request sent or on the wire carries the ids of intents that were taken, orders once, cancels with their exchange id once, cancel-alls once per connection; and each feedback answers such an intent, with what the fields of some reply to it call for, or says that it is refused, throttled or about to be sent |
| `GatewayWire.StepWire` | src/exec/execution_gateway.cpp:274-1547 | every move keeps that |
| `GatewaySharing.AlarmReached` | src/exec/execution_gateway.cpp:1410-1429 | from any quiet state unanswered heartbeats alone lead to the gateway's own cancel-all, whatever the threshold, and disturb nothing else |
| `GatewaySharing.ZeroReleased` | src/exec/execution_gateway.cpp:1109-1126 | a run on which the reply to the gateway's own cancel-all ends a SELL with id 0 and gives its quantity back while the order is on the wire |
| `GatewaySharing.ZeroTwice` | src/exec/execution_gateway.cpp:1420-1427 | a run on which one intent with id 0 has two outcomes |
| `GatewaySharing.TwoCancelAlls` | src/exec/execution_gateway.cpp:1109-1115 | a run on which two cancel-all intents with one id have one outcome, on redundant connections |
| `GatewaySharing.SettledOnEveryRunIff` | src/exec/execution_gateway.cpp:1109-1126 | for every id and number of cancels: on all runs with at most that many its intents have one outcome each if and only if the id is not the gateway's own and there is one connection or at most one cancel |
| `GatewaySharing.SharedReleased` | src/scheduler/strategy_scheduler.cpp:535-538 | a run on which a cancel-all with a SELL's id gives the SELL's quantity back while it is on the wire |
| `GatewaySharing.StaysReservedIff` | src/exec/execution_gateway.cpp:1575-1580 | for every id and number of intents that carry it: on all runs with at most that many a SELL stays reserved while it is on the wire if and only if it is the only one and the id is not the gateway's own |
| `GatewaySharing.CancelHeardIff` | src/exec/execution_gateway.cpp:1109-1115 | on every run the reply to a cancel or cancel-all is heard if and only if there is one cancel connection or no reply to a cancel with its id has come before |
| `GatewaySharing.DeafIff` | src/exec/execution_gateway.cpp:1109-1115 | a state in which no reply whatever to a cancel-all is heard is reachable if and only if there is more than one cancel connection |
| `GatewaySharing.SecondAlarm` | src/exec/execution_gateway.cpp:1410-1429 | a run with two failure streaks after which the gateway is deaf to its own second cancel-all |
| `Gateway.Gateway.constructor` | src/exec/execution_gateway.cpp:105-188 | a gateway starts where runs start, with nothing taken, sent or said |
| `Gateway.Gateway.ReleaseSell` | src/exec/execution_gateway.cpp:1575-1580 | the reservation of an answered SELL goes back |
| `Gateway.Gateway.PublishRaw` | src/exec/execution_gateway.cpp:1567-1648 | one feedback is published, and what is reserved under its id released if it is terminal |
| `Gateway.Gateway.CheckDegraded` | src/exec/execution_gateway.cpp:316-338 | afterwards the flag is up if and only if there were too many 429s, slow replies, a 503 or too many failed heartbeats, and a change, only a change, was published |
| `Gateway.Gateway.NoteReply` | src/exec/execution_gateway.cpp:489-492 | the status of every reply goes into the backoff and its latency into the average before the health check |
| `Gateway.Gateway.OnOrderReply` | src/exec/execution_gateway.cpp:487-684 | does the run's step for the reply to an order: the health published first, one outcome, which is the one the reply's fields call for, the fatal flag raised where it must be |
| `Gateway.Gateway.OnBatchReply` | src/exec/execution_gateway.cpp:807-1042 | does the run's step for the reply to a batch: one outcome per order, read off the element in its place, the missing ones rejected |
| `Gateway.Gateway.OnCancelReply` | src/exec/execution_gateway.cpp:1109-1318 | the reply reaches limiter, health check and fatal flag if and only if there is one cancel connection or no reply to a cancel with the id has come before, and then gives the outcome its fields call for; otherwise it changes nothing, and a degraded flag that agreed with its definition still does |
| `Gateway.Gateway.SendHeartbeat` | src/exec/execution_gateway.cpp:1361-1391 | one heartbeat goes out and is marked in flight |
| `Gateway.Gateway.CheckHeartbeat` | src/exec/execution_gateway.cpp:1347-1359 | a heartbeat goes out exactly when none is in flight, the interval has passed and the limiter grants it |
| `Gateway.Gateway.BeatFailure` | src/exec/execution_gateway.cpp:1410-1429 | counts the failure, says so, sends the cancel-all at the threshold and checks the health |
| `Gateway.Gateway.OnBeatReply` | src/exec/execution_gateway.cpp:1431-1547 | does the run's step for the reply to a heartbeat: success only with an id to chain on; 425 and 429 are not failures; the degraded flag equals its definition afterwards |
| `Gateway.Gateway.BeatSuccess` | src/exec/heartbeat_manager.cpp:16-22 | the streak is over and the next heartbeat chains on the new id |
| `Gateway.Gateway.AdmitSell` | src/exec/execution_gateway.cpp:383-410 | admitted exactly when the position covers the SELL on top of what is reserved |
| `Gateway.Gateway.SendPlaceOrder` | src/exec/execution_gateway.cpp:380-484 | does `Placed`, of which `GatewayOrders.PlacedProgress` says what it reserves; refused when a SELL is not covered or cannot be built, and otherwise announced and sent once with its ids |
| `Gateway.Gateway.CheckOne` | src/exec/execution_gateway.cpp:704-733 | the batch check of one intent, against what is reserved at the time; one that fails is answered |
| `Gateway.Gateway.ScreenBatch` | src/exec/execution_gateway.cpp:698-737 | does the check of a batch, of which `GatewayOrders.BatchAdmits` says what it admits |
| `Gateway.Gateway.BookAll` | src/exec/execution_gateway.cpp:747-754 | every SELL of the batch is reserved |
| `Gateway.Gateway.SendPlaceOrderBatch` | src/exec/execution_gateway.cpp:698-805 | does `Batched`, of which `GatewayOrders.BatchedSound` says what it reserves, sends and answers; nothing is sent that could not be built |
| `Gateway.Gateway.SendCancelOrder` | src/exec/execution_gateway.cpp:1068-1107 | a cancel without an order id is refused, any other is announced and sent once with its ids and its exchange id |
| `Gateway.Gateway.SendCancelAll` | src/exec/execution_gateway.cpp:1320-1345 | a cancel-all is sent on every cancel connection |
| `Gateway.Gateway.Throttle` | src/exec/execution_gateway.cpp:357-361 | an intent that the limiter refuses is told at once that it is rate limited |
| `Gateway.Gateway.ProcessIntent` | src/exec/execution_gateway.cpp:340-378 | each type of intent is dispatched to its step, or refused by the limiter, and the health is not touched |
| `Gateway.Gateway.FlushOrderBatch` | src/exec/execution_gateway.cpp:686-696 | what was buffered goes through the single or the batch path, the buffer is empty, and none of its intents is left in hand |
| `Gateway.Gateway.Accumulate` | src/exec/execution_gateway.cpp:305-305 | the buffer grows by one, within its fifteen places |
| `Gateway.Gateway.PollOne` | src/exec/execution_gateway.cpp:277-311 | one intent, whatever its id, is taken; a granted order is buffered while batching is on, and everything else is dealt with at once |
| `Gateway.Gateway.BufferOne` | src/exec/execution_gateway.cpp:284-308 | an order is throttled or buffered, and a buffer of the configured size, or fifteen, is flushed |
| `Gateway.Gateway.PollIntents` | src/exec/execution_gateway.cpp:274-314 | the first sixteen intents of any queue are taken, in order, and none of them is left in hand |
| `Gateway.Gateway.Promises` | src/exec/execution_gateway.cpp:274-1648 | between events: the outcome law of every id, one outcome per intent under its exact condition, reservations equal to SELLs on the wire, admissions within the position, alternating health, one alarm per streak at the threshold, everything sent and said for an intent taken, and no silent loss |
| `BookModel.BestBelowIff` | src/book/order_book.cpp:164-171 | the scan finds the highest occupied price, or reports none exactly when there is none |
| `BookModel.BestFromIff` | src/book/order_book.cpp:174-181 | the scan finds the lowest occupied price, or reports none exactly when there is none |
| `BookModel.FirstErrorIff` | src/book/order_book.cpp:57-63 | a batch is accepted if and only if every change is in range |
| `BookModel.FirstErrorIs` | src/book/order_book.cpp:57-63 | a batch is accepted if and only if every price is from 0 to 10000 and no size is negative, and the error is that of the first offending change |
| `BookModel.StatusIff` | src/book/order_book.cpp:183-193 | the status is empty without any level, crossed if and only if some bid is at or above some ask, and live otherwise |
| `BookModel.LastChangeWins` | src/book/order_book.cpp:65-81 | after a batch each level holds the size of its last change, or its old size |
| `OrderBook.OrderBook.constructor` | src/book/order_book.cpp:8-15 | a new book is empty and agrees with a scan |
| `OrderBook.OrderBook.Clear` | src/book/order_book.cpp:10-15 | empty ladders, no best prices, the tick size kept |
| `OrderBook.OrderBook.RecomputeBbo` | src/book/order_book.cpp:161-181 | the cached prices and sizes are those of a full scan |
| `OrderBook.OrderBook.RefreshStatus` | src/book/order_book.cpp:183-193 | the status follows from the best prices |
| `OrderBook.OrderBook.ApplySnapshot` | src/book/order_book.cpp:17-52 | the book becomes the snapshot's, or empty when a level is out of range |
| `OrderBook.OrderBook.ApplyPriceChange` | src/book/order_book.cpp:54-89 | an accepted batch gives the book that a full rescan would, although the rescan is skipped when no change can have touched the best; a rejected one changes nothing |
| `OrderBook.OrderBook.SetTickSize` | src/book/order_book.cpp:91-91 | only the tick size changes |
| `OrderBook.UntouchedScan` | src/book/order_book.cpp:69-86 | changes that stay behind the best prices of before the batch leave the scan as it was |
| `ShadowBook.StrategyBookStore.Apply` | src/scheduler/strategy_book_store.cpp:7-72 | a message does to the shadow book what `ApplyDelta` does, no other book changes, and each book is what its messages so far make of the empty one |
| `ShadowBook.StrategyBookStore.IsBookValid` | src/scheduler/strategy_book_store.cpp:86-90 | valid exactly when the asset was seeded or heard of and its messages so far do not end inside a snapshot |
| `ShadowBook.EachIsBatch` | src/scheduler/strategy_book_store.cpp:55-70 | applying changes one at a time gives the book, best prices and status of the whole batch |
| `ShadowBook.SidesAreIndependent` | src/scheduler/strategy_book_store.cpp:15-70 | a side of the book depends only on that side's changes in their order |
| `ShadowBook.SnapshotInPieces` | src/scheduler/strategy_book_store.cpp:15-52 | any BEGIN, CHUNK and END split of a snapshot, with the sides interleaved in any way, builds the snapshot's book |
| `ShadowBook.PendingIff` | src/scheduler/strategy_book_store.cpp:15-52 | the book is flagged invalid exactly between BEGIN and END |
| `BookChannel.PackSnapshot` | src/state/market_state_store.cpp:76-117 | a snapshot is sent as a BEGIN, CHUNK and END split of at most 64 changes each that carries exactly its levels |
| `BookChannel.PackChanges` | src/state/market_state_store.cpp:149-170 | accepted changes are sent in order in messages of at most 64, none when there are none |
| `BookChannel.DeltaQueue.Push` | src/state/market_state_store.cpp:13-37 | a message is queued once, or dropped: after 100000 attempts if it is part of a snapshot, after one otherwise |
| `BookChannel.DeltaQueue.PushAll` | src/state/market_state_store.cpp:13-37 | of an event's messages the queue receives those that were kept, in order |
| `BookChannel.SyncWhenDelivered` | src/state/market_state_store.cpp:50-215 | when every message arrives, one event keeps primary and shadow book in step if and only if it is not a rejected snapshot of a book with a best price |
| `BookChannel.SyncStep` | src/state/market_state_store.cpp:11-215 | whatever is dropped, one event keeps them in step if and only if it is not such a snapshot and the kept messages leave no snapshot open and give every level and the tick size what all of them would |
| `BookChannel.ShadowAgreesIff` | src/state/market_state_store.cpp:11-215 | on every run with any drops the two agree throughout if and only if that holds of each event |
| `BookChannel.DroppedMessageDiverges` | src/state/market_state_store.cpp:31-36 | one bid whose message is dropped leaves them apart |
| `BookChannel.RejectedSnapshotDiverges` | src/state/market_state_store.cpp:63-69 | one bid and then a snapshot with a price above the range leave them apart |
| `Rlp.DecodeEncode` | src/inventory/rlp_encoder.cpp:29-87 | a decoder written from the Yellow Paper recovers every encoded item and leaves the bytes after it untouched |
| `Rlp.EncodeDecode` | src/inventory/rlp_encoder.cpp:29-87 | whatever that decoder accepts is the code of what it returns, so no item has two codes |
| `Rlp.DecodeTextsEncode` | src/inventory/rlp_encoder.cpp:29-87 | a concatenation of encoded strings is decoded to those strings |
| `Transaction.EncodeLengthBytes` | src/inventory/rlp_encoder.cpp:8-18 | appends the shortest big-endian form of the length |
| `Transaction.CountLengthBytes` | src/inventory/rlp_encoder.cpp:20-27 | counts the bytes of that form |
| `Transaction.EncodeString` | src/inventory/rlp_encoder.cpp:29-42 | appends the string's code |
| `Transaction.EncodeUint64` | src/inventory/rlp_encoder.cpp:44-61 | appends the code of the integer's shortest form, the empty string for zero |
| `Transaction.EncodeUint256` | src/inventory/rlp_encoder.cpp:63-75 | the same for 32 bytes, leading zeros stripped |
| `Transaction.WrapList` | src/inventory/rlp_encoder.cpp:77-87 | appends the list's code |
| `Transaction.EncodeTxFields` | src/inventory/tx_builder.cpp:9-16 | the six common fields, in order |
| `Transaction.BuildUnsigned` | src/inventory/tx_builder.cpp:18-36 | the EIP-155 signing payload |
| `Transaction.BuildSigned` | src/inventory/tx_builder.cpp:44-66 | the signed list with v, r and s |
| `Transaction.BuildSignedTransaction` | src/inventory/tx_builder.cpp:18-66 | both, and nothing when signing failed |
| `Transaction.SigningPayloadDecodes` | src/inventory/tx_builder.cpp:18-36 | the payload decodes to nonce, gas price, gas limit, to, value, data and chain id |
| `Transaction.SigningPayloadInjective` | src/inventory/tx_builder.cpp:18-36 | hence two transactions with the same payload are the same |
| `Transaction.EipVIff` | src/inventory/tx_builder.cpp:44-50 | v is chainId*2 + 35 + recovery id if and only if that fits in 64 bits |
| `Transaction.SignedTxDecodes` | src/inventory/tx_builder.cpp:44-66 | the signed transaction decodes to its fields and signature |
| `ProxyCall.Uint64ToUint256` | src/crypto/hex_utils.h:103-109 | the 32-byte big-endian form of the value |
| `ProxyCall.EncodeProxyCallData` | src/inventory/proxy_tx_builder.cpp:75-135 | the bytes written one after the other are the ABI words, the inner call and its padding |
| `ProxyCall.CalldataDecodes` | src/inventory/proxy_tx_builder.cpp:75-135 | following the ABI offsets recovers type 1, the target, value 0 and exactly the inner bytes, whatever their length |
| `ProxyCall.CalldataShape` | src/inventory/proxy_tx_builder.cpp:75-135 | 4 plus a multiple of 32 bytes, zero padding |
| `ProxyCall.PreimageDecodes` | src/inventory/proxy_tx_builder.cpp:137-203 | the hashed bytes determine every field of the proxy transaction |
| `OrderAmounts.TimesTenPlus` | src/crypto/hex_utils.h:83-93 | one decimal digit is multiplied and carried through the 32 bytes exactly |
| `OrderAmounts.DecimalToUint256` | src/crypto/hex_utils.h:79-98 | succeeds if and only if the text is a non-empty digit string below 2^256, and then holds exactly its value |
| `OrderAmounts.AmountBounds` | src/exec/order_builder.cpp:60-95 | shares are multiples of 10000, dollars of 100, and 0 <= shares*price - 10000*usdc < 10^6 |
| `OrderAmounts.SignedWithinReserved` | src/exec/order_builder.cpp:72-75 | an order is signed for at most its size, which is what a SELL reserves, if and only if the size is at least a hundredth of a share |
| `OrderAmounts.BuildAmounts` | src/exec/order_builder.cpp:60-114 | rejected exactly outside the price range or without size; a signed overflow exactly when shares times price exceeds 64 bits; otherwise the signed amounts are the printed ones, dollars for shares on a BUY and shares for dollars on a SELL |
| `PriceText.FormatQty` | src/common/price.cpp:135-151 | the printed quantity |
| `PriceText.FormatPrice` | src/common/price.cpp:163-177 | the printed price |
| `PriceText.ParseQty` | src/common/price.cpp:82-133 | the parsed quantity, the error, or a 64-bit overflow |
| `PriceText.ParsePrice` | src/common/price.cpp:10-80 | the parsed price, the error, or a signed overflow |
| `PriceText.QtyRoundTrip` | src/common/price.cpp:82-151 | every non-negative 64-bit quantity survives printing and parsing |
| `PriceText.PriceRoundTrip` | src/common/price.cpp:10-177 | so does every price of the grid |
| `PriceText.PrintedQtyIff` | src/common/price.cpp:82-151 | a printed quantity of any size is read back as itself exactly up to the 64-bit maximum, overflows exactly from there to the next whole share, and is refused from there on |
| `PriceText.QtyReads` | src/common/price.cpp:82-133 | every unsigned decimal text is read as the quantity it denotes, cut to six decimals, with the exact conditions of every error and overflow |
| `PriceText.PriceReads` | src/common/price.cpp:10-80 | every unsigned decimal text is read as the price it denotes, cut to four decimals, refused above one dollar, with the exact conditions of every error and overflow |
| `PriceText.QtyOverflowsIff` | src/common/price.cpp:100-132 | for every text: the quantity parser overflows exactly when the scale of its fraction does, or the whole part is the last one admitted and the fraction exceeds the remainder |
| `PriceText.PriceOverflowsIff` | src/common/price.cpp:52-80 | for every text: the price parser overflows exactly when the scale of its fraction leaves 32 bits, or the whole part times 10000, the sum or its negation leaves 64 |
| `PriceText.LongFractionIff` | src/common/price.cpp:57-119 | the scale overflows exactly for well-formed texts with more than 13 decimals of a price or 24 of a quantity |
| `PriceText.QtySignIff` | src/common/price.cpp:106-132 | an accepted quantity is non-negative if and only if its whole part is not zero or its scaled fraction is not negative |
| `PriceText.NegativeQty` | src/common/price.cpp:106-132 | the text 0.-5 is accepted as a negative quantity |
| `Recorder.RecordFile.constructor` | src/recorder/data_recorder.cpp:57-97 | a file gets its header exactly when it is new or empty |
| `Recorder.RecordFile.WriteFrame` | src/recorder/data_recorder.cpp:163-174 | a message is appended as header and payload, or the file is closed with the frame cut somewhere |
| `Recorder.RecordFile.DrainRaw` | src/recorder/data_recorder.cpp:158-179 | draining the queue appends the frames of all its messages, or of a failed write a proper prefix of that; on a low disk or a closed file nothing is written, and all messages are counted either way |
| `Recorder.Session` | src/recorder/data_recorder.cpp:57-179 | a session extends what was there by the frames of its messages, or by a prefix of them when a write failed |
| `Recorder.SessionsMakeOneFile` | src/recorder/data_recorder.cpp:57-97 | any sequence of clean sessions produces one header and all frames |
| `Recorder.ReadRow` | tools/convert_to_parquet.py:137-146 | one round of the reader: a row, or the end at an incomplete frame |
| `Recorder.ConvertRaw` | tools/convert_to_parquet.py:123-156 | the reader's loop returns the rows of the frames |
| `Recorder.WholeFramesFit` | tools/convert_to_parquet.py:137-146 | the number of whole frames in a cut file is the largest that fits |
| `Recorder.CutFileReadsPrefix` | tools/convert_to_parquet.py:123-156 | for a file cut at any byte the reader returns exactly the records whose frames are whole, nothing if the header is cut |
| `Recorder.AppendAtBoundary` | src/recorder/data_recorder.cpp:76-97 | after a cut at a frame boundary, or of everything, the next session loses nothing |
| `Recorder.CutHeaderLosesIff` | src/recorder/data_recorder.cpp:76-97 | after a cut inside the file header the next session's records are read back if and only if the cut left nothing |
| `Recorder.OldRecordsStay` | src/recorder/data_recorder.cpp:76-97 | after a cut anywhere behind the header the whole old records are still read back first |
| `Recorder.CutFrameSwallows` | src/recorder/data_recorder.cpp:76-97 | a frame cut behind its header swallows a shorter one whole |
| `Recorder.ContinuesIff` | src/recorder/data_recorder.cpp:76-97 | for a cut at any byte: whatever comes next is read back behind the whole old records if and only if the cut left nothing or fell on a frame boundary behind the header |
| `Rotation.FireMatured` | src/rotation/rotation_coordinator.cpp:420-439 | the erase-while-iterating loop keeps the unripe redeems and fires the ripe ones, both in order |
| `Rotation.Reachable` | src/rotation/rotation_coordinator.cpp:126-251 | in every reachable state the phases have gone round 0,1,2,3, everything a rotation did was done while paused, and feeds were started for registered markets only |
| `Rotation.StepKeepsInv` | src/rotation/rotation_coordinator.cpp:126-251 | every step of either thread, any stop flag and any clock tick keep that |
| `Rotation.PhaseChangesAlternate` | src/rotation/rotation_coordinator.h:27-33 | a step changes the phase to the next one only, and the coordinator only from 0 and from 2 |
| `RotationPlans.RotationsFollow` | src/rotation/rotation_coordinator.cpp:126-439 | on every run the callbacks are, in order, those of the rotations begun: feeds stopped, the planned market registered, the current one swapped out, the feeds of the next and the planned market started, the window written; each rotation leaves the market the one before brought in and brings in the one known to follow, or one discovered; and the current market is the one the last swap brought in |
| `RotationPlans.CurrentIsFed` | src/rotation/rotation_coordinator.cpp:126-251 | except between a swap and the start of its feeds the current market is the first of the feeds started last, or the initial one, and so is the market each rotation leaves |
| `Rotation.LeftPausedIff` | src/rotation/rotation_coordinator.cpp:126-490 | a coordinator that has ended leaves the strategy paused for good, whatever follows, if and only if it gave up a pause on its way: at a stop before the feeds were stopped, at a stop or fatal error while draining, or at an unanswered last pause |
| `Rotation.LeftPaused` | src/rotation/rotation_coordinator.cpp:126-148 | from every start with a next market and no flag raised, a stop before the strategy answers the pause leaves it paused |
| `Rotation.RedeemsReachable` | src/rotation/rotation_coordinator.cpp:384-490 | one redeem per market rotated out, in order, none fired earlier than its delay after it was queued |
| `Rotation.FiresAtMostOnce` | src/rotation/rotation_coordinator.cpp:420-439 | each queued redeem is pending or fired, exactly once |

## Left out

- Machine integers: products of price and quantity, counters and timestamps are unbounded integers; `OrderAmounts`, `PriceText` and the encoders model the 32- and 64-bit ranges, the others do not model wrap-around.
- SendPlaceOrder and SendPlaceOrderBatch: whether an order can be built and signed, and the position at the moment of each check, are inputs; pre-registration of predicted order ids is not modelled.
- Promises: what is reserved of a token is stated for SELLs with different ids and positive sizes; two SELLs under one id would add up in the quantity and leave one entry, which the three counters that number orders rule out while they stay in their ranges (`src/scheduler/test_strategy.h:142`, `src/scheduler/strategy_scheduler.cpp:982`, `src/scheduler/strategy_scheduler.h:415`).
- OnOrderReply, OnBatchReply, OnCancelReply, OnBeatReply: bodies arrive parsed, since the JSON parsers are not part of this model; each request gets one reply, as a transport without loss gives; error texts, latencies and metrics are dropped.
- TryPush: the bounded queues are environments that may refuse any push; their capacity is not modelled.
- Shutdown of the gateway: requests in flight when the event loop stops are never answered.
- Hash functions, signatures and the network: inputs, or outside the model; only the bytes that are hashed or sent are.
- Rings and shadow books: values replaced whole instead of arrays written in place, so aliasing between two assets is excluded by construction.
- Rotation: one shared access or callback per step, with a sequentially consistent memory; discovery, sleeping and time-outs of discovery are choices of the environment.
- Rotation: whether there is at most one rotation per window is not claimed; the window is recomputed from a clock that is still inside the old one.
- ConvertRaw: payloads stay bytes, where the reader decodes them as text and replaces what is not valid; the table it writes is not modelled.
- Recorder: file rotation by size, flush timing and the fixed-size records of the price feed; after a failed write any part of the frame may be in the file.
- Iteration over ladders, total quantities, hex coding, address checksums, configuration, logging, metrics and the user interface: they keep no state from one event to the next, and nothing modelled here depends on them.
- The strategies: what they decide is an input of the gateway.
