# Livepeer Open Clearinghouse: a verified model

The clearinghouse (LOC) authorizes spending, brokers run paid jobs and sessions, and three SDKs (Go, Rust,
TypeScript) sit between an application and both. This project models the parts of that system that are hardest to
get right by reading, and proves what they keep.

**Raising a session's cap.** `RefillProtocol` is a state machine for the SDK's balance handlers, LOC and the broker
over a network that loses, delays and repeats requests. Either party may fail before it commits, or commit and
lose its reply. The three SDKs are one machine with their differences spelled out: Rust compares an approval with
the cap it read before asking, TypeScript takes up a stored refill without asking again, only TypeScript can lose
a caller proof. `RefillProofs` proves what every interleaving keeps (a stored refill has its cap) and what
serialized runs keep (the order of the three caps, one key and one top-up at a time). `GoSessionRunner` runs the Go
handler as an imperative object: from its construction on, event after event, it is where one serialized run of the
machine is, so the caps stay in order and each success raises the cap. `RustSessionRunner`
and `TypeScriptSessionRunner` show that each stretch of their code between two awaits is one step, whatever other
handlers are doing. `RefillOrder` takes LOC's two checks (a cap has to rise, and a revision is answered only once its
predecessors are admitted), proves that they make the broker's cap rise too, and that Go and Rust then keep the order
of the caps however many handlers overlap. `RefillInterleavings` says exactly what depends on taking turns.

**Closing a session.** `CloseProtocol` has any number of concurrent callers; `CloseOutcomes` says exactly how often
the broker session can be ended and when a close can still succeed; `GoSessionCloser` and `RustSessionCloser` are
the code.

**Telemetry.** `TelemetryStore` compares the bounded drop-oldest buffer with the whole history of accepted events.
`GoFlushLoop` and `RustFlushLoop` interleave emitters, closers and the flush loop, `TypeScriptFlushLoop` what happens
on its one thread. The three emitter classes carry the code.

**Settlements.** `Billing` has the ceiling bill and what sums of bills come to. `Settlement` follows the verifier
branch by branch; `SettlementAmounts` gives the amounts and codes laws of their own, `SettlementRefusals` every error
by its cause, and `SettlementProofs` and `SettlementRuns` prove what acceptance means for one settlement, for sets of
them and for a session from its first settlement to its last.

**Time stamps, amounts, ids, retries.** `Calendar` proves the closed-form date against a calendar walked day by day
(RFC 3339 section 5.7 and Appendix C); `Timestamps` proves that stamps sort like time (RFC 3339 section 5.1).
`WeiCodec` has the wei string that Python prints and three SDKs read, `PercentEncoding` RFC 3986 sections 2.1 and
2.3, `CorrelationId` RFC 4122 section 4.3. `Backoff` and `ExchangePolling` are the retry loops. `Decimals`,
`Results` and `Words` support them.

## Where the code does less than one might expect

Each point is a lemma with the exact condition, or with an input that shows it.

- Date parts are right exactly up to the last second whose year fits 32 bits; later the year wraps.
- Stamps sort like time exactly through the year 9999: a year of five digits sorts before 9999.
- The drop counter is right exactly when the buffer has room for at least one event.
- A whole amount reaches the wire exactly when it has no more digits than Python's interpreter agrees to print
  (4300 unless configured), and an infinity is let in and fails only when it is printed.
- A `Decimal` that is not whole is let in and printed with its fraction cut off. An amount arrives intact exactly
  when it is whole and within the digit limit.
- With two TypeScript handlers at work at once the handle can count on more than the broker granted: the second records
  the cap it was told, for a refill of less. TypeScript keeps the order of the caps exactly when handlers take turns,
  Go and Rust always, as long as LOC keeps to its two checks. Were LOC and the broker to act in any order, all three
  would depend on turns.
- In every SDK, when handlers overlap, one that lags clears another one's key, and the caps differ with no key pending.
  They agree in all runs exactly when handlers take turns.
- An accepted refill can find its caller proof gone in TypeScript only, and there exactly when handlers overlap.
- TypeScript's emitter drops two requests for a flush that come during another one: an urgent event, and the timer going
  off. Afterwards what is buffered may wait for the next emit, flush or close. All runs that drop at most k such requests
  are free of that exactly when k is 0.
- In TypeScript the broker session can be ended as often as callers find no settlement stored, whether they come at
  once or one after the other. In Go and Rust one caller at most gets that far; if it fails, no caller ever succeeds,
  and otherwise one still can.
- A delegation bound without a time zone stops verification with a TypeError, which is not a verification error,
  exactly when that bound has to be compared before any other delegation decides.

## Model

| member | source | states |
|---|---|---|
| RefillProofs.CapNeverLost | sdks/typescript/src/session_runner.ts:183-189 | in every interleaving of handlers, replies and failures, for each SDK, a stored refill has its cap, so "lost its cumulative cap" and Rust's `expect` are unreachable |
| RefillProofs.StepKeepsInv | sdks/go/livepeer_open_clearinghouse/session_runner.go:238-347 | every step of handler, LOC and broker keeps the caps, keys, answers, top-ups and log in agreement when no handler starts beside another |
| RefillProofs.CapsInOrder | sdks/go/livepeer_open_clearinghouse/session_runner.go:238-318 | in every serialized run handle cap <= broker cap <= LOC cap, all equal when no key is pending, and neither cap nor caller proof is ever found missing |
| RefillProofs.HandleNeverDrops | sdks/rust/src/session_runner.rs:595-648 | between any two points of a serialized run the handle's cap does not go down, also when an accepted top-up leaves its refill pending |
| RefillProofs.OneOutstandingRevision | sdks/go/livepeer_open_clearinghouse/session_runner.go:271-318 | revisions that LOC committed are as many as finished refills or one more, and equal when no key is pending |
| RefillProofs.OneRefillAtATime | sdks/go/livepeer_open_clearinghouse/session_runner.go:271-347 | between two finished refills all LOC requests carry one key and all top-ups one authorization and request id; successive refills leave strictly higher caps |
| RefillProofs.RefillsRaiseCap | sdks/go/livepeer_open_clearinghouse/session_runner.go:309-316 | from any point of a serialized run on, the cap that finished refills leave rises exactly when one finishes |
| RefillProofs.HandleIsAuthorized | sdks/go/livepeer_open_clearinghouse/session_runner.go:308-310 | in every serialized run of each SDK the handle holds its first authorization or one that LOC answered and the broker credited, for the handle's own cap; in Rust for that cap or more |
| RefillProofs.SerializedAppend | sdks/go/livepeer_open_clearinghouse/session_runner.go:222-236 | a serialized run can be taken up again where it ended |
| RefillProofs.InTurnMeans | sdks/go/livepeer_open_clearinghouse/session_runner.go:275-317 | in any log whose notes agree with what was open when each was made, one key and one top-up between finished refills, and rising caps |
| RefillOrder.LocOrdersBroker | src/livepeer_open_clearinghouse/domains/sessions/service.py:1124-1171 | when LOC commits only rising caps and answers only once the predecessors are admitted, every credit by the broker raises its cap, in every interleaving of every SDK |
| RefillOrder.CreditRises | src/livepeer_open_clearinghouse/domains/sessions/service.py:1142-1168 | a top-up that was answered and is not yet admitted is above all that were |
| RefillOrder.RisingKeepsOrder | sdks/go/livepeer_open_clearinghouse/session_runner.go:271-318 | with parties that only raise their caps, Go and Rust keep handle cap <= broker cap <= LOC cap in every interleaving of any number of handlers |
| RefillOrder.StepKeepsOrder | sdks/rust/src/session_runner.rs:528-648 | each step keeps every held refill with the cap it authorizes, and what was credited within the broker's cap |
| RefillInterleavings.HandleCanPassBroker | sdks/go/livepeer_open_clearinghouse/session_runner.go:275-317 | should LOC answer past a revision that is not admitted, and the broker admit that one late, two handlers at once in any SDK can end with the handle's cap above the broker's |
| RefillInterleavings.ProofCanBeLost | sdks/typescript/src/session_runner.ts:249-276 | with two TypeScript handlers at work at once an accepted refill can find its caller proof gone |
| RefillInterleavings.TwoCanHold | sdks/typescript/src/session_runner.ts:211-245 | two handlers can hold one refill, in TypeScript with whatever cap the second was told, in Go and Rust with the stored one |
| RefillInterleavings.TypeScriptPassesBroker | sdks/typescript/src/session_runner.ts:211-258 | with LOC and the broker in order, two TypeScript handlers can leave the handle's cap above the broker's |
| RefillInterleavings.CapsKeepIff | sdks/go/livepeer_open_clearinghouse/session_runner.go:271-318 | all runs with at most k handlers at work keep the caps in order exactly when k <= 1, or, when LOC and the broker are in order, in Go and Rust for every k |
| RefillInterleavings.KeyIsCleared | sdks/go/livepeer_open_clearinghouse/session_runner.go:312-316 | in each SDK, with LOC and the broker in order, a handler that lags can clear the key of a refill that another has under way |
| RefillInterleavings.CapsAgreeIffInTurn | sdks/go/livepeer_open_clearinghouse/session_runner.go:222-236 | in every SDK, all runs with at most k handlers at work have equal caps whenever no key is pending exactly when k <= 1 |
| RefillInterleavings.ProofKeptIff | sdks/typescript/src/session_runner.ts:249-257 | whatever LOC and the broker do, all runs with at most k handlers at work find the caller proof of every accepted refill exactly in Go and Rust or when k <= 1 |
| RefillInterleavings.AtMostOneIsSerialized | sdks/go/livepeer_open_clearinghouse/session_runner.go:222-236 | the serialized runs are those with one handler at a time |
| GoSessionRunner.SessionRunner.OnBalance | sdks/go/livepeer_open_clearinghouse/session_runner.go:238-269 | all events since construction make one serialized run of the protocol; after each the caps are in order, and equal when no key is pending; every callback with its reason; LOC is asked once, with the claimed units and the approved cap under the pending or a new key, exactly when the refill starts with none stored; success clears what was pending, strictly raises the cap to the stored refill's or the approved one and installs the authorization that was topped up; failure keeps them |
| GoSessionRunner.SessionRunner.Meanwhile | sdks/go/livepeer_open_clearinghouse/session_runner.go:281-300 | a request that LOC or the broker commits late, between two events, extends the same run and leaves the caps in order |
| GoSessionRunner.SessionRunner.Refill | sdks/go/livepeer_open_clearinghouse/session_runner.go:271-318 | the refill is a serialized run, counts once when it succeeds and changes no cap and no pending key or refill when it fails |
| GoSessionRunner.SessionRunner.ObtainRefill | sdks/go/livepeer_open_clearinghouse/session_runner.go:275-295 | the stored refill with its cap, or a new one; a pending key and a stored refill survive |
| GoSessionRunner.SessionRunner.TakeKey | sdks/go/livepeer_open_clearinghouse/session_runner.go:275-279 | a pending key is kept; otherwise a new one from the supply becomes pending |
| GoSessionRunner.SessionRunner.ReadReply | sdks/go/livepeer_open_clearinghouse/session_runner.go:287-294 | LOC's answer is taken up exactly when it was given for this key and this body |
| GoSessionRunner.SessionRunner.DeliverRefill | sdks/go/livepeer_open_clearinghouse/session_runner.go:296-317 | an accepted top-up moves the handle to the refill's cap and clears what is pending; otherwise both stay |
| GoSessionRunner.SessionRunner.Topup | sdks/go/livepeer_open_clearinghouse/session_runner.go:320-347 | only a usable refill is accepted; one not yet credited, signed and answered is, and moves the broker to its cap |
| GoSessionRunner.SessionRunner.ClearPending | sdks/go/livepeer_open_clearinghouse/session_runner.go:312-316 | is the protocol's finish: nothing stays pending and the refill is counted |
| GoSessionRunner.TraceIsRun | sdks/go/livepeer_open_clearinghouse/session_runner.go:222-236 | a trace of single steps is a serialized run with the same end |
| RustSessionRunner.Inner.ReadBalance | sdks/rust/src/session_runner.rs:449-503 | which wind-down or consultation a balance event leads to; a consultation is the protocol's start with the cap read now |
| RustSessionRunner.Inner.WeighAnswer | sdks/rust/src/session_runner.rs:504-524 | the application's answer is taken up exactly when it is above the cap read earlier |
| RustSessionRunner.Inner.BeginRefill | sdks/rust/src/session_runner.rs:528-560 | one lock and the request after it are one protocol step beside any other handlers, and a stored refill is taken up with its cap |
| RustSessionRunner.Inner.StoreRefill | sdks/rust/src/session_runner.rs:561-569 | LOC's answer is stored with the cap asked for, as the protocol's step |
| RustSessionRunner.Inner.PostTopup | sdks/rust/src/session_runner.rs:650-682 | only a usable refill with a proof is posted, as the protocol's step |
| RustSessionRunner.Inner.RecordTopup | sdks/rust/src/session_runner.rs:603-616 | without a second proof only the authorization moves, never the cap |
| RustSessionRunner.Inner.ClearPending | sdks/rust/src/session_runner.rs:644-648 | is the protocol's finish |
| TypeScriptSessionRunner.SessionRunner.OnBalance | sdks/typescript/src/session_runner.ts:166-205 | a stored refill is resumed with its cap without asking, otherwise the application is consulted; each is the protocol's start |
| TypeScriptSessionRunner.SessionRunner.WeighAnswer | sdks/typescript/src/session_runner.ts:197-209 | the application's answer is taken up exactly when it is above the handle's cap by then |
| TypeScriptSessionRunner.SessionRunner.BeginRefill | sdks/typescript/src/session_runner.ts:211-229 | a pending key is kept, and the stretch is one protocol step beside any other handlers |
| TypeScriptSessionRunner.SessionRunner.StoreReply | sdks/typescript/src/session_runner.ts:227-231 | an answer and an empty answer are both stored, as the protocol's steps |
| TypeScriptSessionRunner.SessionRunner.PostTopup | sdks/typescript/src/session_runner.ts:279-305 | only a usable refill with a proof is posted, and its proof replaces the kept one |
| TypeScriptSessionRunner.SessionRunner.UpdateHandle | sdks/typescript/src/session_runner.ts:249-257 | the handle moves exactly when a proof is still kept |
| TypeScriptSessionRunner.SessionRunner.ClearPending | sdks/typescript/src/session_runner.ts:273-276 | is the protocol's finish |
| CloseProtocol.SingleClose | sdks/go/livepeer_open_clearinghouse/session_runner.go:397-454 | over all interleavings at most one caller ends the session and finalizes, the channel is closed once, every success returns the stored settlement, and no one sees the close before it is stored |
| CloseProtocol.StepKeepsInv | sdks/rust/src/session_runner.rs:235-310 | every step of any caller keeps that |
| CloseProtocol.FailedCloseIsFinal | sdks/go/livepeer_open_clearinghouse/session_runner.go:404-418 | once the closing caller has failed, no caller ever succeeds in Go and Rust |
| CloseOutcomes.EndsAtMostPassed | sdks/typescript/src/session_runner.ts:324-333 | in every SDK and run the broker session is ended no more often than callers got past the guard |
| CloseOutcomes.EndsOnceIffGuarded | sdks/typescript/src/session_runner.ts:324-333 | all runs that let at most k callers past the guard end the session at most m times exactly when k <= m in TypeScript; in Go and Rust one end is all there ever is |
| CloseOutcomes.CanSucceedUnlessGaveOut | sdks/go/livepeer_open_clearinghouse/session_runner.go:397-454 | in every run of every SDK some caller has succeeded or still can, exactly unless a close was begun and the caller that began it has failed |
| CloseOutcomes.StoredWasAnswered | sdks/go/livepeer_open_clearinghouse/session_runner.go:423-454 | what is stored is what LOC answered, after the broker ended the session, in every run of every SDK |
| CloseOutcomes.WaitClosedReturns | sdks/go/livepeer_open_clearinghouse/session_runner.go:478-485 | a caller of WaitClosed returns with success exactly from when a settlement is stored |
| CloseProtocol.EmptyAnswer | sdks/rust/src/session_runner.rs:709-725 | an empty answer closes the session in Go and Rust and not in TypeScript |
| GoSessionCloser.SessionCloser.Enter | sdks/go/livepeer_open_clearinghouse/session_runner.go:397-416 | where a caller goes from the guard, as a step of the protocol |
| GoSessionCloser.SessionCloser.Close | sdks/go/livepeer_open_clearinghouse/session_runner.go:397-454 | what an uninterrupted call returns in each state, and that it keeps the protocol's invariant |
| GoSessionCloser.SessionCloser.StoreAnswer | sdks/go/livepeer_open_clearinghouse/session_runner.go:449-453 | storing is the protocol's step |
| RustSessionCloser.Inner.Enter | sdks/rust/src/session_runner.rs:236-265 | where a caller goes from the guard, as a step of the protocol |
| RustSessionCloser.Inner.StoreOutcome | sdks/rust/src/session_runner.rs:306-308 | storing is the protocol's step |
| RustSessionCloser.WaitForOutcome | sdks/rust/src/session_runner.rs:241-252 | a waiter returns the first outcome within 50 looks and fails exactly when there is none |
| RustSessionCloser.Inner.Poll | sdks/rust/src/session_runner.rs:245-248 | one look by a waiter succeeds exactly when an outcome is stored, and is a step of the protocol |
| TelemetryStore.RunConsistent | sdks/go/livepeer_open_clearinghouse/telemetry.go:201-242 | in every run the buffer and each batch are the newest events of their epoch, batches then buffer are the accepted events in order less exactly the dropped ones, and nothing comes in after closing |
| TelemetryStore.ApplyConsistent | sdks/typescript/src/telemetry.ts:127-213 | each emit, hand-off and close keeps that |
| TelemetryStore.ConsistentIffRoom | sdks/rust/src/telemetry.rs:159-171 | it holds of every run exactly when the buffer has room for one event |
| TelemetryStore.CriticalTypes | sdks/go/livepeer_open_clearinghouse/telemetry.go:39-50 | the types that do not wait, by name and by their last six characters |
| TelemetryStore.NewestAreSubsequence | sdks/go/livepeer_open_clearinghouse/telemetry.go:225-229 | the newest events of every epoch, joined, are the accepted events in order with some left out |
| GoFlushLoop.EveryInterleaving | sdks/go/livepeer_open_clearinghouse/telemetry.go:201-297 | in every interleaving no wake-up is lost, the store is consistent and no send or close meets a closed channel |
| GoFlushLoop.CloseDrains | sdks/go/livepeer_open_clearinghouse/telemetry.go:259-297 | when the loop has returned, exactly what was buffered at closing has been handed off since |
| GoFlushLoop.StaysDrained | sdks/go/livepeer_open_clearinghouse/telemetry.go:201-206 | and nothing changes the store after that |
| GoFlushLoop.CloseIsNoticed | sdks/go/livepeer_open_clearinghouse/telemetry.go:259-297 | until the loop has returned a closed emitter is never stuck |
| GoFlushLoop.ClosedCanReturn | sdks/go/livepeer_open_clearinghouse/telemetry.go:281-297 | from every reachable state of a closed emitter the loop can still return |
| RustFlushLoop.EveryInterleaving | sdks/rust/src/telemetry.rs:148-231 | in every interleaving no wake-up is lost, for a flush or for the close, and the store is consistent |
| RustFlushLoop.CloseDrains | sdks/rust/src/telemetry.rs:180-221 | when the loop has returned, exactly what was buffered at closing has been handed off since |
| RustFlushLoop.StaysDrained | sdks/rust/src/telemetry.rs:159-162 | and nothing changes the store after that |
| RustFlushLoop.CloseIsNoticed | sdks/rust/src/telemetry.rs:180-221 | until the loop has returned a closed emitter is never stuck |
| RustFlushLoop.ClosedCanReturn | sdks/rust/src/telemetry.rs:206-221 | from every reachable state of a closed emitter the loop can still return |
| TypeScriptFlushLoop.EveryRunConsistent | sdks/typescript/src/telemetry.ts:127-213 | every run of emits, timers, flushes and closes keeps the buffer consistent with its history |
| TypeScriptFlushLoop.TimerRunsUnlessIgnored | sdks/typescript/src/telemetry.ts:182-207 | while no request for a flush is dropped, a timer runs for whatever is buffered |
| TypeScriptFlushLoop.NeverStrandedIff | sdks/typescript/src/telemetry.ts:147-207 | all runs that drop at most k requests never leave an event without timer, flush or close exactly when k is 0 |
| TypeScriptFlushLoop.UrgentCanStrand | sdks/typescript/src/telemetry.ts:147-151 | an urgent event during a flush can be left so |
| TypeScriptFlushLoop.TimerCanStrand | sdks/typescript/src/telemetry.ts:186-199 | so can an ordinary one whose timer goes off during a flush |
| TypeScriptFlushLoop.StrandedStays | sdks/typescript/src/telemetry.ts:165-207 | such an event stays until the application emits, flushes or closes |
| GoTelemetryEmitter.TelemetryEmitter.Emit | sdks/go/livepeer_open_clearinghouse/telemetry.go:201-242 | the signal goes up exactly for session.refill_denied, session.closed, types ending in .error and a full batch; the event goes in last and the oldest out when there is no room; a step of the interleaving model |
| GoTelemetryEmitter.TelemetryEmitter.Close | sdks/go/livepeer_open_clearinghouse/telemetry.go:259-273 | the first caller's three steps in order; every other caller changes nothing |
| GoTelemetryEmitter.TelemetryEmitter.Receive | sdks/go/livepeer_open_clearinghouse/telemetry.go:285-292 | a signal that is up is taken before a closed channel is found |
| GoTelemetryEmitter.TelemetryEmitter.FlushOnce | sdks/go/livepeer_open_clearinghouse/telemetry.go:299-351 | the whole buffer is taken, sent or not, with attempts bounded by the retry rule |
| RustTelemetryEmitter.TelemetryEmitter.Push | sdks/rust/src/telemetry.rs:148-177 | a wake-up is to follow exactly for those types and a full batch; the event goes in last and the oldest out when there is no room; a step of the interleaving model |
| RustTelemetryEmitter.TelemetryEmitter.NotifyOne | sdks/rust/src/telemetry.rs:174-188 | stores the one wake-up, after a push and in closing |
| RustTelemetryEmitter.TelemetryEmitter.BeginClose | sdks/rust/src/telemetry.rs:180-187 | only the first caller goes on to notify |
| RustTelemetryEmitter.TelemetryEmitter.Wake | sdks/rust/src/telemetry.rs:209-213 | the select of the flush loop takes the stored wake-up or the timer |
| RustTelemetryEmitter.TelemetryEmitter.TakeBatch | sdks/rust/src/telemetry.rs:223-230 | is the drain of the loop and of its last pass |
| RustTelemetryEmitter.TelemetryEmitter.SeesClosed | sdks/rust/src/telemetry.rs:215-219 | after a flush the loop goes on to its last pass exactly when the emitter is closed |
| RustTelemetryEmitter.TelemetryEmitter.FlushOnce | sdks/rust/src/telemetry.rs:223-277 | the whole buffer is taken, sent or not, with attempts bounded by the retry rule |
| TypeScriptTelemetryEmitter.TelemetryEmitter.Emit | sdks/typescript/src/telemetry.ts:127-155 | those types and a full batch leave a flush under way, which takes everything unless one was, and any other event a timer; a step of the loop |
| TypeScriptTelemetryEmitter.TelemetryEmitter.Flush | sdks/typescript/src/telemetry.ts:196-213 | hands off everything, or nothing during another flush |
| TypeScriptTelemetryEmitter.TelemetryEmitter.FlushSettled | sdks/typescript/src/telemetry.ts:202-206 | the end of sending, however it went, lets the next flush begin |
| TypeScriptTelemetryEmitter.TelemetryEmitter.TimerFired | sdks/typescript/src/telemetry.ts:186-189 | the timer is unset and everything handed off unless a flush is under way; a step of the loop |
| TypeScriptTelemetryEmitter.TelemetryEmitter.FinishClose | sdks/typescript/src/telemetry.ts:165-180 | after close exactly what was buffered when it began has been handed off since |
| Backoff.SendWithRetry | sdks/go/livepeer_open_clearinghouse/telemetry.go:329-351 | stops at the first final status or the last attempt, delivers exactly when an attempt in range is final, and doubles its pauses |
| Backoff.DoWithRetry | sdks/go/livepeer_open_clearinghouse/client.go:1034-1069 | succeeds exactly when a call in range does with only transient failures and whole pauses before it |
| Backoff.RequestWithRetry | sdks/rust/src/client.rs:1052-1082 | the same without cancelling; TypeScript makes no call when fewer than one is allowed |
| Backoff.PausesSum | sdks/go/livepeer_open_clearinghouse/telemetry.go:340-347 | n doubling pauses come to base * (2^n - 1) |
| Backoff.PauseAt | sdks/go/livepeer_open_clearinghouse/client.go:1046-1066 | the first pause is the base and each other twice the one before |
| Backoff.EndingReplies | sdks/go/livepeer_open_clearinghouse/telemetry.go:337-343 | which statuses end the sending: all but 429 and those from 500 up |
| Backoff.TransientCalls | sdks/go/livepeer_open_clearinghouse/client.go:1041-1056 | which calls are worth another, and how many are allowed |
| ExchangePolling.LookupExchange | sdks/go/livepeer_open_clearinghouse/client.go:861-921 | at most 8 requests and 6350 ms of waiting; found exactly when the first reply that is not pending, within 8, settles this request; every refusal by its cause |
| ExchangePolling.ReplyMeaning | sdks/go/livepeer_open_clearinghouse/client.go:889-918 | which reports are pending or settle the request, and the refusal of every other reply |
| Billing.BillIsLeast | src/livepeer_open_clearinghouse/providers/settlement_verification.py:647-650 | the bill is the least amount that pays for the units |
| Billing.ChargeSplits | src/livepeer_open_clearinghouse/providers/settlement_verification.py:647-650 | two lots billed apart cost the joint bill or one wei more |
| Billing.RoundingBound | src/livepeer_open_clearinghouse/providers/settlement_verification.py:203-211 | n lots billed apart cost at least the joint bill and at most n - 1 wei more |
| Billing.RoundingBoundIsTight | src/livepeer_open_clearinghouse/providers/settlement_verification.py:647-650 | that bound is reached for every n |
| Billing.StepsTelescope | src/livepeer_open_clearinghouse/providers/settlement_verification.py:212-220 | curve steps that tile the first n units, listed in any order, sum to bill(n) |
| Billing.StepAtMostCharge | src/livepeer_open_clearinghouse/providers/settlement_verification.py:212-220 | a step along the curve costs no more than its units on their own |
| Settlement.ScanDelegations | src/livepeer_open_clearinghouse/providers/settlement_verification.py:603-624 | the loop over delegations is the recursive rule the lemmas are about |
| SettlementProofs.FirstVerdictDecides | src/livepeer_open_clearinghouse/providers/settlement_verification.py:603-624 | each of the four outcomes exactly by the first delegation that is not of another key and does not shut the time out: accepted if it covers the time, invalid if a bound is unreadable, a TypeError if a bound to compare has no zone; unauthorized if there is none |
| SettlementProofs.TypeErrorIffNaiveWindow | src/livepeer_open_clearinghouse/providers/settlement_verification.py:603-624 | the scan ends in a TypeError exactly when the first delegation not passed over has a bound without a time zone that has to be compared |
| SettlementProofs.EnvelopeAcceptedIff | src/livepeer_open_clearinghouse/providers/settlement_verification.py:536-553 | an envelope is accepted exactly when its scheme, signer, time, record and delegation are as required |
| SettlementAmounts.BigEndianLaw | src/livepeer_open_clearinghouse/providers/settlement_verification.py:177 | a byte string reads as its first byte times 256 to the number of the others, plus what they read; below 256 to its length; nothing reads as 0 |
| SettlementAmounts.BigEndianIsPlaceSum | src/livepeer_open_clearinghouse/providers/settlement_verification.py:517-519 | that is the sum of each byte times 256 to its place; every signed amount is stated so |
| SettlementAmounts.SafeCodeIsCode | src/livepeer_open_clearinghouse/providers/settlement_verification.py:21 | a safe code is a lower-case letter and up to 63 lower-case letters, digits and underscores |
| SettlementRefusals.EnvelopeRefusedByFirst | src/livepeer_open_clearinghouse/providers/settlement_verification.py:536-553 | an envelope is refused with the error of its first fault, the signature's before the record's |
| SettlementRefusals.JobRefusedByFirst | src/livepeer_open_clearinghouse/providers/settlement_verification.py:129-200 | a job record is refused with the error of the first requirement it fails and accepted if it meets all, and then reported as signed |
| SettlementRefusals.SessionRefusedByFirst | src/livepeer_open_clearinghouse/providers/settlement_verification.py:307-381 | a session record is refused with the error of the first requirement it fails and accepted if it meets all |
| SettlementRefusals.SessionReportsRest | src/livepeer_open_clearinghouse/providers/settlement_verification.py:331-381 | an accepted session reports its identity, outcome and diagnostics as signed |
| SettlementProofs.JobCeiling | src/livepeer_open_clearinghouse/providers/settlement_verification.py:157-192 | an accepted job, however it is paid for, bills between 0 and bill(max_total_units) |
| SettlementProofs.TicketJobsTelescope | src/livepeer_open_clearinghouse/providers/settlement_verification.py:203-220 | accepted ticket jobs whose units tile the first n are billed bill(n) in all, in any order |
| SettlementProofs.AuthorizedJobsRound | src/livepeer_open_clearinghouse/providers/settlement_verification.py:203-211 | n accepted authorization jobs are billed at least the joint bill and at most n - 1 wei more |
| SettlementProofs.NeverPastAuthorization | src/livepeer_open_clearinghouse/providers/settlement_verification.py:494-533 | over any accepted authorization-backed jobs and sessions, billed plus released never passes what was authorized |
| SettlementRuns.NoReplay | src/livepeer_open_clearinghouse/providers/settlement_verification.py:440-443 | accepted sequence numbers of a session strictly increase and no envelope is accepted twice |
| SettlementRuns.BrokerSessionPinned | src/livepeer_open_clearinghouse/providers/settlement_verification.py:402-410 | once on file, the broker session id is that of every later accepted settlement |
| SettlementRuns.BindingNeverGoesBack | migrations/versions/0019_session_settlement_binding.py:18-24 | the two persisted columns never go back |
| SettlementRuns.BindingIsLastAccepted | migrations/versions/0019_session_settlement_binding.py:18-24 | on file is exactly what the last accepted settlement said, or what was there before any |
| Calendar.ClosedFormIsWalk | sdks/rust/src/telemetry.rs:302-313 | the closed form is the date reached by walking the Gregorian calendar day by day |
| Calendar.ClosedFormInvertsDayCount | sdks/rust/src/telemetry.rs:302-313 | the closed form and the calendar's own day count undo each other |
| Calendar.ComponentsRightIffYearFits | sdks/rust/src/telemetry.rs:295-316 | date and time of day are right and in range for exactly the second counts whose year fits 32 bits |
| Calendar.ClosedFormSteps | sdks/rust/src/telemetry.rs:302-313 | on every day, before the epoch too, the closed form moves on as the calendar does |
| Calendar.ComponentsEverywhere | sdks/rust/src/telemetry.rs:295-316 | for every 64-bit second count the time of day, month and day are exact and the year is cut to 32 bits |
| Calendar.YearOfEraIsRight | sdks/rust/src/telemetry.rs:306 | the year-of-era quotient picks the March-based year that holds the day |
| Timestamps.StampsSortLikeTime | sdks/rust/src/telemetry.rs:279-293 | through the year 9999 stamps compare as instants do, and no two instants share one |
| Timestamps.StampSays | sdks/rust/src/telemetry.rs:279-293 | the stamp spells the calendar date, the time of day and the nanoseconds of its instant, place by place |
| Timestamps.StampSaysFixed | sdks/rust/src/telemetry.rs:292 | through the year 9999 it has 30 characters, with each field and mark in its place |
| Timestamps.SortsExactlyThrough9999 | sdks/rust/src/telemetry.rs:292 | stamps below a limit sort like time exactly when the limit is not past the year 9999 |
| Timestamps.PrintSorts | sdks/rust/src/telemetry.rs:292 | rows of zero-padded numbers compare as the strings they print to |
| Decimals.FixedWidthSorts | sdks/rust/src/telemetry.rs:292 | numbers of one width compare as their digits do |
| Decimals.ValueByPlace | sdks/rust/src/telemetry.rs:292 | each digit stands for its number and counts by its place |
| Decimals.PaddedValue | sdks/rust/src/telemetry.rs:292 | padding keeps the value and adds zeros only up to the width |
| WeiCodec.WireRoundTrip | src/livepeer_open_clearinghouse/providers/wire.py:21-25 | a whole amount prints exactly when it is within the digit limit; Go and TypeScript read back that number, Rust exactly when it fits 128 bits |
| WeiCodec.WireIsCanonical | src/livepeer_open_clearinghouse/providers/wire.py:21-25 | two spellings print alike exactly when they are one number |
| WeiCodec.WireHasNoNoise | src/livepeer_open_clearinghouse/providers/wire.py:21-25 | no plus sign, no leading zero, no minus before zero |
| WeiCodec.SpellingsOfOneNumber | src/livepeer_open_clearinghouse/providers/wire.py:21-25 | a number spelled with a positive, zero or negative exponent is one number |
| WeiCodec.InboundTextReachesWire | src/livepeer_open_clearinghouse/providers/wire.py:28-48 | a text reaches the wire exactly when it spells a whole number within the limit; an infinity is let in and fails there |
| WeiCodec.ArrivesIntactIff | src/livepeer_open_clearinghouse/providers/wire.py:21-48 | whatever is offered, the wire string stands for exactly that amount exactly when it is whole and within the digit limit; otherwise it is refused, except a fractional Decimal |
| WeiCodec.FractionIsCut | src/livepeer_open_clearinghouse/providers/wire.py:25-32 | a tenth offered as a Decimal is printed as 0 |
| WeiCodec.RefusedAmounts | src/livepeer_open_clearinghouse/providers/wire.py:28-48 | every refusal on the way in and out by its cause |
| WeiCodec.WholeMeansExact | src/livepeer_open_clearinghouse/providers/wire.py:39 | a decimal has an integer value exactly when it is whole, and cutting gives that value |
| WeiCodec.ReadersAgree | sdks/typescript/src/client.ts:56-80 | on any text TypeScript reads what Go does less a plus sign, Rust what TypeScript does less a minus and a size, always as the same number |
| WeiCodec.CheckedMeansFits | sdks/rust/src/wei.rs:126-131 | reading digit by digit with an overflow check succeeds exactly below 2^128, with the number |
| WeiCodec.LargestU128 | sdks/rust/src/wei.rs:126-131 | 2^128 - 1 is read and 2^128 is not |
| WeiCodec.ParseWeiDigits | sdks/go/livepeer_open_clearinghouse/wei.go:45-63 | the scan accepts exactly an optional sign and digits |
| WeiCodec.SpellingsRead | sdks/go/livepeer_open_clearinghouse/wei.go:45-63 | signs, leading zeros and other characters in each reader, by example |
| WeiCodec.UnmarshalLaw | sdks/go/livepeer_open_clearinghouse/wei.go:111-132 | nothing and null are a missing amount; a text in quotes is read within them, another as it stands, white space aside; the rest is refused |
| WeiCodec.TrimLaw | sdks/go/livepeer_open_clearinghouse/wei.go:112-124 | trimming takes all white space off both ends and nothing else |
| WeiCodec.SpaceCharacters | sdks/go/livepeer_open_clearinghouse/wei.go:112 | the 25 white-space characters |
| WeiCodec.MarshalledForm | sdks/go/livepeer_open_clearinghouse/wei.go:101-106 | null, or the amount in quotes as the other SDKs read it |
| WeiCodec.MarshalRoundTrip | sdks/go/livepeer_open_clearinghouse/wei.go:101-132 | marshal then unmarshal is the identity, a missing amount included |
| WeiCodec.GoReadsTheWire | sdks/go/livepeer_open_clearinghouse/wei.go:111-132 | the quoted string that Python prints unmarshals to the same number |
| WeiCodec.Wei.UnmarshalJSON | sdks/go/livepeer_open_clearinghouse/wei.go:111-132 | the receiver takes what was read, and keeps what it had on an error |
| PercentEncoding.UrlEncode | sdks/rust/src/client.rs:1140-1156 | the loop is the byte-by-byte encoding |
| PercentEncoding.DecodeEncode | sdks/rust/src/client.rs:1140-1156 | decoding gives back every byte string |
| PercentEncoding.EncodeInjective | sdks/rust/src/client.rs:1140-1156 | different byte strings encode differently |
| PercentEncoding.EncodedIsWellFormed | sdks/rust/src/client.rs:1147-1152 | only unreserved characters and percent triplets with upper-case digits come out |
| PercentEncoding.UnreservedSet | sdks/rust/src/client.rs:1147 | the unreserved characters of RFC 3986 and no other byte |
| PercentEncoding.EncodedByte | sdks/rust/src/client.rs:1147-1152 | an unreserved byte stands for itself, any other is a percent sign with its high and its low digit |
| CorrelationId.IsUuidString | sdks/go/livepeer_open_clearinghouse/telemetry.go:155-174 | the scan accepts exactly 8-4-4-4-12 hexadecimal digits |
| CorrelationId.DerivedIsVersion5 | sdks/go/livepeer_open_clearinghouse/telemetry.go:176-187 | a derived id is lower-case and well formed, of version 5 and the RFC 4122 variant, for any hash |
| CorrelationId.DerivedFromHash | sdks/go/livepeer_open_clearinghouse/telemetry.go:176-187 | a derived id's bytes are those of the hash of namespace and value but for the version and variant bits |
| CorrelationId.HexReadsBack | sdks/go/livepeer_open_clearinghouse/telemetry.go:185 | the digits of a byte string read back as it |
| CorrelationId.HexCharacters | sdks/go/livepeer_open_clearinghouse/telemetry.go:167 | hexadecimal digits of either case and no other character |
| CorrelationId.LowerLetters | sdks/go/livepeer_open_clearinghouse/telemetry.go:150 | lower-casing changes the 26 capital letters and nothing else |
| CorrelationId.Utf8Law | sdks/typescript/src/telemetry.ts:51 | a text's bytes are its UTF-8 (RFC 3629): length, lead byte, order of bits |
| CorrelationId.GoGivesUuid | sdks/go/livepeer_open_clearinghouse/telemetry.go:148-153 | every value maps to a lower-case UUID: itself up to case, or a version 5 one |
| CorrelationId.GoIsIdempotent | sdks/go/livepeer_open_clearinghouse/telemetry.go:148-153 | mapping an id again leaves it alone |
| CorrelationId.GroupsMeanUuid | sdks/typescript/src/telemetry.ts:37 | the pattern's five groups accept exactly what the scan does |
| CorrelationId.GoAgreesWithTypeScript | sdks/typescript/src/telemetry.ts:46-58 | Go and TypeScript give one id for one text, for any hash |

## Left out

- HTTP, WebSocket, gzip, JSON, protobuf, canonical JSON, key recovery and hashing are libraries: they are arbitrary functions, or the parsed value is where the model starts.
- Gateway services for jobs, sessions, payments and billing are not part of this model. LOC is the contract of `src/livepeer_open_clearinghouse/errors.py:164-170`: a key with the same body gets the same answer again, with another body none. That its answers have distinct request ids and carry the cap asked for, and that the broker credits a request id once, is assumed of LOC and the broker. The two checks in `src/livepeer_open_clearinghouse/domains/sessions/service.py:1124-1189` and `1564-1567` are the condition `LocInTurn` of RefillOrder; a predecessor's admission stands for that of all below it.
- New UUIDs used as idempotency keys are a counter: that two are never equal is assumed.
- Progress is not claimed for refills: a retried request carries a new observed unit count, so after a lost reply LOC may refuse every retry.
- Elapsed time: timers are steps that may happen at any time, and only the lengths of backoff pauses are kept. The five seconds that Rust's `close` waits for the flush loop, and the deadline that Go's callers set, are not modelled.
- The text grammar of `Decimal` and the whitespace that Python strips: the model starts from the sign, coefficient and exponent.
- What the validation library does with a field after `_to_wei_decimal`, such as refusing an infinity of its own accord, is not part of this model.
- Numbers in JSON: TypeScript's and Rust's readers are modelled on strings, the form the gateway prints. Go's reader takes bare digits too, as modelled.
- Rust's final outcome is one value; the defaults that `parse_outcome` reads from absent fields are `DEFAULT_OUTCOME`.
- Units and caps are unbounded integers where the SDKs use 64 bits or a double; they are only compared and copied.
- Go's `pendingMaxTotalUnits` is 0 when nothing is pending; a ghost flag beside it says so. The `CallerProof` and the reply fields passed to callbacks are not kept.
- `GoSessionRunner` handles one event at a time, as `listen` does; calls of Go's `OnBalance` from several goroutines are covered by CapNeverLost, CapsKeepIff, CapsAgreeIffInTurn and ProofKeptIff, on the state machine, without data races on the handle's fields. Within one event LOC and the broker commit at most what that event asks, between events whatever is still on its way.
- Agreement of Rust's correlation id with the others depends on which forms its UUID library reads.
- TypeScript's text is a sequence of Unicode scalar values: a lone surrogate, which has no UTF-8, is left out.
- `verify_non_admission`, the migration audit, broker settlement tables, settings, error mapping, web components and mock servers would add only single-branch facts.
