# Verified model of the chain SDK's RPC client, node selection and block counter

This Dafny project models the concurrent core of the repository and proves what callers rely on:

* the JSON-RPC client of `chains/custom`: its dispatch loop, the pending-request table of the handler, the
  write lock, reconnection, timeouts and close, as a machine in which any number of callers, the readers of
  all connections, the peer and the loop interleave arbitrarily;
* subscriptions on both sides, from the server's `Notify` to the subscriber's channel;
* batch calls on the client and batch answers on the server, argument lists, ids and quantities;
* node selection in `chains/chain.go` and the block counter in `tools/counter.go`.

`dafny verify dfyconfig.toml` checks everything.

## How it is built

Code that changes things in place is modelled by classes and loops (`Handlers`, `Clients`,
`ClientSubscriptions`, `Notifiers`, `Forwarders`, `BatchCalls`, `ChainSdk`, `BlockCounters`, `JsonRpc`,
`Arguments`). Where several goroutines meet, what a method does is also a function on values
(those of `RequestTable` and `Dispatch`; `Register`, `Drop` and `TellAll` of `ServerSubscriptions`; `Turn` of
`Forwarders`; `Quitted` of `ClientSubscriptions`), which the method is proved to compute. The step machines use
the same functions, or lemmas relate the two (`ClientSubscriptions.ShutdownIsSequential`,
`SubscriptionPipeline.ActivationIsARun`, `Handlers.CreatedAgrees`).

* `Channels`: a channel is data. A second close, a send after the close and a send without room are recorded
  as faults instead of being forbidden, so that their absence has to be proved.
* `RequestTable`, `Dispatch` -> `Handlers`, `Clients` (the same operations on objects) and
  `RequestSafety`, `Connections`, `ClientProtocol` (the invariant and its preservation by every step).
* `ClientGuarantees` (what the invariant means), `RequestFate`, `RequestLoss` and `RequestAnswers` (which callers
  can never be served or answered, and that the others can), `RequestRetirement` (no request is remembered too
  long), `RequestHistory` (what reaches a caller, and what ends its request, told from the steps alone) and
  `CallerProgress` (every call can still return).
* The peer of the client machine may send any responses at any time. These results hold in every run that is
  *calm*: no new connection arrives after an answer, or a cancellation, has reached the request in flight.
  `Disturbances` shows what happens otherwise, and that the condition is exact; `SolicitedPeers` shows that a peer
  that answers only what it has been asked makes every run calm. `Runs` has lemmas for building runs.
* `ClientSubscriptions`, `ServerSubscriptions`: the two ends' life cycles. `SubscriptionPipeline`: the way
  between them.

## Assumptions

- The peer of the client machine sends no JSON null where a message should be; that is fatal (see below).
  Otherwise it may send anything, unasked, again and late. That a run is calm is a hypothesis of each result that
  needs it (`ClientProtocol.CalmRun`).
- Writes on a connection that is closed meanwhile, or was closed before they began, may succeed or fail. Where
  only failure is considered, the statement says so (`RequestLoss.ClosedWritesFail`).
- The reader of a closed connection ends with an error.
- Fewer than 2^32 ids are drawn. `Ids.NextIdCollides` says exactly when two ids coincide.
- `sync.Once.Do` makes a second caller wait until the first has finished.
- Subscription ids, which are random, are different from each other. A failed write leaves nothing on the wire.
- Closing a handler is one step of the dispatch loop, although it waits for the calls being served
  (`callWG`) and for `quitOnce`. `ClientSubscriptions` and `ServerSubscriptions` look inside these waits.
- `BlockCounter.Tick` and `ChainSDK.Select` are called one after the other: the first gives up its mutex
  before it writes (`tools/counter.go:84-85`), the second writes `cursor` under a read lock
  (`chains/chain.go:150`).
- Decoding a JSON value, encoding a result and running a callback are parameters (functions, or the outcome).

## Where the code is not what its comments say, or not what one would expect

- `chains/custom/client.go:302` and `:336` promise a waiting caller that dispatch "will close the channel when
  it quits". The promise is kept if and only if neither of two things has happened to that caller
  (`RequestLoss.QuitClosesExactlyIf`): the loop has heard of a read error while the request was in flight and
  its write had begun (line 597 spares `lastOp`, lines 626-634 then let go of it), or the write has begun on a
  connection that the loop had closed, and succeeded. The same two things are all that keeps a waiting caller
  from ever being served (`RequestLoss.CanBeServedExactlyIf`). Both have a run (`LostCall`, `OfflineCall`). If
  writes on closed connections fail, as they do on a network connection after `json.go:223`, only the first
  remains (`RequestLoss.OnlyTheInterruptedAreLost`).
- A JSON null where a message should be is decoded to a nil pointer (`chains/custom/json.go:239`, `:247`), which
  `handleImmediate` dereferences on the goroutine of dispatch (`handler.go:230`). `null` and batches with a null
  element, and no others, lead to that (`JsonRpc.OnRead`), although section 6 of JSON-RPC 2.0 asks for an Invalid
  Request answer (`JsonRpc.NullCrashes`).
- Line 617 of `chains/custom/client.go` registers the request in flight a second time. If an answer or a
  cancellation has reached that request before, then, and only then, its channel can be misused afterwards, even
  in a run that goes on calmly (`Disturbances.FaultsExactlyIfTouched`): a further answer, or the end of the loop,
  closes the channel again or finds it full, which ends the process or blocks the loop. It takes a peer that
  answers an id before the request is written: `Disturbances.FaultyRun` is a subscription request whose `resp` is
  closed by `handler.go:273` and again at the end.
- A service whose name contains an underscore cannot be called: the method name is split at the first one
  (`Arguments.CallableExactlyIf`).
- The health flags are computed with a uint64 subtraction that wraps when `maxGap` exceeds the best height.
  Then no node is flagged (`ChainSdk.FlagsMeaning`) and `Select` stays where it is (`ChainSdk.Freshness`).
- `BlockTime` divides uint64 differences. Each is exact if and only if the newest sample of the window is not
  below the oldest (`BlockCounters.BlockTimeSpans`). The divisor is 0 if and only if their heights are equal,
  which can happen with three samples (`HeightRegained`); with two it can wrap (`HeightLost`).
- `ToBlockNumArg(-1)` is "pending", but the constant for the pending block is -2: decoding does not give back
  -1 (`Quantity.BlockNumArgRoundTrip` says what comes back for every argument).
- The `IsNil` test in `parseArgumentArray` (`chains/custom/json.go:305`) looks at a freshly allocated pointer
  and never holds, so a null for a type that is not a pointer is what decoding makes of it.

## Model

| member | source | states |
|---|---|---|
| Ids.DecimalRoundTrip | chains/custom/client.go:243-246 | the decimal text of an id denotes its number, and so determines it, for every number |
| Ids.NextIdCounts | chains/custom/client.go:243-246 | the ids are the decimal texts of 1, 2, 3 and so on, without superfluous zeros, until the uint32 wraps |
| Ids.NextIdCollides | chains/custom/client.go:244 | two draws of `nextID` give the same id if and only if they are a multiple of 2^32 apart |
| Ids.NextIdIsNew | chains/custom/client.go:245 | below 2^32 draws every id is new |
| Handlers.Handler.AddRequestOp | chains/custom/handler.go:155-159 | afterwards every id of the request leads to it, and nothing else has changed |
| Handlers.Handler.RemoveRequestOp | chains/custom/handler.go:162-166 | exactly the ids of the request are gone |
| Handlers.Handler.CancelPending | chains/custom/handler.go:170-184 | the loop over the table empties it and closes every pending request with the error once, however many ids it stands under, except the one in flight |
| Handlers.Handler.EndClientSubs | chains/custom/handler.go:185-188 | every client subscription has quit with the error, and none is left |
| Handlers.Handler.CancelAllRequests | chains/custom/handler.go:169-189 | both of the above |
| Handlers.Handler.HandleResponse | chains/custom/handler.go:258-282 | the response, as it is, goes to the request that waits for its id, which is then no longer waited for; a subscription request is unblocked with the server's error or that of reading the id; without one, and only then, one forwarder is started for the subscription, which stands under the id the server gave; other requests and subscriptions stay as they are, and so does everything after a response that nobody waits for |
| Handlers.Handler.HandleResponses | chains/custom/handler.go:100-106 | a batch of responses has the effect of its members in order: on the table and its requests, on the table of client subscriptions, and on which subscriptions are started, how often and under which id |
| Handlers.Handler.AddSubscriptions | chains/custom/handler.go:191-200 | every notifier's call has returned and every subscription that was created is registered under its id |
| Handlers.Handler.CancelServerSubscriptions | chains/custom/handler.go:203-212 | every registered subscription, and no other, has been sent the error and then closed, once; none is left |
| Handlers.Handler.Unsubscribe | chains/custom/handler.go:372-383 | closes and removes the subscription if it exists; otherwise an error and no change |
| Handlers.Handler.Close | chains/custom/handler.go:147-152 | pending requests, client subscriptions and server subscriptions are all ended, with the error; the request in flight is spared |
| Handlers.CreatedAgrees | chains/custom/handler.go:191-200 | what is registered for the notifiers of a call is what the step machine registers for that call |
| Clients.Client.OnReadOp | chains/custom/client.go:589-594 | the loop's read case is `Dispatch.OnRead` on the loop's variables; exactly the accepted subscriptions are started and entered, in order |
| Clients.Client.CloseConn | chains/custom/client.go:131-134 | the handler is closed, with all pending requests but the one in flight, all client subscriptions and all server subscriptions, each told the error; then the connection, once |
| Clients.DrainRead | chains/custom/client.go:643-651 | drops what the reader delivers up to and including its error, and no more |
| Clients.Client.OnReadError | chains/custom/client.go:596-598 | cancels everything but the request in flight, ends every client and server subscription with the error, and closes the connection; no reader is live afterwards |
| Clients.Client.OnReconnected | chains/custom/client.go:601-617 | if the old reader is live, its connection is closed and drained, and every client and server subscription on it ended with `errClientReconnected`; otherwise it is left alone; the fresh handler waits for exactly the request in flight |
| Clients.Client.OnRequest | chains/custom/client.go:620-624 | the lock is taken, and the request is in flight and registered |
| Clients.Client.OnSent | chains/custom/client.go:626-634 | the lock is released; after a failed write the request is no longer waited for |
| Clients.Client.OnReqTimeout | chains/custom/client.go:636-637 | the request is no longer waited for |
| Clients.Client.OnClose | chains/custom/client.go:571-586 | `closing` is closed; then, only if a reader is live, the connection is closed and drained, pending requests are cancelled and subscriptions of both sides ended with `ErrClientQuit`, of which the subscriber of an idle client subscription is told as nil; then `didClose` is closed |
| RequestSafety.KeepRespond | chains/custom/handler.go:258-268 | delivering any response, asked for or not, keeps all channels of all requests safe: there is room, because what was delivered before carries different ids of the same request |
| RequestSafety.KeepRespondAll | chains/custom/handler.go:102-106 | the same for whole batches, with repetitions |
| RequestSafety.KeepCancelAll | chains/custom/handler.go:169-184 | cancelling keeps all channels safe, whichever request it spares |
| RequestSafety.KeepAdd | chains/custom/client.go:617 | registering the request in flight again is safe if nothing has reached it; that this is needed is `Disturbances.FaultsExactlyIfTouched` |
| RequestSafety.LockSignalled | chains/custom/client.go:507-512 | the one-slot `reqSent` is empty when a caller signals |
| RequestSafety.LockReleased | chains/custom/client.go:626-634 | when the signal is received there is a request in flight, and nobody else is writing |
| Connections.KeepSwappedOut | chains/custom/client.go:601-611 | while the old connection is closed and drained, readers, closes and the connection to write to stay consistent |
| Connections.KeepDrained | chains/custom/client.go:643-651 | the new reader starts only when the old one has gone |
| ClientProtocol.KeepStep | chains/custom/client.go:507-666 | every step of every actor keeps the invariant, with the one exception of a new connection that finds the request in flight touched |
| ClientProtocol.RunKeepsInv | chains/custom/client.go:564-640 | so does every calm run, whatever the peer sends |
| SolicitedPeers.PeerStep | chains/custom/client.go:507-534 | if responses come only on the connection the request is written to, and only once its write has begun, then every step is calm, because nothing reaches a request before its write |
| SolicitedPeers.SolicitedIsCalm | chains/custom/client.go:601-617 | so every run with such a peer is calm |
| Disturbances.FaultNeedsDisturbance | chains/custom/client.go:601-617 | a channel is misused only in runs that are not calm |
| Disturbances.FaultsExactlyIfTouched | chains/custom/client.go:601-617 | when a new connection arrives in a run that has been calm, some calm continuation misuses the channel of the request in flight if and only if an answer or a cancellation had reached it |
| Disturbances.FaultyRun | chains/custom/handler.go:258-282 | a run in which a subscription request, answered before its write, is registered again and its channel closed a second time |
| ClientGuarantees.ChannelSafety | chains/custom/handler.go:155-189 | in every calm run no `resp` is closed twice, sent to after its close or sent to without room, every request waited for has an open `resp`, and no in-flight request or connection is missing when it is needed |
| ClientGuarantees.DeliveryBound | chains/custom/handler.go:258-268 | in every calm run each id of a request is delivered to it at most once and to nobody else, so at most as many responses arrive as the request has ids, whatever the peer repeats |
| ClientGuarantees.IdsAreCounted | chains/custom/client.go:243-246 | in every calm run each draw, also the one that a notification discards, takes the next number as its id |
| ClientGuarantees.WriteLock | chains/custom/client.go:507-559 | in every calm run the loop listens on `reqInit` exactly while `lastOp` is nil, that is, unless exactly one caller is between handover and signal or its signal lies in the slot; so `writeConn` has one user |
| ClientGuarantees.ConnectionLifecycle | chains/custom/client.go:564-666 | in every calm run `reading` says whether the current connection has a live reader, no other has one, none is closed twice, and after quitting all are closed, except one that its dialler is about to close |
| ClientGuarantees.NoNilResult | chains/custom/client.go:148-162 | in every calm run `wait` on a call or batch returns a response with one of its ids, or a non-nil error |
| RequestHistory.SentIsHeard | chains/custom/handler.go:258-268 | in every calm run the channel of a call or batch has been sent exactly the responses, whole and in order, that the peer sent and the loop handled while the request waited for their ids |
| RequestHistory.ClosedAsTold | chains/custom/handler.go:169-184 | in every calm run the channel is closed if and only if the request has been ended, with the error of what ended it first: the error the reader met, the new connection, the end of the loop, or the reply to a subscription request |
| RequestHistory.WaitReturns | chains/custom/client.go:148-162 | in every calm run the next `wait` returns the response after those that earlier waits returned, if there is one, and the error with which the request was ended, if it was |
| RequestHistory.GotIsSent | chains/custom/client.go:159-160 | in every calm run the responses that the waits have returned are those sent first, in order |
| RequestHistory.BatchIsFed | chains/custom/client.go:383-392 | in every calm run what `BatchCallContext` requires of the responses it waits for is true of those that its waits return, both when a wait fails and when the last one succeeds |
| RequestHistory.SubscribesExactlyIfAccepted | chains/custom/client.go:485-490 | in every calm run, when `wait` on a subscription request can return, it returns no error, so that `Subscribe` returns the subscription, if and only if what ended the request is a reply without an error and with a readable id |
| RequestHistory.SignalReports | chains/custom/client.go:507-534 | in every calm run what a caller signals is how its write came out, or the dialling before it, with `ErrClientQuit` if the client had quit; with an error its call is over, otherwise it waits for one response per id |
| CallerProgress.EveryCallCanReturn | chains/custom/client.go:505-559 | in every calm run every caller can still return, wherever it stands and whatever the loop is doing |
| ClientGuarantees.ReconnectTransfers | chains/custom/client.go:601-617 | in every calm run a reconnect comes on behalf of the request in flight; with a live reader every other pending request is closed once with `errClientReconnected`, without one the new table holds exactly the ids of the request in flight |
| ClientGuarantees.ReconnectCompletes | chains/custom/client.go:604-617 | after draining, the new table holds exactly the ids of the request in flight, on the connection that it is written to |
| RequestFate.ForgottenExactlyWhen | chains/custom/client.go:564-640 | in every calm run, a caller whose write has begun is missing something that is not waited for where a reader is live, if and only if a read error has been dispatched while its request was in flight and written, or its write began on a closed connection; otherwise everything has been sent, or what is missing is waited for where a reader is live or carried over to the next |
| RequestFate.FateStep | chains/custom/client.go:564-640 | every step of every actor keeps that account of each request |
| RequestLoss.CanBeServedExactlyIf | chains/custom/client.go:564-640 | in every calm run, a caller in `wait` that is missing something can still be sent something, or have its channel closed, in some continuation, if and only if neither of the two things has happened to it |
| RequestAnswers.CanBeAnsweredExactlyIf | chains/custom/client.go:564-640 | in every calm run, an answer that is missing to a waiting call or batch can still reach it in some continuation if and only if neither of the two things has happened to it and the current reader has not failed |
| RequestLoss.QuitClosesExactlyIf | chains/custom/client.go:571-578 | when the loop quits, the channel of such a caller is closed, with `ErrClientQuit`, if and only if neither has happened |
| RequestLoss.OnlyTheInterruptedAreLost | chains/custom/client.go:596-634 | where writes that begin on closed connections fail, the read error while in flight is the only way to be lost |
| RequestLoss.QuitClosesExactlyIfReading | chains/custom/client.go:571-578 | what is in the table when the loop quits is closed if and only if a reader is live |
| RequestLoss.LostForever | chains/custom/client.go:564-640 | a caller that is not waited for, or for which no reader is live, is never sent anything and never closed, in any calm continuation |
| RequestLoss.LostCall | chains/custom/client.go:596-598 | a run in which a call whose write succeeds is lost because the loop hears of a read error while it is in flight, although writes on closed connections fail |
| RequestLoss.OfflineCall | chains/custom/client.go:620-624 | a run in which a call is handed over when no reader is live, its write begins on the closed connection and succeeds, and it waits in the table for ever; no read error has hit it in flight |
| RequestRetirement.WaitsForNobodyWhoLeft | chains/custom/client.go:505-520 | in every calm run, while the loop serves, an id that is waited for was drawn for a caller that is still in its call, except that after a failed write the deregistration waits for the loop to receive the signal |
| RequestRetirement.LastResponseCompletes | chains/custom/client.go:383-388 | in every calm run, a waiting caller expects as many responses as it has ids less those received; when its last `wait` succeeds it has been sent exactly one response for each id |
| RequestRetirement.SettledStep | chains/custom/client.go:587-639 | every step of every actor keeps both |
| BatchCalls.BatchCallContext | chains/custom/client.go:370-420 | each element has been given exactly the response that carries its id, among those received: the server's error, `ErrNoResult` or the decoding error is recorded with the result left alone, or else the result stored with no error; the search for the element always succeeds; without an error every element has its response; with one, exactly the failing wait and those after it are missing |
| BatchCalls.AssignNext | chains/custom/client.go:393-418 | the next response is the first for its element and leaves all others alone |
| BatchCalls.EveryIdAnswered | chains/custom/client.go:383-408 | as many different answers as ids answer every id |
| ClientSubscriptions.ClientSubscription.QuitWithError | chains/custom/subscription.go:232-248 | the first call closes `quit`, asks the server if it has to, and sends nothing for a nil error, nil for `ErrClientQuit`, and any other error itself; later calls do nothing |
| ClientSubscriptions.ClientSubscription.Unsubscribe | chains/custom/subscription.go:227-230 | quits and closes `err`, once |
| ClientSubscriptions.ShutdownSafety | chains/custom/subscription.go:227-261 | in every interleaving of any number of `Unsubscribe`, forwarder exits and handler closes: `quit` and `err` are closed at most once, what is sent on `err` is decided by the first caller: nothing for a nil error, nil for `ErrClientQuit`, any other error itself, before the close and with room; `err` is closed exactly when some `Unsubscribe` has returned; the server is asked once if the first caller asks, otherwise never; whoever has passed sees `quit` closed |
| ClientSubscriptions.ShutdownIsSequential | chains/custom/subscription.go:227-261 | when all have returned, the server has been asked, and the channels are, as if the first caller had run alone, followed by one `Unsubscribe` if there was any |
| ClientSubscriptions.EveryCallCanReturn | chains/custom/subscription.go:227-261 | in every interleaving every call can still return, whoever is inside `quitOnce` |
| ClientSubscriptions.AnyCallReturns | chains/custom/subscription.go:227-261 | for every call a run in which it is the first, and returns |
| Forwarders.Forward | chains/custom/subscription.go:263-300 | what was emitted followed by the queue is what was received, in order; the queue never exceeds 20000; the loop stops exactly on quit, on a value that does not decode, or on a value for a full queue, with the error for each; its turns are those of the subscription machine |
| Notifiers.Notifier.CreateSubscription | chains/custom/subscription.go:89-100 | a new subscription with an open, empty one-slot `err`; nothing is written |
| Notifiers.Notifier.Notify | chains/custom/subscription.go:104-123 | a payload that cannot be encoded is an error and changes nothing; before activation the payload is kept back behind the others; afterwards it is written at once or the write's error returned |
| Notifiers.Notifier.TakeSubscription | chains/custom/subscription.go:133-138 | the call has returned; the subscription, if any, is handed out |
| Notifiers.Notifier.Activate | chains/custom/subscription.go:143-154 | everything kept back is written in order and the notifier is active; on a failure a proper prefix is written and it is not |
| SubscriptionPipeline.KeepStep | chains/custom/subscription.go:104-300 | every step of notifier, connection, loop, forwarder and subscriber keeps the conservation of payloads |
| SubscriptionPipeline.EndToEndOrder | chains/custom/subscription.go:104-300 | in every run, while an established subscription has not ended: delivered ++ forwarder's queue ++ value in the loop's hand ++ notifications on the wire ++ kept back by the notifier is exactly what `Notify` accepted |
| SubscriptionPipeline.DeliveredIsPrefix | chains/custom/subscription.go:250-300 | in every run and every state, also after the end, what the subscriber has received is a prefix of what `Notify` accepted |
| SubscriptionPipeline.EstablishedAndEnded | chains/custom/handler.go:270-281 | in every run the subscription is established if and only if the loop has taken the answer while the call still waited, and has ended if and only if there was an `Unsubscribe` or close, a value that does not decode, or one that found the queue of 20000 full |
| SubscriptionPipeline.DeliveredIsNotified | chains/custom/subscription.go:104-123 | in every run what the subscriber has received is what was given to `Notify` first, but for failed writes: as many payloads as its channel has taken values |
| SubscriptionPipeline.DeliverableExactlyIf | chains/custom/subscription.go:104-300 | in every run, while an established subscription has not ended, everything accepted so far can still be delivered if and only if no write of `activate` has failed |
| SubscriptionPipeline.DeliverReturns | chains/custom/subscription.go:250-257 | in every run the loop is never caught in `deliver`: the forwarder can take the value, or the end of the subscription lets it go |
| SubscriptionPipeline.ForwarderStops | chains/custom/subscription.go:259-300 | in every run, after the end, the forwarder can stop, and once it has nothing more is delivered |
| SubscriptionPipeline.OneIsDelivered | chains/custom/subscription.go:104-300 | for every payload a run in which it reaches the subscriber |
| SubscriptionPipeline.NothingBeforeRegistration | chains/custom/handler.go:129-143 | as long as the answer is under way, it precedes all notifications, and no payload has been dropped |
| SubscriptionPipeline.ActivationIsARun | chains/custom/subscription.go:143-154 | the machine's steps of `activate`, uninterrupted, do what the method `Activate` does |
| ServerSubscriptions.SubscriptionLifecycle | chains/custom/handler.go:191-223 | in every run each `err` is closed at most once with at most one value before; every registered subscription has an open, empty `err`; after close the table is empty and every `err` closed |
| ServerSubscriptions.ToldExactlyIf | chains/custom/handler.go:191-212 | in every run a subscription is registered exactly from the return of its call to its end; its `err` is closed if and only if it has ended: without a value if the peer unsubscribed, and after the error if the handler was closed |
| ServerSubscriptions.CanBeTold | chains/custom/handler.go:147-152 | in every run, whatever calls are being served, the handler can be closed so that a registered subscription is told the error |
| ServerSubscriptions.CanBeClosed | chains/custom/handler.go:147-152 | in every run the handler can be closed |
| ServerSubscriptions.OneIsRegistered | chains/custom/handler.go:191-200 | for every subscription a run that registers it |
| ServerSubscriptions.StaysClosed | chains/custom/handler.go:147-152 | after close the table stays empty and nobody is told anything more |
| ChainSdk.ChainSDK.UpdateSelection | chains/chain.go:100-135 | `height` is the greatest height answered and `index` the first node that reached it (0 and 0 if none is positive), `sdk` that node, available if and only if some height is positive, and the flags are those of `Flags` |
| ChainSdk.ChainSDK.Select | chains/chain.go:149-164 | moves to the first flagged node after the cursor, within one turn, else back to the cursor |
| ChainSdk.FlagsMeaning | chains/chain.go:131-133 | a node is flagged if and only if `maxGap <= height` and its height is within the gap; so some node is flagged if and only if `maxGap <= height` and there is a node |
| ChainSdk.RoundIsComplete | chains/chain.go:149-164 | a round has each healthy node exactly once |
| ChainSdk.SelectRotates | chains/chain.go:149-164 | `Select` returns the head of the round and moves it to its end |
| ChainSdk.SelectStays | chains/chain.go:152-162 | without a healthy node `Select` stays |
| ChainSdk.RoundRobin | chains/chain.go:149-164 | with k >= 1 healthy nodes, the i-th of consecutive calls returns the (i mod k)-th node of the round, from any cursor |
| ChainSdk.AnyRound | chains/chain.go:149-164 | any k consecutive calls, wherever one begins to count, return each of the k healthy nodes exactly once |
| ChainSdk.Freshness | chains/chain.go:100-164 | after an update the next `Select` returns a node within `maxGap` of the best height if `maxGap <= height`, and stays otherwise |
| BlockCounters.SlotIsModulo | tools/counter.go:91-95 | where the ring keeps the j-th sample is j modulo its size |
| BlockCounters.TickRefines | tools/counter.go:83-99 | a tick appends to the log if the height differs from the last, and the ring goes on standing for the log's last entries, `head` at the oldest, `tail` at the newest |
| BlockCounters.RunRefines | tools/counter.go:72-99 | so after every sequence of ticks, from the odd starting index on |
| BlockCounters.BlockTimeSpans | tools/counter.go:101-112 | the two numbers that `BlockTime` divides are the time and height spans of the window modulo 2^64; each is exact if and only if it is not negative; the divisor is 0 if and only if the oldest and the newest height are equal |
| BlockCounters.RisingSpans | tools/counter.go:101-112 | for non-decreasing samples both are exact, and the divisor is 0 only with fewer than two samples |
| BlockCounters.HeightRegained | tools/counter.go:101-112 | three accepted samples for which the divisor is 0 |
| BlockCounters.HeightLost | tools/counter.go:101-112 | two accepted samples for which the divisor wraps |
| BlockCounters.BlockCounter.Tick | tools/counter.go:83-99 | the method computes the tick of the model |
| BlockCounters.BlockCounter.BlockTime | tools/counter.go:101-112 | the quotient of the two numbers, as a real, and 0 if the divisor is 0 |
| JsonRpc.CallMsgAnswers | chains/custom/handler.go:285-305 | a message that reaches `handleCallMsg` is answered if and only if it is neither notification nor response, and by a proper response object: its id or null, and either a result or an error |
| JsonRpc.HandleBatch | chains/custom/handler.go:91-126 | a nil message is dereferenced, namely the first, if and only if there is one; otherwise section 6 of JSON-RPC 2.0: exactly one answer per message that needs one, in order; nothing is written if there are none; an empty batch gets one error object; a method is called for exactly the requests and the notifications that are not about a subscription, in order, and exactly the responses and subscription notifications go to the client's side, in order |
| JsonRpc.HandleMsg | chains/custom/handler.go:129-143 | a nil message is dereferenced; any other is answered properly if it needs an answer, with nothing written if not, makes the server call a method, or goes to the client's side, as in a batch |
| JsonRpc.ParseMessage | chains/custom/json.go:236-250 | one message per element, nil for exactly the nulls |
| JsonRpc.OnRead | chains/custom/client.go:589-594 | reading, parsing and handling dereference a nil message if and only if the value read is null or a batch with a null element; otherwise what is written is the proper reply |
| JsonRpc.NullCrashes | chains/custom/handler.go:230 | `[null]` leads to a nil dereference, where the standard asks for one Invalid Request object with a null id |
| JsonRpc.ServeCalls | chains/custom/handler.go:111-121 | the goroutine's share of it: the answers, and the methods called, in order |
| JsonRpc.AnswerPositionsUnique | chains/custom/handler.go:91-126 | which messages the answers belong to, and in which order, is determined by the batch |
| Arguments.ParseArgumentArray | chains/custom/json.go:295-313 | succeeds if and only if the values fit, each decodes and the array ends, with the decoded values; otherwise names the first fault |
| Arguments.ParsePositionalArguments | chains/custom/json.go:267-293 | succeeds if and only if the supplied values fit and decode and all omitted ones are pointers; then one value of each type, in order; otherwise names the first fault |
| Arguments.Callback.MakeArgTypes | chains/custom/service.go:165-181 | receiver, optional context and argument types together are the function's parameters |
| Arguments.Callback.FullArgs | chains/custom/service.go:184-193 | the argument list has the function's arity and types, the receiver first, the context before the arguments |
| Arguments.HandleCall | chains/custom/handler.go:308-327 | names with the suffix for subscribing go to `handleSubscribe` with the callbacks of the namespace, those for unsubscribing to the handler's own callback, others to the registry; an unknown method is reported; otherwise acceptable parameters, and only they, lead to a call with well-typed arguments, the last of which are those supplied; the first fault is reported |
| Arguments.CallableExactlyIf | chains/custom/service.go:96-104 | a name leads to a callback if and only if it is made of a service name without separator and the name under which that service has the callback |
| Arguments.SubscribableExactlyIf | chains/custom/service.go:107-111 | the callback of a subscription is found if and only if the service named before the first separator has it under the name of the subscription |
| Arguments.HandleSubscribe | chains/custom/handler.go:330-360 | subscriptions not allowed, parameters without a name, and unknown names are reported; otherwise prepending a string type and dropping the name leaves the same alignment as for calls |
| Arguments.ParseSubscriptionName | chains/custom/json.go:316-327 | the name is the first element of an array, if that is a JSON string; otherwise an error, for each of the two reasons |
| Arguments.ShiftAcceptable | chains/custom/handler.go:350-353 | parameters fit the types with a string in front if and only if the first is a string and the rest fit the types |
| Quantity.EncodeIDValue | chains/custom/subscription.go:55-62 | an encoded id is a quantity in lower case, without superfluous leading zero, and has the big-endian value of its bytes |
| Quantity.EncodeIDInjective | chains/custom/subscription.go:55-62 | different bytes of one length make different ids |
| Quantity.HexTextValue | chains/custom/client.go:114-123 | hexadecimal texts of numbers denote them, without superfluous leading zero |
| Quantity.BlockNumArgText | chains/custom/client.go:114-123 | the text of every argument: `latest` for nil, `pending` for -1, otherwise a quantity in lower case that denotes the number, signed if it is negative |
| Quantity.BlockNumArgRoundTrip | chains/custom/types.go:77-104 | what decoding gives for the text of every argument: nil and -1 are tags, 0 <= n < 2^63 comes back, everything else is refused |
| Quantity.UnmarshalExactlyIf | chains/custom/types.go:77-104 | a text is decoded to a block number if and only if, without the spaces and one pair of quotes around it, it is the tag of that number or its hexadecimal quantity below 2^63 |

## Left out

- HTTP: the transport, and the HTTP path of batch calls, which does not have the guarantees of the dispatch path.
- JSON text, reflection and Go's method calls: messages are records, decoding and callbacks are parameters.
- Real time, deadlines, logging and the generation of random ids.
- Progress: that every call can return is stated (`CallerProgress.EveryCallCanReturn`), but neither "every request is eventually answered" nor "dispatch never blocks". The first is false (see `RequestFate`); against the second speaks `chains/custom/handler.go:187`, which can wait for a `quitOnce` whose holder is waiting for dispatch (`chains/custom/subscription.go:232-240`).
- Clients.Client.OnReadOp: only the responses among the messages read. Calls are the subject of `JsonRpc` and `Arguments`, notifications of `SubscriptionPipeline`.
- Handlers.Handler.Close: the wait for the calls being served and the cancelling of their context. `ServerSubscriptions` interleaves those calls with the close.
- Clients.Client.OnReconnected: what other goroutines do while the old reader is drained. `ClientProtocol` interleaves it; `write` and `reconnect`, which run on the callers' goroutines, are steps of that machine only.
- Clients.Client.OnClose: the same, while the last reader is drained.
- The reader's attempt to answer a syntax error (`chains/custom/client.go:657-659`), which writes beside the write lock.
- Notifiers.Notifier.CreateSubscription: its panics (a second subscription, a returned call) are its precondition.
- BlockCounters.BlockCounter.BlockTime: divides reals; the rounding of float32 is not modelled.
- Accesses that the code's own locking leaves unprotected in `Tick` and `Select` (see Assumptions).
- `registerName`, `suitableCallbacks` and the checks of result types in `newCallback`; `BlockNumberOrHash`.
- `WaitTillHeight` and the ticker of `monitor` in `chains/chain.go`.
- The wrappers in `chains/eth`, `neo`, `ont`, `harmony`, `bridge`, `client`; `wallet`; `abi`; `util`, `base`, `metrics`, `log`, `tools/ding.go`, `tools/metric.go` and `TimedCounter`: thin wrappers, lookups and I/O.
