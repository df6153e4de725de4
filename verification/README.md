# Verified model of turbocable-server

turbocable-server is a WebSocket gateway: clients subscribe to named streams, messages published to
NATS JetStream are fanned out to the subscribers, and a client that reconnects with the last sequence
number it saw has the messages it missed replayed to it before it goes on live.

This project models the parts of the gateway where tasks race or where a promise spans several
functions, and proves what holds over every run.

| file | what it models |
|---|---|
| `RegistryModel`, `RegistrySafety`, `RegistryDelivery`, `RegistryProgress` | the connection registry under every interleaving of its handler tasks and the fan-out task, one step per map operation, with the shard guards each call holds |
| `RegistryEffects` | what the registry's calls bring about, over every run |
| `Registry` | the same registry as one caller sees it: a class proved to be a plain relation |
| `Replay` | the retention check, the bounded delivery loop and the truncation probe of a replay |
| `Reconnect` | registry, JetStream log, fan-out cursor, retention trimming and one client's background replay, interleaved |
| `Outbound` | the outbound loop: a biased choice among five channels, with other tasks acting wherever it waits |
| `CatchUp` | how a client that missed more than one replay's worth gets there in several rounds |
| `Recovery` | that a reconnecting client can be served: the moves that bring it everything exist |
| `EndToEnd` | `Reconnect` and `Outbound` joined: what a reconnecting client is due, followed onto the wire |
| `Handler` | handshake, command dispatch, the inbound loop and the life of a socket |
| `ReplayTasks` | the pool of background replay tasks, its semaphore, gauge and counters |
| `TokenBucket`, `RateLimiter` | per-stream rate limiting, over exact real arithmetic |
| `IpLimiter` | per-address connection slots, alone and interleaved |
| `Overrides` | the text format of rate overrides |
| `Lists`, `Wrappers` | small shared facts and `Option` |

Concurrent code is a step system: a `Step` datatype, an `Enabled` predicate that says when a task may
take the step (including which guards must be free), and a deterministic `Apply`. DashMap shards are
arbitrary functions from keys to shard numbers, so the results hold for every hashing. Code that
updates variables in a loop is a method with a loop, proved against a declarative account of its
result; objects that are updated in place are classes.

The outbound loop takes a schedule: for each point where it waits, the actions of other tasks (queueing,
dropping senders, signals, losing the peer). Its contract holds for every schedule. No pass begins where
the schedule ends; a pass under way is finished with the other tasks gone quiet. Time is counted in waits.

## Where the code falls short of its intent

Each of these is stated as an exact condition.

- **Retention check** (`src/pubsub/nats.rs:195-215`): exact on every log that still holds messages. On an
  empty log it accepts just `last_seq` 0, which is wrong exactly when messages had been published and
  purged (`Replay.RetentionExact`, `Replay.RetentionMisses`).
- **End of the outbound loop** (`src/connection/handler.rs:369-400`): the replay branch has no guard like
  `evict_open`. While a replay sender is left, a loop left alone writes everything queued and ends exactly
  if no live sender is left. From the first pass that begins with the replay senders gone it takes no live
  frame any more, except to drain at shutdown, and never notices the end of the live queue, so only a signal
  or a failed send ends it; in the pass during which the last of them is dropped one live frame may still go
  out (`Outbound.OrphanedStays`, `Outbound.OutboundLoop`). The handler drops its own sender at
  `src/connection/handler.rs:291`, so this normally happens in the middle of a run.
- **Shutdown drain** (`src/connection/handler.rs:345-358`): eviction and urgent close end the loop within a
  fixed number of waits, but shutdown drains until the queues are seen empty. It takes two waits for each
  payload taken, and while others keep queueing replay on a working socket it goes on
  (`Outbound.DrainReplay`, `Outbound.CloseDown`, `Outbound.OutboundLoop`).
- **Truncated replays** (`src/connection/handler.rs:756-778`): the disconnect overtakes queued replay
  frames. Catching up is sure to finish exactly if the replay queue is smaller than the replay cap of
  10000 (`CatchUp.CatchUpFinishes`); the default capacity of 4096 is. With a larger queue a round can end
  with nothing received (`CatchUp.NothingGained`).
- **Replay subject** (`src/connection/handler.rs:641-642` and `src/connection/handler.rs:669`): the registry is
  subscribed under the stream name found in the identifier, while the replay reads the subject of the whole
  identifier. Coverage holds where the two are the same stream; where they differ, no message of the
  subscribed stream is ever replayed (`Reconnect.ReplayStaysOnSubject`).
- **Replay permits** (`src/connection/handler.rs:672-678`): with a concurrency limit of 0, replay tasks wait
  for ever and never confirm; that is the only exception (`ReplayTasks.RestMeansSettled`).
- **Per-address limit of 0** (`src/connection/limiter.rs:27-49`): refused addresses leave zero entries behind,
  exactly for that limit (`IpLimiter.ZeroEntriesAreTransient`).
- **Override format** (`src/config.rs:158-172`): a table survives printing and parsing exactly if every name is
  trimmed and free of `;` and `=` (`Overrides.RoundTrip`).

Where comments and code differ the model follows the code. The comment on `StreamRateLimiter::new` says
that a default rate of 0 disables limiting for all streams, while overrides still limit their streams.
The comment in the outbound loop says that catch-up always precedes live fan-out; what holds is that a
live frame follows all replay that was queued when the loop, in the same pass, found the replay queue empty.

## Model

| member | source | states |
|---|---|---|
| `RegistryModel.ScrubStream` | src/connection/registry.rs:211-212 | takes one pair out of the subscriber index and no other pair of any connection |
| `RegistryModel.RemoveIfEmpty` | src/connection/registry.rs:218-220 | removing an entry seen empty earlier never takes a subscriber away, even if one arrived in between |
| `RegistryModel.PushSubscriber` | src/connection/registry.rs:125-128 | adds one pair to the subscriber index and no other |
| `RegistrySafety.StepKeepsInv` | src/connection/registry.rs:75-221 | every step of every handler and of the fan-out task keeps the invariant, for any shard assignment |
| `RegistrySafety.RunKeepsInv` | src/connection/registry.rs:75-221 | hence every run does |
| `RegistrySafety.IndexOwnership` | src/connection/registry.rs:108-139 | at every moment a listed subscriber is recorded in its reverse list, or a subscribe or deregister in progress accounts for it; a recorded stream lists its connection unless an unsubscribe is between its two halves; nobody is listed twice |
| `RegistrySafety.QuiescentAgreement` | src/connection/registry.rs:88-139 | with no call in progress the two indexes are one relation, no stream entry is empty, departed connections own nothing, and the counter is the number of connections |
| `RegistrySafety.CountUnderRaces` | src/connection/registry.rs:100-117 | the active counter equals the table size up to exactly the registers and deregisters caught between their two steps; two racing deregisters of one id never both subtract, so it cannot underflow |
| `RegistrySafety.DepartedNeverReturns` | src/connection/registry.rs:108-131 | from the moment a deregister takes a connection's reverse entry, no later call lists it on any stream or puts it back into the table |
| `RegistryDelivery.StepKeepsDelivery` | src/connection/registry.rs:162-203 | every step keeps the delivery invariant |
| `RegistryDelivery.GapFreeDelivery` | src/connection/registry.rs:162-203 | what a subscription accepted is an unbroken piece of what its stream fanned out, from where it began; a healthy one lacks at most the message in the fan-out task's hands |
| `RegistryDelivery.SendingIsNext` | src/connection/registry.rs:171-185 | the frame about to be offered is exactly the next one its subscription lacks |
| `RegistryDelivery.NothingAfterFailure` | src/connection/registry.rs:178-195 | after one refused frame no subscription of that connection accepts anything again, whatever it drains, resubscribes or races |
| `RegistryDelivery.EvictedStaysSilent` | src/connection/registry.rs:178-195 | the same for every run up to a failure and every continuation of it |
| `RegistryProgress.NoDeadlock` | src/connection/registry.rs:108-195 | with calls in progress some call can take a step, for any shard assignment |
| `RegistryProgress.StepLighter` | src/connection/registry.rs:108-195 | every step of a call in progress lowers the remaining work |
| `RegistryProgress.CallsBounded` | src/connection/registry.rs:108-195 | however they are scheduled, calls in progress finish within a bound fixed by the state |
| `RegistryProgress.StuckMeansQuiescent` | src/connection/registry.rs:108-195 | a run that begins no call and cannot go on has finished every call |
| `RegistryProgress.CallsFinish` | src/connection/registry.rs:108-195 | from every reachable state the calls in progress can be brought to an end |
| `RegistryEffects.StepHeeded` | src/connection/registry.rs:88-139 | whatever step anybody takes, a connection's last call on a stream stays in progress or done until the connection is deregistered |
| `RegistryEffects.SubscribeTakesEffect` | src/connection/registry.rs:120-131 | in any run, a subscribe that is not taken back has listed and recorded the connection once it is between calls and still known |
| `RegistryEffects.UnsubscribeTakesEffect` | src/connection/registry.rs:134-139 | likewise an unsubscribe has removed both |
| `RegistryEffects.LeaveTakesEffect` | src/connection/registry.rs:108-117 | in any run, a deregister that was begun has taken the connection out of all three maps once no call is in progress |
| `RegistryEffects.ListedIffAsked` | src/connection/registry.rs:120-139 | after any run a known connection between calls is listed and recorded on a stream if and only if it subscribed and has not unsubscribed since |
| `RegistryEffects.StepKeepsKnown` | src/connection/registry.rs:88-195 | a registered connection keeps its entry unless it leaves or a frame to it failed |
| `RegistryEffects.RestingRelation` | src/connection/registry.rs:88-195 | with no call in progress the registry lists exactly the subscriptions asked for and not taken back, of connections that have not left and to whom no frame failed |
| `RegistryEffects.AloneIsAtomic` | src/connection/registry.rs:108-139 | a call with nobody else at work does to the interleaved registry what it does to a plain set of pairs |
| `RegistryEffects.CallPossible` | src/connection/registry.rs:108-139 | and a connection between calls can always make one and see it through |
| `Registry.Registry.constructor` | src/connection/registry.rs:64-72 | an empty relation; ids start at 1 |
| `Registry.Registry.AllocateId` | src/connection/registry.rs:75-77 | a fresh id; the relation is untouched |
| `Registry.Registry.Register` | src/connection/registry.rs:88-106 | one more connection with an empty open queue and no pair |
| `Registry.Registry.RemoveSubscriberFromStream` | src/connection/registry.rs:210-221 | exactly one pair leaves the index and no empty entry remains |
| `Registry.Registry.RemoveFromIndex` | src/connection/registry.rs:108-113 | the connection leaves both indexes, others stay |
| `Registry.Registry.Deregister` | src/connection/registry.rs:108-117 | the relation loses exactly the connection's pairs; counted out once; harmless when repeated |
| `Registry.Registry.Subscribe` | src/connection/registry.rs:120-131 | adds exactly one pair for a known connection, nothing for an unknown one; idempotent |
| `Registry.Registry.Unsubscribe` | src/connection/registry.rs:134-139 | removes exactly that pair |
| `Registry.Registry.FanoutEncoded` | src/connection/registry.rs:162-203 | one attempt per subscriber: an open queue with room has the payload of its codec appended and nothing else changed; anybody else, and nobody more, is reported once and loses every pair, its queue untouched and exactly one eviction signal pending if its channel is open; nobody else is touched; sent plus dropped is the subscriber count |
| `Registry.Registry.OfferAll` | src/connection/registry.rs:171-189 | the offering loop: each listed subscriber's channel gets the payload or, if full, the one signal; all others are untouched |
| `Registry.Registry.DeregisterAll` | src/connection/registry.rs:193-195 | the evicting loop: the relation loses exactly the evicted connections |
| `Replay.DeliverAll` | src/pubsub/nats.rs:239-341 | what was sent is the encodable running-maximum subsequence of the messages taken, at most 10000; it stopped at the first reason to stop; and each outcome arises in exactly its case |
| `Replay.ReplaySince` | src/pubsub/nats.rs:176-354 | the whole call: window exceeded exactly when the check fails, with the oldest number still held, nothing sent on set-up errors, otherwise the loop's outcome |
| `Replay.DeliverOne` | src/pubsub/nats.rs:257-266 | the comparison with the previous number recognises exactly the new maxima |
| `Replay.DeliverableAscends` | src/pubsub/nats.rs:257-266 | deliveries ascend strictly and lie above the client's number |
| `Replay.RetentionExact` | src/pubsub/nats.rs:195-215 | the check passes if and only if nothing unseen was trimmed, except on an empty log, where it passes just for 0 and is right just if nothing was ever published |
| `Replay.RetentionMisses` | src/pubsub/nats.rs:195-215 | the failing input: one message published and purged, and a client at 0 is let through |
| `Replay.ReplayMissesNothing` | src/pubsub/nats.rs:195-341 | with a passing check and a well-behaved consumer, a complete replay sent exactly what was missed and a truncated one exactly its oldest 10000 |
| `Reconnect.MoveKeepsWorld` | src/connection/handler.rs:641-688 | every move of registry, log, trimming, fan-out cursor and replay task keeps the invariant |
| `Reconnect.MovesKeepWorld` | src/connection/handler.rs:641-688 | hence every sequence of moves does |
| `Reconnect.ReplayedIffFetched` | src/pubsub/nats.rs:246-321 | what was replayed is exactly what was fetched |
| `Reconnect.OldMessageReplayed` | src/pubsub/nats.rs:219-321 | what was published before the consumer was created has been replayed, unless it was trimmed before it could be fetched; later trimming does not matter |
| `Reconnect.PassedMessageLive` | src/connection/registry.rs:120-195 | what was published after that and fanned out is in the live queue or being offered right now |
| `Reconnect.ReconnectCoverage` | src/connection/handler.rs:641-688 | whatever the interleaving, every message after `last_seq` that the fan-out loop has taken or that was published before the replay's consumer was created is replayed, queued live or both, unless it was never fetched because it was trimmed between check and fetch or purged before a check with 0, or it came after the replay's end and the fan-out loop dropped it |
| `Reconnect.NoGapAfterReconnect` | src/connection/handler.rs:641-688 | for the same messages: if nothing was trimmed before its fetch and nothing after the replay's end was dropped there is no gap, whatever is trimmed later |
| `Reconnect.ReplayStaysOnSubject` | src/connection/handler.rs:641-669 | a replay delivers only messages on its subject, so none of the subscribed stream if the two differ |
| `Reconnect.ReplayCapped` | src/pubsub/nats.rs:246-306 | no interleaving has a replay deliver more than 10000 messages |
| `Recovery.CheckExact` | src/pubsub/nats.rs:195-215 | a spawned task is let through exactly if nothing its client has not seen was trimmed, on an empty log exactly at 0, and refused otherwise |
| `Recovery.CanCatchUp` | src/connection/handler.rs:661-689 | with a healthy subscription, a covered log and at most 10000 missed messages, the task can be spawned, checked and run until every missed number was replayed |
| `Recovery.FanOutAll` | src/pubsub/nats.rs:516-572 | with the fan-out task between messages, all messages left can pass it without disturbing anybody |
| `Recovery.EverythingServed` | src/connection/handler.rs:641-689 | from every reachable world of that kind, whatever is published next, some continuation ends with everything after the client's number replayed or queued live |
| `Outbound.RenderedAppend` | src/connection/handler.rs:411-423 | a payload more adds its own frame at the end and changes nothing before it |
| `Outbound.RenderedCarries` | src/connection/handler.rs:411-423 | a run of payloads is on the wire as binary frames of their bytes, one for each, on a binary connection, and as text frames of exactly the UTF-8 ones, in order, on a JSON one |
| `Outbound.ActAllOnward` | src/connection/handler.rs:231-234 | nothing other tasks do takes a payload out of a queue, exceeds its capacity, or revives a channel |
| `Outbound.ReplayDelivered` | src/connection/handler.rs:369-375 | taking and sending one replay payload keeps everything the loop promises |
| `Outbound.LiveDelivered` | src/connection/handler.rs:389-397 | so does one live payload, if all replay queued one waiting point earlier has been taken |
| `Outbound.ControlSent` | src/connection/handler.rs:320-326 | a closing message is the last and only one of its kind, unless the send failed |
| `Outbound.ReplayBurst` | src/connection/handler.rs:369-387 | replay payloads are taken until 512 are, the queue is seen empty or a send fails, before the signals are looked at again |
| `Outbound.DrainReplay` | src/connection/handler.rs:345-351 | at shutdown replay is sent until seen empty or a send fails, in at most two waits for each payload taken and one more; while others keep queueing and sends work it is not over |
| `Outbound.DrainLive` | src/connection/handler.rs:352-358 | then live, behind all replay queued before the signal, in as much time |
| `Outbound.CloseDown` | src/connection/handler.rs:344-366 | everything queued before the signal is on the wire before the one 1001 close frame, and nothing after it; at most three waits and two for each payload taken, but never over while fed |
| `Outbound.Signals` | src/connection/handler.rs:318-366 | the first half of a pass: eviction, then urgent close, then shutdown, each with its closing message; payloads are reached only if no alarm was pending |
| `Outbound.Payloads` | src/connection/handler.rs:369-400 | the second half: live is looked at only with the replay queue just found empty; at most a burst is taken; nothing live once the replay senders are gone; progress whenever something is queued and a replay sender is left |
| `Outbound.LivePayload` | src/connection/handler.rs:389-400 | the live branch: whatever is queued for replay while it waits, all that was queued before has been taken and written |
| `Outbound.Pass` | src/connection/handler.rs:311-402 | one pass keeps order, completeness and promptness; begun with a signal pending it takes no payload and at most three waits, and ends the loop or notices a dropped sender; if it drains for shutdown it takes at most six waits and two for each payload, otherwise at most a burst and the waits of one; begun without replay senders it takes no live payload unless it drains |
| `Outbound.OrphanedStays` | src/connection/handler.rs:369-400 | from a pass that begins with the replay senders gone, no later pass takes a live payload, unless it drains for shutdown, or notices the end of the live queue |
| `Outbound.AbandonedStays` | src/connection/handler.rs:311-402 | once replay is finished and no eviction or urgent close can come any more, only shutdown ends the loop |
| `Outbound.TimelyAll` | src/connection/handler.rs:311-402 | at every moment between passes, however the run went, at most the fixed latency has passed since a signal was raised |
| `Outbound.RunPasses` | src/connection/handler.rs:311-403 | the loop is a chain of passes, each keeping what it must |
| `Outbound.OutboundLoop` | src/connection/handler.rs:298-405 | for every schedule: each queue is on the wire payload by payload, as binary frames of all of them or text frames of exactly the UTF-8 ones, in order and complete up to a failed send; every live message follows all replay queued one waiting point before it was taken; a pending eviction or urgent close ends the loop before any payload, and one raised later within 512 payloads; after any signal, whenever raised, the loop is over within a fixed number of waits, or, if it drains for shutdown, that number and two for each payload taken; each ending writes its last message, in the connection's own frame type, and nothing more; left alone with a replay sender it writes everything and ends exactly if no live sender is left; from the first pass begun without one, whenever that is, it takes no live payload except to drain at shutdown |
| `CatchUp.RoundGains` | src/connection/handler.rs:756-778 | at any moment the client has received the oldest of the numbers a replay queued and, on a socket whose sends worked, all but the last `capacity` of them |
| `CatchUp.ResumeExact` | src/pubsub/nats.rs:184-229 | reconnecting from the last number received asks for exactly the rest |
| `CatchUp.BacklogShrinks` | src/pubsub/nats.rs:323-341 | rounds never repeat a message, and each shrinks the backlog by at least the cap less the capacity |
| `CatchUp.RoundsAddUp` | src/pubsub/nats.rs:323-341 | what the rounds delivered and what is left add up to what was missed, in order and nothing twice |
| `CatchUp.TruncatedRound` | src/connection/handler.rs:756-778 | a truncated replay and the healthy socket it was cut on give the client the oldest of what it missed, at least the cap less the capacity of it |
| `CatchUp.CatchUpFinishes` | src/pubsub/nats.rs:323-341 | the number of truncated rounds is bounded if and only if the capacity is below the cap |
| `CatchUp.CatchUpCompletes` | src/pubsub/nats.rs:323-354 | after at most as many truncated rounds as the backlog divided by the cap less the capacity the next replay is complete, and rounds and replay together are exactly what was missed |
| `CatchUp.OvertakenAtOnce` | src/connection/handler.rs:331-342 | with room for a whole replay, all of it can be queued and the urgent close pending before anything was taken |
| `CatchUp.NothingGained` | src/connection/handler.rs:331-342 | the loop then ends by the urgent close and the client received nothing of the replay |
| `EndToEnd.WiredOrWaiting` | src/connection/handler.rs:369-400 | while sends work, what was put into either queue is what is on the wire from it followed by what still waits in it |
| `EndToEnd.NoGapOnTheWire` | src/connection/handler.rs:641-688 | on a socket whose sends worked, every message a reconnecting client is due is on the wire, waits in one of the two queues or is the one frame being offered; with both queues empty it is on the wire |
| `EndToEnd.ConfirmAfterReplay` | src/connection/handler.rs:657-660 | when a replay's confirmation is written, everything queued for replay ahead of it has been written, also on a socket that fails later |
| `Handler.Session.HandleClientFrame` | src/connection/handler.rs:502-581 | state, capability, last sequence, legacy warning and replies stay an exact summary of the frames received, also after an eviction; the registry changes as the history entitles a connection it still knows |
| `Handler.Session.HandleCommand` | src/connection/handler.rs:546-580 | commands before hello are refused under enforcement and counted at most once as legacy in compat mode |
| `Handler.Session.DispatchCommand` | src/connection/handler.rs:584-848 | replies and registry changes are those the history calls for |
| `Handler.Session.HandleEvent` | src/connection/handler.rs:453-485 | after each event, whatever other tasks did to the registry, it lists the connection on exactly the streams it joined and has not left, or on none once evicted, and is otherwise as the others alone would have left it |
| `Handler.Session.InboundLoop` | src/connection/handler.rs:451-491 | the same at the end of the loop, for exactly the frames received before the first close, shutdown or failed ping, in order |
| `Handler.LatestMeans` | src/connection/handler.rs:520-523 | the capability and last sequence kept are those of the last hello |
| `Handler.LegacyStartMeans` | src/connection/handler.rs:568-575 | the legacy warning stands for a command before any hello |
| `Handler.SubscribedMeansGreeted` | src/config.rs:28-38 | under enforcement every subscription was joined after a hello, under hard enforcement with the latest hello advertising `replay_v1` |
| `Handler.EverySubscribeAnswered` | src/connection/handler.rs:593-810 | over a whole connection every subscribe is settled exactly once: a rejection, a confirmation or a replay task |
| `Handler.EntitledMeans` | src/connection/handler.rs:546-640 | a subscribe is let in exactly if a hello came before it, outside compat mode, the last one was capable of replay, under hard enforcement, and a granted pattern is the identifier or has a prefix of it before its star |
| `Handler.AnswersExact` | src/connection/handler.rs:584-848 | what is sent over a connection is, in order, the one effect each frame calls for: a replay from the number of the last hello for a subscribe let in with NATS there, else a confirmation, a rejection for one not let in, a forward for a publish that is heard |
| `Handler.AnswersCounted` | src/connection/handler.rs:584-848 | every replay, confirmation, rejection and forward is sent as often as frames call for it |
| `Handler.JoinsMeans` | src/connection/handler.rs:641-642 | streams are joined and left by exactly the subscribes let in and the unsubscribes heard |
| `Handler.HandledMeans` | src/connection/handler.rs:453-490 | the frames handled are those received before the first close, shutdown or failed ping |
| `Handler.Serve` | src/connection/handler.rs:229-293 | an accepted socket is registered with its codec and an empty queue of the given capacity, and leaves the registry as the other tasks alone would have left it |
| `Handler.HandleSocket` | src/connection/handler.rs:154-296 | every path out leaves the limiter and the registry as the other tasks alone would have left them, with one slot of the address less for them until the release; a socket is refused exactly at the limit, or if there is a verifier and the token is missing, empty or not accepted, and then never reaches the registry; without a verifier every stream is granted |
| `Handler.AloneLeavesNothing` | src/connection/handler.rs:229-293 | with no other task at work that is the registry as before |
| `ReplayTasks.StepKeepsInv` | src/connection/handler.rs:672-799 | permits, gauge, outcome counters and answers stay equal to the tasks they stand for |
| `ReplayTasks.InFlightBounded` | src/connection/handler.rs:674-689 | the gauge is the number of replays running, never above the permits |
| `ReplayTasks.OutcomesCounted` | src/connection/handler.rs:691-799 | each outcome counter is the number of replays that came back that way |
| `ReplayTasks.RestMeansSettled` | src/connection/handler.rs:672-799 | when nothing can move every task is over, permits are back, the gauge is 0 and confirms and disconnects match the outcome counters, unless there are no permits |
| `ReplayTasks.MovesBounded` | src/connection/handler.rs:672-799 | however they are scheduled, tasks make at most three moves for each one spawned |
| `ReplayTasks.Settles` | src/connection/handler.rs:672-799 | from every reachable state the tasks can come to rest, in no more moves than their load |
| `TokenBucket.TokensInRange` | src/fanout/mod.rs:58-72 | tokens stay between 0 and the burst |
| `TokenBucket.TokensAreLevel` | src/fanout/mod.rs:58-72 | the running token count is the level of the decisions made so far |
| `TokenBucket.ConformsIffNeverNegative` | src/fanout/mod.rs:58-72 | keeping every window within burst plus rate times length is the same as never running out |
| `TokenBucket.RateBound` | src/fanout/mod.rs:58-72 | in no window, wherever it starts and ends, does the bucket admit more than burst plus rate times length |
| `TokenBucket.VerdictsGreedy` | src/fanout/mod.rs:58-72 | a message is admitted if and only if its level, as earned and capped, is at least one token |
| `TokenBucket.GreedyIsOptimal` | src/fanout/mod.rs:58-72 | no choice of arrivals that keeps to the rate admits more, at any point of the run |
| `RateLimiter.StreamRateLimiter.constructor` | src/fanout/mod.rs:107-131 | no bucket exists before the first message of a stream |
| `RateLimiter.StreamRateLimiter.Check` | src/fanout/mod.rs:151-170 | an unlimited stream always passes and touches no bucket; otherwise its own bucket decides and the sample is its token count rounded down |
| `RateLimiter.ProcessMessage` | src/pubsub/nats.rs:516-572 | a refused message changes nothing but its bucket; an admitted one is offered to each subscriber as the fan-out does |
| `RateLimiter.Isolation` | src/fanout/mod.rs:151-170 | each decision is the one a private bucket makes on that stream's own arrivals, whatever the other streams do |
| `RateLimiter.AdmittedIsCount` | src/fanout/mod.rs:151-170 | what the shared limiter admits of a limited stream in a window is what the private bucket admits |
| `RateLimiter.RateBoundPerStream` | src/fanout/mod.rs:107-170 | between any two arrivals the shared limiter admits of a limited stream at most the burst asked for, by override or default, or twice the rate if that is 0, plus the rate asked for times the time between them |
| `RateLimiter.OptimalPerStream` | src/fanout/mod.rs:107-170 | and at least as many as any choice of its arrivals that keeps to that burst and rate |
| `RateLimiter.UnlimitedAdmitsAll` | src/fanout/mod.rs:158-160 | a stream whose rate is 0 is admitted whole |
| `RateLimiter.BurstThenDrop` | src/fanout/mod.rs:58-72 | a limited stream drops the message after a full burst at one instant |
| `RateLimiter.DisabledIffTransparent` | src/fanout/mod.rs:138-140 | a limiter counts as disabled if and only if it would never drop anything |
| `IpLimiter.ConnectionLimiter.constructor` | src/connection/limiter.rs:18-23 | no address is counted |
| `IpLimiter.ConnectionLimiter.TryAcquire` | src/connection/limiter.rs:27-34 | grants exactly below the limit and counts exactly then |
| `IpLimiter.ConnectionLimiter.Release` | src/connection/limiter.rs:38-49 | gives one slot back, stops at 0, leaves no zero entry for the address and other addresses alone |
| `IpLimiter.ConnectionLimiter.Serve` | src/connection/limiter.rs:27-49 | a run of calls leaves each address the count its own calls give it |
| `IpLimiter.OneSlotTaken` | src/connection/limiter.rs:27-49 | while one socket holds a slot, the others of its address are served as under a limit lower by one |
| `IpLimiter.SlotsConserved` | src/connection/limiter.rs:27-49 | under every interleaving an address's count is the number of connections owning its slots, never above the limit |
| `IpLimiter.NeverSaturates` | src/connection/handler.rs:164-289 | every release finds its own slot counted |
| `IpLimiter.ArrivalDecided` | src/connection/limiter.rs:27-34 | an arrival gets a slot exactly below the limit and concerns no other address |
| `IpLimiter.SlotGivenBack` | src/connection/limiter.rs:38-49 | whoever holds a slot can always give it back, one less for the address and no zero entry left |
| `IpLimiter.ZeroEntriesAreTransient` | src/connection/limiter.rs:27-49 | zero entries are always about to be removed if and only if the limit is above 0 |
| `Overrides.EarlyReturnAgrees` | src/config.rs:158-161 | the early return for the empty text changes nothing |
| `Overrides.EntryRoundTrip` | src/config.rs:165-169 | a printed entry parses back |
| `Overrides.TrimExact` | src/config.rs:167-169 | trimming leaves what stands between the white space at the two ends |
| `Overrides.NumbersRead` | src/config.rs:167-168 | a number is read exactly from its digits, a plus sign and leading zeros allowed, if it fits 64 bits |
| `Overrides.PaddedEntry` | src/config.rs:165-169 | an entry with white space around its name and numbers parses as the bare one |
| `Overrides.RoundTrip` | src/config.rs:158-172 | a printed table parses back if and only if the format can carry every name |
| `Overrides.ParsedNamesCarried` | src/config.rs:158-172 | every parsed name is one the format can carry |
| `Overrides.MalformedIgnored` | src/config.rs:164-170 | a malformed entry changes nothing wherever it stands |
| `Overrides.LastValidEntryWins` | src/config.rs:162-171 | a name maps to a pair if and only if the last well-formed entry for it says so |

## Left out

- Encoding and decoding of frames (JSON and MessagePack): frames enter decoded, replies leave as values; whether a reply encodes is a parameter.
- JWT verification and key rotation: the verifier's answer is a parameter.
- `stream_key_from_identifier`: how the key is found in an identifier is not modelled; key and replay subject are arbitrary streams.
- Presence, heartbeats, the welcome frame, pings, tracing and most metrics.
- The NATS client: connecting, acknowledging and redelivering are not modelled; a fetch is an event, and a timeout is the end of the events.
- Server start-up, draining at process level and the 30-second limit.
- Aliasing of channel handles: queues are values owned by one object, not shared handles.
- Order within a list in the interleaved registry: subscriber and reverse lists are bags there; `Registry` keeps the order.
- HandleSocket: other sockets' limiter calls are whole calls here, because the two steps of a release are interleaved in the limiter's own step system; what they leave of the socket's own address is stated for calls that release only slots they acquired, as the limiter asks of its callers.
- Width of ids, counters and sequence numbers: unbounded, except that the replay's saturating addition and the override parser's range are those of 64 bits; doubling the rate does not wrap.
- Floating-point rounding in the token bucket: arithmetic is over the reals.
- A single `last_seq` shared by several streams: the client is taken to send the number of the stream it subscribes to.
- What a client makes of live messages between replayed ones: after a truncated replay it is taken to resume from the last number replayed; one that resumed from a live number would skip the rest of its backlog.
- OutboundLoop: does not model the frame that `sender.close()` itself sends, because it carries no payload; that everything is written in the end is stated for a loop that other tasks leave alone, because a steady flow of replay may hold live back for ever.
- EverythingServed: says that a continuation exists, not that a scheduler takes it, because the runtime's scheduling is not modelled; the fan-out task is taken to be between messages at the start, because it may be about to evict the client otherwise.
- NoGapAfterReconnect: does not say that both copies of a message are removed, because the server sends a message both replayed and live when the two overlap.
