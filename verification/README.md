# The stateful cores of aio-pika, verified

aio-pika is an asyncio client for AMQP 0-9-1. This project models the parts of it that keep
state across suspensions, and proves what they keep.

Every core is modelled twice. A *machine* on values has one action per atomic stretch of the
source (the code a task runs between two real suspensions); any enabled action may come next,
so a theorem about all runs is a theorem about all interleavings. An *object* has the fields of
the source's class, and its methods, written as the source writes them, are proved to take the
machine's steps; so what the machine's runs keep, the object's runs keep. The loops of the
source are loops of the objects: the reconnect factory, for one, runs its `while` against a
script of whatever its surroundings may do, and its trace is a run of the machine.

Three cores differ. A single delivery or request is a function on values instead of a machine;
an awaited write that is cancelled is a parameter of it, and settlements that overlap have a
machine of their own. In the restore core one step is an operation, the broker's answer and the
record of it; an operation that a loss overtakes between the three is taken up separately, in
`RestoreInFlight`. The queue iterator's object has contracts of its own, and its drain is tied
to the machine of several iterators by `QueueIteratorObject.DrainIsTheMachines`.

| Core | Machine and theorems | Object |
|---|---|---|
| connection and channel pool | `PoolMachine`, `PoolSafety`, `PoolOutcomes`, `PoolOrder`, `PoolLiveness`, `PoolClose` | `PoolObject` |
| restoring exchanges, queues, bindings and consumers | `Broker`, `Slots`, `Registry`, `RegistryGuards`, `Replay`, `RestoreRuns`, `RestoreEffects`, `RestoreInFlight`, `RestoreWitnesses` | `RobustObjects`, `RobustSession`, `RobustReopen` |
| settling deliveries, `Master` | `Settlement`, `SettlementOverlap`, `Poison` | `MessageObjects` |
| queue iterators | `IteratorMachine`, `IteratorSafety` | `QueueIteratorObject` |
| RPC | `RpcMachine`, `RpcSafety`, `RpcCallee`, `DeadLetters`, `RpcNetwork`, `RpcRoutes` | `RpcObject`, `RpcCallee.RpcServer` |
| reconnect loop | `Reconnect`, `ReconnectRuns`, `ReconnectDeaf`, `ReconnectOrphans` | `RobustConnectionObject` |
| one-shot close callbacks, reopened channels | `CloseOnce` | `ChannelObjects` |

The broker is a small abstract state: sets of exchanges, queues, bindings and consumers, or a
pool of ready messages and a map of outstanding delivery tags, with the rules of AMQP 0-9-1
(sections 1.8.3.5, 1.8.3.13 and 1.8.3.14 for cancel, ack and reject; section 3.1.3.4 for the
headers exchange) and RabbitMQ's nack. A method it refuses is a channel exception: the channel
closes, and its consumers and its prefetch are gone. Only a consumer tag already in use is
refused by the client itself, with nothing sent.

Parameters stand for what the code cannot decide itself: which ready task runs, what the
broker answers and in which order it delivers, whether a constructor, a codec, a handler or a
publish succeeds, fails or is cancelled, in what order a set or dictionary is iterated.

## What the code does not do

Where a property one would expect is false of the code, the code is modelled as it is, the
exact condition is proved, and a concrete run or input is given.

- A pool can construct an item after `close()`: the closed flag is not looked at again at
  `aio_pika/pool.py:87`. It happens in some run exactly when a constructor is running, or the
  pool has room and more getters queue on the lock than items are idle
  (`PoolClose.ConstructsAfterCloseIffOutgrown`, reached by `PoolClose.ClosedPoolCanOutgrow`).
- A getter blocked on the idle queue can leave a closed pool, without being cancelled, exactly
  when an item is idle (`PoolClose.ServedAfterCloseIffItemIdle`); four steps lead to a closed
  pool where none is (`PoolClose.ClosedPoolWithAWaiter`).
- The robust registries describe the broker after an accepted operation exactly when a guard on
  the dictionaries holds (`RegistryGuards.AgreementSurvivesIffGuarded`). Two runs leave it: one
  exchange named by object and by string (`RestoreWitnesses.NamedTwoWays`), and one exchange
  bound to one source under two routing keys (`RestoreWitnesses.TwoKeysFromOneSource`).
- After a total loss a replay is refused exactly when some registered exchange binds a source
  whose name was registered later than its own (`RestoreRuns.TotalLossRefusedIff`): the code
  replays names in the order of its dictionary's keys, and only objects of one name in the
  order of a set. Declaring d, then s, and binding d to s is such a run
  (`RestoreWitnesses.LateSourceIsRefused`).
- An operation that the broker has done is not always recorded before the channel is lost and
  reopened. If it is recorded afterwards, the registries describe the broker exactly if a bind's
  binding survived or was there before, or an unbind or cancel removed nothing; never for a
  consume (`RestoreInFlight.RecordedAfterReopening`). If it raises instead, exactly unless it is
  a bind whose binding is new and survived (`RestoreInFlight.RaisedByTheLoss`). A run is
  `RestoreWitnesses.BindInFlightIsLost`.
- Two settlements of one message can both be sent, because the flag is set behind an awaited
  write. At most one frame is sent exactly when no call passes its guards while another is
  writing, or after another was cancelled there (`SettlementOverlap.AtMostOneFrameIffFlaggedInTime`,
  `SettlementOverlap.TwoCallsTwoFrames`). For calls one after another, context exits included,
  that leaves the cancelled ones (`Settlement.AtMostOneIffNoneAfterCut`,
  `Settlement.CutAckThenExit`). A delivery to `Master` on an open channel is settled by exactly
  one frame exactly when no settlement is cancelled in its write before one is not
  (`Settlement.MasterSettlesExactlyOnce`, `Settlement.HandlerCutInItsAck`).
- `ProcessContext.__aexit__` asks a channel that may be closed whether it is closed through a
  property that raises when it is (`aio_pika/message.py:390-391`, `aio_pika/message.py:569`), so
  the quiet branches at 576 and 585 are never taken. Exactly when the exit raises is
  `Settlement.ExitRaisesIffItLooksAtAClosedChannel`, exactly when a delivery to `Master` ends so
  is `Settlement.LostDeliveryRaises`, and a handler that loses the channel and then fails is
  `Settlement.HandlerLosesChannelAndFails`.
- A pending future of the RPC map loses its caller exactly when the publishing of its request
  raises or is cancelled (`RpcSafety.OnlyFailedPublishAbandons`, reached by
  `RpcSafety.FirstPublishFails`), and then stays in the map until its id is answered or the
  channel closes (`RpcSafety.AbandonedStaysInMap`).
- A request for an unregistered RPC method is left unsettled although the handler returns
  (`RpcCallee.ReturnSettlesIffRegistered`).
- `register` and `unregister` keep their three dictionaries in step exactly when the method has
  a name and the broker confirms the cancel (`RpcRoutes.BijectionSurvivesIffCareful`,
  `RpcRoutes.CarelessOperations`); and when they overlap, exactly when the route and the
  function of a registration are still free at its end, or belong to each other and are not being
  unregistered (`RpcRoutes.OverlappingStepKeepsIff`, `RpcRoutes.OverlappingRegistrations`).
- Closing an iterator leaves its buffer unsettled when the cancel raises, and the rest of it when
  the drain is itself cancelled; it stops at the first message when the server has no nack, and
  raises when the iterator is closed, used again and
  closed again: the contract of `QueueIteratorObject.QueueIterator.Close` says exactly when each
  happens (`QueueIteratorObject.CloseTwice` for the last).
- The reconnect loop goes deaf, asleep on a dead connection with no close callback left to wake
  it, exactly in the runs in which some attempt's transport died and all deaths so far were heard
  before that attempt succeeded, and nothing has disturbed the loop since
  (`ReconnectDeaf.DeafIffCloseLost`). It gets stuck, inside a restore that waits for a connection
  only the loop could make, exactly when a close callback ran during a restore that then had to
  wait (`ReconnectDeaf.StuckIffCallbackRanInRestore`). Neither can happen to the first connection,
  which has nothing to restore (`ReconnectDeaf.FirstConnectionIsHeard`); both can to the second
  (`ReconnectDeaf.SecondConnectionCanGoDeaf`).
- An attempt forgets the transport it replaces without closing it. It replaces a live connection
  exactly if it begins while the transport of an earlier attempt, since which none began, has
  neither died nor been closed (`ReconnectOrphans.ReplacedIffAlive`); never if close callbacks run
  before the pause between attempts is over (`ReconnectOrphans.PromptRunsKeepOneConnection`), and
  otherwise in the run of `ReconnectOrphans.LateCallbackReplacesALiveConnection`.
- When an underlay closes, the return handler comes off the *current* underlay, whichever one
  closed: the right one exactly under the condition of `CloseOnce.CloseDeafensTheRightOne`.
  Reopening never puts the handler on the new underlay (`CloseOnce.ReopenedUnderlayIsDeaf`). A
  channel that is initialized and reopened, and whose first underlay closes only then, keeps it
  on the closed one alone (`CloseOnce.StaleCloseKeepsItsHandler`).

## Model

| member | source | states |
|---|---|---|
| PoolSafety.StepKeepsInv | aio_pika/pool.py:83-121 | each stretch of pool code keeps every task in one place, the stock of items, the bound and the count of close calls |
| PoolSafety.ItemsAreIdleOrHeld | aio_pika/pool.py:83-110 | over all interleavings, the items an open pool constructed are the disjoint union of idle and held ones, none idle twice or held twice, and the counter equals the size of the item set |
| PoolSafety.CreatedNeverExceedsMaxSize | aio_pika/pool.py:73-104 | items created plus a constructor in flight never exceed `max_size`, closed or not; an unlimited pool never makes a task wait for an item |
| PoolSafety.ConstructorStartsOnlyWhenNothingIsIdle | aio_pika/pool.py:87-92 | any step that starts a constructor finds the idle queue empty and room under the bound |
| PoolOutcomes.EntererComesTo | aio_pika/pool.py:83-104 | whoever enters a block is refused on a closed pool; else gets the oldest idle item, waits for one if the bound is reached, constructs, or queues on the lock |
| PoolOutcomes.GrantedGetterComesTo | aio_pika/pool.py:87-92 | a getter granted the lock gets the oldest idle item and frees the lock, or keeps it while it waits for one or constructs, closed pool or not |
| PoolOutcomes.WaiterIsServed | aio_pika/pool.py:87-102 | with an item idle a waiting getter can take the oldest; one that waits under the lock then frees it |
| PoolOutcomes.ConstructorEnds | aio_pika/pool.py:92-95 | a returning constructor gives its item to its caller; returning or raising, it frees the lock |
| PoolOutcomes.HolderCanLeave | aio_pika/pool.py:150-157 | a block can always be left, on a closed pool too, and no item is uncounted by it |
| PoolOutcomes.CancelledTaskIsGone | aio_pika/pool.py:83-121 | a task cancelled while it waits, or in what it does under the lock, is gone from the pool, a lock it owned is free, and the items stay |
| PoolOutcomes.CloseCanBeAskedFor | aio_pika/pool.py:112-114 | close() can be called at any time, again too: it sweeps at once or queues on the lock |
| PoolOrder.IdleQueueIsFifo | aio_pika/pool.py:59-110 | over any run, what was idle and what was put in is what was handed out, in that order, and then what is idle now |
| PoolOrder.NobodyOvertakes | aio_pika/pool.py:87-113 | a request for the lock only moves forward, and leaves its queue only by cancellation or by being granted the lock with nobody ahead |
| PoolLiveness.BlockedTaskHasAWayOn | aio_pika/pool.py:83-110 | deadlock freedom: in an open pool with a blocked task some step that finishes begun work is enabled, also when the lock's owner waits for an item |
| PoolLiveness.DrainIsBounded | aio_pika/pool.py:83-110 | without new requests the work left bounds the steps still possible |
| PoolLiveness.DrainServesEveryone | aio_pika/pool.py:83-110 | every maximal such run serves everybody: nobody is left busy and all items are idle |
| PoolClose.SweepStartsOneCloseEach | aio_pika/pool.py:112-121 | the sweep starts exactly one close for each item constructed so far, idle or held, and sets the closed flag |
| PoolClose.SweepKeepsTheLock | aio_pika/pool.py:112-121 | a sweep finds the lock free, and its closer owns it afterwards if and only if there are closes to wait for |
| PoolClose.NothingAddedDuringSweep | aio_pika/pool.py:112-121 | from the step that sweeps a pool with items until its closes are done or it is cancelled, the closer owns the lock, no run adds an item and no other close call starts |
| PoolClose.OneCloseCallPerSweep | aio_pika/pool.py:112-121 | over any run an item is told to close once per sweep it lived through, and no item in between |
| PoolClose.ClosedPoolWindsDown | aio_pika/pool.py:83-121 | once closed a pool stays closed, its idle queue only loses its front, and the getters already on the lock bound the items still to come |
| PoolClose.ServedAfterCloseIffItemIdle | aio_pika/pool.py:101-110 | a getter waiting on the idle queue of a closed pool can be served in some run without being cancelled if and only if an item is idle |
| PoolClose.ClosedPoolWithAWaiter | aio_pika/pool.py:83-121 | a run of three tasks from a new pool of size one to a closed pool with a waiter and nothing idle |
| PoolClose.ConstructsAfterCloseIffOutgrown | aio_pika/pool.py:83-95 | a closed pool constructs an item in some run if and only if a constructor runs already, or there is room and more getters are queued than items idle |
| PoolClose.ClosedPoolCanOutgrow | aio_pika/pool.py:83-121 | a run of three tasks from a new pool to such a state, for every `max_size` |
| PoolObject.Pool.constructor | aio_pika/pool.py:46-61 | a new pool is open, empty and unlocked |
| PoolObject.Pool.IsOverflow | aio_pika/pool.py:77-81 | true exactly when the bound is reached or an item is idle |
| PoolObject.Pool.Acquire | aio_pika/pool.py:97-104 | entering a block takes an idle item, waits for one, queues on the lock, constructs, or raises on a closed pool and changes nothing |
| PoolObject.Pool.CreateItem | aio_pika/pool.py:87-92 | the getter that owns the lock takes an item, waits for one holding the lock, or calls the constructor |
| PoolObject.Pool.Close | aio_pika/pool.py:112-113 | close sweeps at once or queues on the lock |
| PoolObject.Pool.Sweep | aio_pika/pool.py:114-121 | the loop over the item set starts each item's close once |
| PoolObject.Pool.LockGranted | aio_pika/pool.py:87-121 | the head of the lock queue goes on as the getter or closer it is, without another look at the closed flag |
| PoolObject.Pool.ItemReady | aio_pika/pool.py:101-102 | a waiting getter takes the front of the idle queue |
| PoolObject.Pool.ItemReadyUnderLock | aio_pika/pool.py:87-89 | so does the getter that waits under the lock, which frees it |
| PoolObject.Pool.ConstructorReturned | aio_pika/pool.py:92-95 | the new item is counted, registered and held, and the lock is free |
| PoolObject.Pool.ConstructorRaised | aio_pika/pool.py:87-92 | a failed constructor frees the lock and counts nothing |
| PoolObject.Pool.Put | aio_pika/pool.py:106-110 | leaving the block puts the item at the back of the idle queue, or raises on a closed pool and drops it |
| PoolObject.Pool.CloseFinished | aio_pika/pool.py:120-121 | the sweep's owner frees the lock |
| PoolObject.Pool.Cancelled | aio_pika/pool.py:83-121 | a cancelled task leaves the idle queue, the lock queue, or the lock, a sweeping close included |
| Slots.PutKeepsBalance | aio_pika/robust_queue.py:86-89 | writing a dictionary entry after the broker took the item keeps broker and dictionary equal if and only if no item only the old entry accounted for is overwritten |
| Slots.SkipKeepsBalance | aio_pika/robust_queue.py:86-91 | not writing it (robust off) keeps them equal if and only if another entry accounts for the item already |
| Slots.PopKeepsBalance | aio_pika/robust_queue.py:103-108 | popping an entry keeps them equal if and only if the broker's item was accounted for by that entry alone |
| RegistryGuards.AgreementSurvivesIffGuarded | aio_pika/robust_channel.py:142-259 | for each of eleven operations: after the broker accepted it the registries still describe exactly its exchanges, queues, bindings, consumers and prefetch if and only if the guard on the dictionaries holds |
| RegistryGuards.BindExchangeGuard | aio_pika/robust_exchange.py:70-92 | the same for an exchange binding, keyed by its source alone |
| RegistryGuards.UnbindExchangeGuard | aio_pika/robust_exchange.py:94-105 | the same for removing it |
| RegistryGuards.BindQueueGuard | aio_pika/robust_queue.py:69-91 | the same for a queue binding, keyed by exchange argument and routing key |
| RegistryGuards.UnbindQueueGuard | aio_pika/robust_queue.py:93-108 | the same for removing it |
| RegistryGuards.ConsumeGuard | aio_pika/robust_queue.py:110-137 | the same for a consumer: exactly the robust consumers of registered queues are described |
| RegistryGuards.CancelGuard | aio_pika/robust_queue.py:139-147 | the same for cancelling: exactly when no other object holds the tag |
| RegistryGuards.DeclareGuard | aio_pika/robust_channel.py:167-240 | the same for declaring, internal and non-robust declarations included |
| RegistryGuards.DeleteExchangeGuard | aio_pika/robust_channel.py:199-214 | the same for deleting an exchange: exactly when no registered binding still names it as source |
| RegistryGuards.DeleteQueueGuard | aio_pika/robust_channel.py:242-259 | deleting a queue through the channel always keeps the agreement |
| Replay.ExchangesReplay | aio_pika/robust_exchange.py:50-68 | replaying exchanges in a given order adds exactly what the objects record if every source survived or comes no later, and is refused otherwise |
| Replay.QueuesReplay | aio_pika/robust_queue.py:51-67 | replaying queues adds exactly their declarations, bindings and consumers |
| RestoreRuns.OrderOfKeysDecides | aio_pika/robust_channel.py:122 | whether sources come first depends only on the order in which names were first registered, not on the iteration of the sets |
| RestoreRuns.ReplayRebuilds | aio_pika/robust_channel.py:118-140 | from whatever survived, a replay yields exactly the broker from before the loss if every exchange binds only sources that survived or were registered no later than itself, and is refused otherwise |
| RestoreRuns.TotalLossRefusedIff | aio_pika/robust_channel.py:118-140 | after a total loss it is refused if and only if some registered exchange binds a source registered later than itself |
| RestoreRuns.RefusalIsRepaired | aio_pika/robust_channel.py:97-140 | after a refused method has closed the channel, the reopening never fails and gives consumers and prefetch back |
| RestoreRuns.RunKeepsGood | aio_pika/robust_channel.py:97-259 | any run of guarded operations that are answered and recorded, refusals, losses and replays keeps registries and broker in agreement |
| RestoreRuns.EveryRunCanBeRestored | aio_pika/robust_channel.py:118-140 | after any such run from a new channel, a further loss and replay gives back exactly the broker as it was if sources survived or were registered first, and is refused otherwise |
| RestoreRuns.LossesAreInvisible | aio_pika/robust_channel.py:97-140 | losing the channel and replaying, or being refused and reopening, any number of times changes neither registries nor broker |
| RestoreEffects.OperationOutlivesLoss | aio_pika/robust_queue.py:51-147 | after any run and one more operation the broker holds just what that operation asks for, names and arguments included, and a loss and replay give the same back if sources survived or were registered first |
| RestoreEffects.DoneIsLeft | aio_pika/robust_exchange.py:79-103 | what each of eleven operations adds to or takes from the broker, field by field, and that all else stays |
| RestoreEffects.KeysInOrderOfRegistration | aio_pika/robust_channel.py:193-214 | a name that is new goes behind all others, a deleted one leaves the rest in order, and nothing else moves them |
| RestoreEffects.ObjectRefusedWhen | aio_pika/robust_exchange.py:57-68 | one object's replay is refused exactly if its declaration clashes, a source is missing, or a consumer tag is taken; the default exchange is passed over |
| RestoreEffects.RefusedWhen | aio_pika/robust_channel.py:118-140 | the commands the broker refuses: clashes, the default exchange, what is not there, and deletions made conditional |
| RestoreEffects.RefusalCosts | aio_pika/robust_channel.py:97-112 | a refusal costs the channel its consumers and prefetch, and nothing declared or bound; a tag in use costs nothing |
| RestoreInFlight.RecordedAfterReopening | aio_pika/robust_queue.py:81-147 | a bind, unbind, consume or cancel done by the broker and recorded only after a loss and reopening: the registries describe the broker if and only if a bind's binding survived or was there before, or an unbind or cancel removed nothing |
| RestoreInFlight.RaisedByTheLoss | aio_pika/robust_queue.py:81-147 | the same, but raising and not recorded: if and only if it is not a bind whose binding is new and survived |
| RestoreWitnesses.NamedTwoWays | aio_pika/robust_queue.py:87 | a run from a new channel that binds by object and by string, after which one accepted unbind breaks the agreement |
| RestoreWitnesses.TwoKeysFromOneSource | aio_pika/robust_exchange.py:87 | a run from a new channel after which binding the same source under a second key breaks the agreement |
| RestoreWitnesses.LateSourceIsRefused | aio_pika/robust_channel.py:122-132 | declare d, declare s, bind d to s: every guard is kept, and no replay after a total loss succeeds |
| RestoreWitnesses.BindInFlightIsLost | aio_pika/robust_queue.py:81-89 | declare an exchange and a queue and bind them: a total loss and reopening that overtake the record leave an entry for a binding the broker does not have |
| RobustObjects.Server.Send | aio_pika/robust_channel.py:124-138 | a command is answered before the next is sent: accepted it takes effect, refused it closes the channel and drops its consumers, unless the client itself refuses a tag in use; it is logged |
| RobustObjects.RobustExchange.Bind | aio_pika/robust_exchange.py:70-92 | sends the bind; records it under its source only if accepted and robust |
| RobustObjects.RobustExchange.Unbind | aio_pika/robust_exchange.py:94-105 | sends the unbind and forgets the source |
| RobustObjects.RobustExchange.Restore | aio_pika/robust_exchange.py:50-68 | does to the broker what the replay function says, leaves the dictionary it rewrites unchanged, declares first, and sends nothing for the default exchange |
| RobustObjects.RobustExchange.RestoreBindings | aio_pika/robust_exchange.py:65-66 | the loop over a snapshot binds every source, in any order |
| RobustObjects.RobustQueue.Bind | aio_pika/robust_queue.py:69-91 | sends the bind; records it only if accepted and robust |
| RobustObjects.RobustQueue.Unbind | aio_pika/robust_queue.py:93-108 | sends the unbind and forgets the entry |
| RobustObjects.RobustQueue.Consume | aio_pika/robust_queue.py:110-137 | sends the consume; records the tag only if accepted and robust |
| RobustObjects.RobustQueue.Cancel | aio_pika/robust_queue.py:139-147 | sends the cancel and forgets the tag |
| RobustObjects.RobustQueue.Restore | aio_pika/robust_queue.py:51-67 | does to the broker what the replay function says and leaves both dictionaries it rewrites unchanged |
| RobustObjects.RobustQueue.RestoreBindings | aio_pika/robust_queue.py:63-64 | the first loop binds every recorded source |
| RobustObjects.RobustQueue.RestoreConsumers | aio_pika/robust_queue.py:66-67 | the second loop consumes again under every recorded tag |
| RobustObjects.RobustChannel.DeclareExchange | aio_pika/robust_channel.py:167-197 | a fresh object, registered under its name unless internal or not robust; a new name goes to the end of the keys |
| RobustObjects.RobustChannel.ExchangeDelete | aio_pika/robust_channel.py:199-214 | deletes at the broker, unless `if_unused` finds it in use, and then forgets every object of that name |
| RobustObjects.RobustChannel.DeclareQueue | aio_pika/robust_channel.py:216-240 | a fresh object, registered under its name if robust |
| RobustObjects.RobustChannel.QueueDelete | aio_pika/robust_channel.py:242-259 | deletes at the broker, unless `if_unused` or `if_empty` forbids it, and then forgets every object of that name |
| RobustObjects.RobustChannel.SetQos | aio_pika/robust_channel.py:142-165 | stores the prefetch numbers and the global flag and sends them |
| RobustObjects.RobustChannel.OnOpen | aio_pika/robust_channel.py:118-140 | for every order the dictionary and its sets allow: the broker ends as the replay function says, every dictionary as it was, no queue is bound before the last exchange is declared, and the restored flag is set if nothing was refused |
| RobustObjects.RobustChannel.RestoreAll | aio_pika/robust_channel.py:131-135 | the two loops one after the other; the second runs only if the first was not refused |
| RobustObjects.RobustChannel.RestoreExchanges | aio_pika/robust_channel.py:131-132 | the first loop replays the exchanges in order and sends only exchange commands |
| RobustObjects.RobustChannel.RestoreQueues | aio_pika/robust_channel.py:134-135 | the second replays the queues and sends only queue commands |
| RobustSession.Session.constructor | aio_pika/robust_channel.py:60-72 | a new channel has handed out nothing |
| RobustSession.Session.DeclareExchange | aio_pika/robust_channel.py:167-197 | the channel's sets and all objects' dictionaries, read together, change as the operation on registries says and the broker as the command says; refused, no dictionary changes and the channel is closed |
| RobustSession.Session.DeclareQueue | aio_pika/robust_channel.py:216-240 | the same for a queue |
| RobustSession.Session.DeleteExchange | aio_pika/robust_channel.py:199-214 | the same for deleting: objects of that name are no longer registered but keep their dictionaries |
| RobustSession.Session.DeleteQueue | aio_pika/robust_channel.py:242-259 | the same |
| RobustSession.Session.SetQos | aio_pika/robust_channel.py:142-165 | the same for the prefetch numbers |
| RobustSession.Session.BindExchange | aio_pika/robust_exchange.py:70-92 | the same for a bind through one object, among all the others |
| RobustSession.Session.UnbindExchange | aio_pika/robust_exchange.py:94-105 | the same |
| RobustSession.Session.BindQueue | aio_pika/robust_queue.py:69-91 | the same |
| RobustSession.Session.UnbindQueue | aio_pika/robust_queue.py:93-108 | the same |
| RobustSession.Session.Consume | aio_pika/robust_queue.py:110-137 | the same |
| RobustSession.Session.Cancel | aio_pika/robust_queue.py:139-147 | the same |
| RobustReopen.FollowingKeepsGood | aio_pika/robust_channel.py:142-259 | such a call accepted within its guard keeps registries and broker in agreement; refused, it leaves the registries, and a closed channel to be reopened unless the client refused it itself |
| RobustReopen.SessionReplays | aio_pika/robust_channel.py:118-140 | replaying the channel's own objects, in any order its dictionary and sets allow, yields the broker from before the loss if sources survived or were registered first, and is refused otherwise |
| RobustReopen.Reopen | aio_pika/robust_channel.py:118-140 | `_on_open` on the objects leaves the dictionaries of every object ever handed out as they were |
| RobustReopen.ReopenAfterLoss | aio_pika/robust_channel.py:114-140 | after a loss with whatever survives, reopening succeeds if and only if sources survived or were registered first, and then the broker is as it was before |
| RobustReopen.ReopenAfterRefusal | aio_pika/robust_channel.py:97-140 | after a refused call, reopening always succeeds and the broker is as it was before the call |
| Settlement.AtMostOneIffNoneAfterCut | aio_pika/message.py:432-585 | any sequence of acks, rejects, nacks and context exits, with the channel closing anywhere, sends at most one frame if and only if no call passes its guards after an earlier one was cancelled in its write; all frames carry the message's own tag, and a no-ack message sends none |
| Settlement.AtMostOneSettlement | aio_pika/message.py:432-512 | a sequence in which no call is cancelled in its write sends at most one frame |
| Settlement.CutAckThenExit | aio_pika/message.py:453-457 | an ack cancelled in its write, then the exit of the context: two frames |
| Settlement.SettleChanges | aio_pika/message.py:432-512 | a settlement sends its frame exactly when its guards hold; then it returns and marks the message, or, cancelled in its write, raises and leaves it unmarked; otherwise it raises and changes nothing |
| Settlement.SettleRefuses | aio_pika/message.py:446-500 | which error a settlement raises that does not get as far as its write |
| Settlement.BornSettled | aio_pika/message.py:384-386 | a message is born processed and locked exactly without acknowledgement, without a tag, or with tag zero |
| Settlement.SettledWithoutTag | aio_pika/message.py:452-460 | without a tag a settlement sends nothing and marks the message |
| Settlement.MasterSends | aio_pika/patterns/master.py:156-170 | whatever the handler does, whatever is cancelled in its write, and wherever the channel is lost, the frames of a delivery, in order |
| Settlement.MasterSettlesExactlyOnce | aio_pika/patterns/master.py:156-170 | on a channel that stays open a delivery is settled by at least one frame, and by exactly one if and only if no settlement is cancelled in its write before the message is settled |
| Settlement.HandlerCutInItsAck | aio_pika/patterns/master.py:156-170 | a handler cancelled in the write of its own ack: an ack and a reject are sent |
| Settlement.MasterSettlesAtMostOnce | aio_pika/patterns/master.py:156-170 | under the same condition at most one frame on a channel lost at any time, and none without acknowledgement |
| Settlement.ExitRaisesIffItLooksAtAClosedChannel | aio_pika/message.py:555-585 | the exit raises ChannelInvalidStateError if and only if the channel is closed and there was something to settle or an exception to handle |
| Settlement.LostDeliveryRaises | aio_pika/patterns/master.py:156-170 | a delivery to `Master` ends so if and only if the handler lost the channel before any supported settlement came to its end, or lost it at all and then asks for a nack |
| Settlement.HandlerLosesChannelAndFails | aio_pika/message.py:567-585 | such a delivery: the handler loses the channel and fails, and the exit raises with nothing sent |
| Settlement.ExitEnds | aio_pika/message.py:555-585 | how the exit ends in every case: a body that raised always ends raised, by its own exception if the reject gets through and else by what stopped it; a body that returned ends as its ack does |
| Settlement.OnMessageEnds | aio_pika/patterns/master.py:156-170 | how a delivery ends on an open channel: it returns only for a handler that returned or whose request for a reject or nack was met; other exceptions come out, and a cut settlement ends it cancelled |
| SettlementOverlap.AtMostOneFrameIffFlaggedInTime | aio_pika/message.py:446-460 | over any interleaving of settlement calls, suspended or cancelled between write and flag, at most one frame is sent if and only if no call passes its guards while another is writing or after one was cancelled there |
| SettlementOverlap.TwoCallsTwoFrames | aio_pika/message.py:446-487 | an ack and a reject begun together are both sent, and so are an ack cancelled in its write and a later reject |
| SettlementOverlap.NothingSentAfterDrop | aio_pika/message.py:389-392 | once the channel is lost no call sends anything, whoever is suspended where |
| MessageObjects.IncomingMessage.constructor | aio_pika/message.py:352-386 | a message without acknowledgement or without a tag is born processed and locked |
| MessageObjects.IncomingMessage.Ack | aio_pika/message.py:432-460 | frame, flags and error exactly as the settlement function says, a cancellation in the write included |
| MessageObjects.IncomingMessage.Reject | aio_pika/message.py:462-487 | the same |
| MessageObjects.IncomingMessage.Nack | aio_pika/message.py:489-512 | the same, with the channel looked at first |
| MessageObjects.ProcessContext.Exit | aio_pika/message.py:555-585 | the exit acks, rejects, does nothing or raises as the exit function says |
| MessageObjects.Master.Execute | aio_pika/patterns/master.py:144-154 | the handler's own settlements, step by step, cancelled in their writes or not |
| MessageObjects.Master.OnMessage | aio_pika/patterns/master.py:156-170 | the handler, its two except clauses and the context exit together |
| Poison.RequeuesOnce | aio_pika/patterns/master.py:156-170 | with `requeue` and `reject_on_redelivered` on, and a handler that settles at most for itself and without a cancellation, one frame per delivery, and a requeue only on the first |
| Poison.RunWeighs | aio_pika/message.py:555-585 | each delivery and each settlement lowers a measure summed over the queue, and no job is lost or doubled |
| Poison.PoisonMessagesEnd | aio_pika/patterns/master.py:156-170 | draining n fresh messages takes at most 2n deliveries and 4n steps, wherever the broker puts what it takes back, and a finished drain settled every message exactly once |
| Poison.TagsKeepDiffering | aio_pika/patterns/master.py:156-170 | over any run no two deliveries being handled carry one tag, and each delivery took a new one |
| IteratorSafety.StepKeepsInv | aio_pika/queue.py:424-525 | every delivered tag is in its owner's buffer, with the application, or requeued: in one of them, once |
| IteratorSafety.ClosedIteratorGaveBackTheRest | aio_pika/queue.py:424-461 | once an iterator is closed, a delivery to it was requeued exactly once if it was never yielded, arrivals during the cancel included, and never if it was |
| IteratorSafety.ClosingTouchesOnlyItsOwn | aio_pika/queue.py:444-461 | the steps of a close leave every other outstanding tag and every other iterator as they were |
| IteratorSafety.MessagesAreConserved | aio_pika/queue.py:424-525 | whatever several iterators, the broker and the application do, no message is lost or doubled |
| IteratorSafety.DrainEmptiesTheBuffer | aio_pika/queue.py:445-461 | after cancel-ok the drain requeues the buffer in order, in as many steps |
| IteratorSafety.CloseGetsThrough | aio_pika/queue.py:424-461 | a close gets through in three steps and the drain, and gives back in order what the buffer held |
| IteratorSafety.BuffersStayInOrder | aio_pika/queue.py:481-512 | over any run a buffer is in the order of delivery, so that the oldest is yielded or given back first |
| IteratorSafety.DeliveredUntilCancelled | aio_pika/queue.py:435-440 | an iterator is delivered to until the broker has cancelled its consumer, while it waits for the confirmation too, and not afterwards |
| IteratorSafety.OpenedIsDeliveredTo | aio_pika/queue.py:484-487 | an iterator that consumes can be delivered to |
| IteratorSafety.SettledGoesWhereAsked | aio_pika/message.py:462-512 | what the application settles goes back to its queue or is gone, as asked |
| QueueIteratorObject.QueueIterator.constructor | aio_pika/queue.py:473-479 | a new iterator has no tag and registers its close |
| QueueIteratorObject.QueueIterator.Consume | aio_pika/queue.py:484-487 | the tag of the answer is kept; a consume that raises changes nothing |
| QueueIteratorObject.QueueIterator.OnMessage | aio_pika/queue.py:481-482 | a delivery goes to the back of the buffer |
| QueueIteratorObject.QueueIterator.Anext | aio_pika/queue.py:505-512 | the front of the buffer is handed out |
| QueueIteratorObject.QueueIterator.Close | aio_pika/queue.py:424-461 | does nothing without a tag or on a closed channel; raises if its callback is gone; leaves buffer and arrivals unsettled if the cancel raises; otherwise ends as the drain of both, which may be cancelled |
| QueueIteratorObject.QueueIterator.Drain | aio_pika/queue.py:445-461 | nacks the buffer in order, once each, with requeue, up to the message at which the channel closes or the drain is cancelled, wherever that is; sends nothing without acknowledgement; stops at the first message if nack is unsupported |
| QueueIteratorObject.DrainIsTheMachines | aio_pika/queue.py:445-461 | the frames that the object's drain sends are, tag by tag, what the machine requeues from the same buffer when only this iterator steps |
| QueueIteratorObject.CloseTwice | aio_pika/queue.py:439 | an iterator closed, used again and closed again raises |
| RpcSafety.StepKeepsInv | aio_pika/patterns/rpc.py:107-272 | every step of calls, replies, returns, cancellations, sweeps and deferred removals keeps the futures map consistent |
| RpcSafety.NoOrphanedCall | aio_pika/patterns/rpc.py:107-121 | in every reachable state a pending future is in the map under its own id, a done one still there has its removal scheduled, and once callbacks drain the map holds exactly the pending futures |
| RpcSafety.OutcomeIsFinal | aio_pika/patterns/rpc.py:220-272 | a done future keeps its outcome over any run, duplicates included |
| RpcSafety.AnswersOnlyItsCall | aio_pika/patterns/rpc.py:220-272 | a reply or returned message changes the future made with its correlation id, to the outcome its type and body call for, and no other; without an id nothing |
| RpcSafety.EachAnswer | aio_pika/patterns/rpc.py:220-272 | what a waiting call learns from each answer: a result as it is, an exception as it is, another ERROR payload wrapped, a timeout for its own request coming back, and errors of their own for unknown types, undecodable bodies and returned requests |
| RpcSafety.CancelledCallerEnds | aio_pika/patterns/rpc.py:413 | a caller cancelled while it waits cancels its own future and no other, whose removal is then scheduled |
| RpcSafety.NewCallWaits | aio_pika/patterns/rpc.py:115-121 | a new call waits under its own id, and leaves every other as it was |
| RpcSafety.CallerGoesOn | aio_pika/patterns/rpc.py:388-413 | a caller publishes, then waits, goes on exactly when its future is done, and is then gone |
| RpcSafety.SweepLeavesNobodyWaiting | aio_pika/patterns/rpc.py:195-204 | after the sweep no pending future exists anywhere, and no outcome was overwritten |
| RpcSafety.OnlyFailedPublishAbandons | aio_pika/patterns/rpc.py:388-413 | a step takes a pending future its caller if and only if it is that future's publishing, raising or cancelled |
| RpcSafety.FirstPublishFails | aio_pika/patterns/rpc.py:388-413 | the first call of a new object can do so |
| RpcSafety.AbandonedStaysInMap | aio_pika/patterns/rpc.py:388-413 | and stays in the map until its id is answered or the sweep runs |
| RpcObject.RPC.constructor | aio_pika/patterns/rpc.py:100-105 | all dictionaries start empty |
| RpcObject.RPC.CreateFuture | aio_pika/patterns/rpc.py:115-121 | a pending future under a fresh id |
| RpcObject.RPC.SetOutcome | aio_pika/patterns/rpc.py:252-272 | a done future refuses with InvalidStateError; a pending one is done and its callback scheduled |
| RpcObject.RPC.OnResultMessage | aio_pika/patterns/rpc.py:239-272 | pops the future and resolves it by body and type; raises exactly when the popped future was done |
| RpcObject.RPC.OnMessageReturned | aio_pika/patterns/rpc.py:220-237 | pops the future and fails it if still pending |
| RpcObject.RPC.FailPending | aio_pika/patterns/rpc.py:146-150 | the sweep loop over the map, in any order |
| RpcObject.RPC.RunCallback | aio_pika/patterns/rpc.py:110-113 | the deferred removal of an id |
| RpcObject.RPC.Register | aio_pika/patterns/rpc.py:415-459 | the three dictionaries and whether it raises, as the registration function says |
| RpcObject.RPC.Unregister | aio_pika/patterns/rpc.py:461-474 | the same for unregistering |
| DeadLetters.RoutedByFrom | aio_pika/patterns/rpc.py:174-190 | a message on the dead letter exchange is routed to the result queue its `From` header names, whatever else the broker added, and to no other |
| DeadLetters.DeadLetterFindsItsCaller | aio_pika/patterns/rpc.py:265-268 | with any number of clients, a dead request fails exactly the call that sent it, with a timeout |
| DeadLetters.DeadLetterOfClosedClient | aio_pika/patterns/rpc.py:139-143 | after the unbind in close, dead requests reach nobody |
| RpcCallee.ServedRequestIsSettledOnce | aio_pika/patterns/rpc.py:274-335 | a request for a registered method is settled at most once, and exactly when the handler reaches its settlement on an open channel; that is its last event, after at most one reply to its `reply_to` with its correlation id, and a reject exactly when publishing failed; the handler returns exactly then, unless the settlement is cancelled in its write |
| RpcNetwork.ServedCallEndsInResultIff | aio_pika/patterns/rpc.py:239-335 | across the two sides, a waiting call that is served and answered ends in a result if and only if decoding the request, the method, serialising and decoding the reply all worked |
| RpcNetwork.StepKeepsInv | aio_pika/patterns/rpc.py:174-413 | requests, replies and dead letters in flight stay tied to the future that published them, over every step of many clients |
| RpcNetwork.CallsEndByTheirOwnRequest | aio_pika/patterns/rpc.py:239-335 | in every run of many clients each outcome is explained by the call's own request: a result by a service of it that worked and a reply that decodes to it, a remote error by one that failed and replied that very exception or value, a timeout by its expiry or rejection |
| RpcNetwork.DeadLetterEndsOnlyItsOwn | aio_pika/patterns/rpc.py:174-190 | in every run a dead letter ends the call that published it, if it still waits and its client is bound, and touches no other future of any client |
| RpcNetwork.PublishedIsInFlight | aio_pika/patterns/rpc.py:405-413 | a published request is in flight, whether its caller still waits or was cancelled |
| RpcNetwork.ServedLetterGoes | aio_pika/patterns/rpc.py:274-335 | a served request leaves its queue exactly if it is settled, for the dead letters exactly if its reply could not be published; its reply is on its way exactly if it was |
| RpcNetwork.OtherLettersGo | aio_pika/patterns/rpc.py:174-190 | expired, delivered and unroutable messages leave the place where they were |
| RpcNetwork.UnroutableTellsItsCaller | aio_pika/patterns/rpc.py:220-237 | a returned request fails the waiting call that published it |
| RpcNetwork.UnboundHearsNoDead | aio_pika/patterns/rpc.py:139-143 | an unbound client hears of no dead letter any more |
| RpcCallee.ReturnSettlesIffRegistered | aio_pika/patterns/rpc.py:280-282 | a normal return settles the request if and only if the method is registered |
| RpcCallee.UnregisteredIsLeft | aio_pika/patterns/rpc.py:280-282 | a request for an unregistered method: the handler returns and nothing was done |
| RpcCallee.RpcServer.OnCallMessage | aio_pika/patterns/rpc.py:274-335 | events, message, channel and ending exactly as the callee function says |
| RpcCallee.RpcServer.Answer | aio_pika/patterns/rpc.py:305-335 | the second half: serialise, publish, and settle as the answering function says |
| RpcCallee.RpcServer.Acknowledge | aio_pika/patterns/rpc.py:331-335 | the final ack and what it raises |
| RpcCallee.RpcServer.Record | aio_pika/patterns/rpc.py:326-335 | a settlement whose frame went out is logged, and ends the handler as it ended itself |
| RpcRoutes.BijectionSurvivesIffCareful | aio_pika/patterns/rpc.py:415-474 | `register` and `unregister`, raising or not, keep routes, queues and consumer tags one bijection if and only if the method has a name and the cancel is confirmed |
| RpcRoutes.CarelessOperations | aio_pika/patterns/rpc.py:415-474 | a method without a name, and a cancel that fails, each break it |
| RpcRoutes.UnregisterFindsItsRoute | aio_pika/patterns/rpc.py:461-474 | the pop of the route never misses, and removes that function's route and no other |
| RpcRoutes.RegisterAddsItsOwn | aio_pika/patterns/rpc.py:438-459 | when a registration raises, and that otherwise it adds the route, queue and consumer tag of its own function only |
| RpcRoutes.TagIsOfItsRegistration | aio_pika/patterns/rpc.py:454-472 | the tag that unregistering cancels is the one its registration was given, whatever came in between |
| RpcRoutes.RegistrationIsABijection | aio_pika/patterns/rpc.py:415-474 | over any sequence of such operations from a new RPC object |
| RpcRoutes.OverlappingStepKeepsIff | aio_pika/patterns/rpc.py:446-474 | with `register` and `unregister` suspended in their awaits, a step keeps the dictionaries one bijection, but for the routes being unregistered, if and only if it is no registration whose route or function was taken since it was checked, other than by each other |
| RpcRoutes.OverlappingCallsKeepBijection | aio_pika/patterns/rpc.py:446-474 | over any run of overlapping calls that end on free ground, they are one bijection whenever nothing is being unregistered |
| RpcRoutes.CommitAddsItsOwn | aio_pika/patterns/rpc.py:454-459 | a registration that ends adds its own entries and replaces no other function's queue or tag |
| RpcRoutes.OverlappingRegistrations | aio_pika/patterns/rpc.py:446-474 | two functions registered under one name at the same time: both pass, and unregistering the first removes the route of the second |
| Reconnect.StepKeepsInv | aio_pika/robust_connection.py:77-164 | every step keeps the loop's invariant: an attempt runs with the event set, and a loop that waits was not asked to close |
| ReconnectRuns.StopsForAReason | aio_pika/robust_connection.py:126-164 | in every run a factory that stopped by the flags or by cancellation was asked to by close(), and it stopped by failing fast if and only if fail-fast is on, an attempt failed with a listed exception before any other did or brought up a transport, and no close() came after |
| ReconnectRuns.FailFastIsFinal | aio_pika/robust_connection.py:143-150 | once resolved the fail-fast future keeps its outcome and is never resolved again |
| ReconnectRuns.ResolvedAtMostOnce | aio_pika/robust_connection.py:51-54 | the factory resolves it at most once, and never when fail-fast is off |
| ReconnectRuns.FailedAttemptIsRetried | aio_pika/robust_connection.py:120-164 | after a failed attempt the loop never waits on a cleared event |
| ReconnectRuns.NoAttemptAfterClose | aio_pika/robust_connection.py:212-222 | from the moment close begins no attempt starts, whatever else happens, another connect included |
| ReconnectRuns.ClosedIffATransportWas | aio_pika/connection.py:48-56 | a connection is closed if and only if some close found the transport of the latest attempt |
| ReconnectRuns.ClosedRefusesConnect | aio_pika/robust_connection.py:169-170 | from then on no connect() gets as far as a task |
| ReconnectRuns.CloseOfNothingLeavesOpen | aio_pika/connection.py:51-54 | a close that found no transport leaves the connection open to connect() |
| ReconnectRuns.CloseGetsThrough | aio_pika/robust_connection.py:212-222 | close() gets through wherever the factory is suspended, and leaves no task and no transport |
| ReconnectRuns.CallbackIsHeard | aio_pika/robust_connection.py:77-88 | a close callback clears `connected`, and wakes the loop unless the connection is closed or being closed |
| ReconnectDeaf.DeafIffCloseLost | aio_pika/robust_connection.py:90-124 | a run leaves the loop resting on a dead connection with nothing left to wake it if and only if some attempt's transport died after it came up, every death so far had its callback before that attempt succeeded, and since then no callback ran, no replaced connection died and no cancellation arrived |
| ReconnectDeaf.StuckIffCallbackRanInRestore | aio_pika/robust_connection.py:98-106 | a run leaves the factory waiting for `connected` inside a restore if and only if a close callback ran since that transport came up and before the wait, and no cancellation has come since |
| ReconnectDeaf.FirstConnectionIsHeard | aio_pika/robust_connection.py:90-124 | a run with at most one transport leaves the loop neither deaf nor stuck |
| ReconnectDeaf.SecondConnectionCanGoDeaf | aio_pika/robust_connection.py:90-124 | two runs of twelve steps of a new connection, through the restore of a second transport, that do so |
| ReconnectDeaf.RecoversUnlessCloseLandsInWindow | aio_pika/robust_connection.py:77-124 | a run in which no close callback runs while channels are restored leaves the loop neither deaf nor stuck |
| ReconnectDeaf.EveryRestoreCanLoseAClose | aio_pika/robust_connection.py:98-124 | every restore with a live transport has a run that leaves the loop deaf, and one that leaves it stuck |
| ReconnectDeaf.DeafUntilClosed | aio_pika/robust_connection.py:126-134 | and then no further attempt is made until close |
| ReconnectOrphans.PromptRunsKeepOneConnection | aio_pika/robust_connection.py:137-164 | if close callbacks run before the pause between attempts is over, no live connection is ever replaced |
| ReconnectOrphans.ReplacedIffAlive | aio_pika/robust_connection.py:137-141 | a run replaces a live connection if and only if some attempt begins while the transport of the latest earlier one has neither died nor been closed |
| ReconnectOrphans.OrphansAreReplaced | aio_pika/robust_connection.py:137-141 | the live connections nobody holds are those replaced alive that have not died since |
| ReconnectOrphans.LateCallbackReplacesALiveConnection | aio_pika/robust_connection.py:77-141 | a run of a new connection in which a late close callback makes the loop replace a live connection |
| RobustConnectionObject.RobustConnection.constructor | aio_pika/robust_connection.py:41-65 | the event starts set; the fail-fast future starts resolved when fail-fast is off |
| RobustConnectionObject.RobustConnection.Connect | aio_pika/robust_connection.py:166-187 | raises on a closed connection, starts the one task if there is none, and otherwise changes nothing |
| RobustConnectionObject.RobustConnection.Factory | aio_pika/robust_connection.py:126-164 | the loop, against any script of its surroundings: what it does is a legal run of the machine from its first state to its last, and the script itself, up to where the task stops, whenever that is legal |
| RobustConnectionObject.RobustConnection.Attempt | aio_pika/robust_connection.py:132-164 | one pass of the loop's body from the event to the next look at the flags, as a part of that run |
| RobustConnectionObject.RobustConnection.ConnectTransport | aio_pika/connection.py:118-122 | `connect` and `_on_connected` up to their end or their exception, as a part of that run; the first to get a transport succeeds without another await |
| RobustConnectionObject.RobustConnection.TransportUp | aio_pika/robust_connection.py:90-124 | a transport is stored; the first one ends its attempt in the same stretch |
| RobustConnectionObject.RobustConnection.Restore | aio_pika/robust_connection.py:98-121 | the awaits of a later `_on_connected`, one of which may be for `connected` |
| RobustConnectionObject.RobustConnection.EndAttempt | aio_pika/robust_connection.py:143-164 | the end of the `try` statement and the pause, as a part of that run |
| RobustConnectionObject.RobustConnection.Suspend | aio_pika/robust_connection.py:130-164 | every await of the factory: the surroundings follow the script until it resumes the factory, cancels it or ends |
| RobustConnectionObject.RobustConnection.OnConnectionClose | aio_pika/robust_connection.py:77-88 | clears `connected`, and sets the close event unless the connection was closed for good |
| RobustConnectionObject.RobustConnection.CloseEnds | aio_pika/connection.py:48-56 | the transport is closed; the connection counts as closed only if there was one |
| CloseOnce.StepKeepsInv | aio_pika/tools.py:236-254 | every step keeps each callback's flags, its deleted attribute and its number of runs in step |
| CloseOnce.OneClosePerUnderlay | aio_pika/tools.py:236-254 | however often and in whatever order the futures of any number of underlays fire, the close handler runs at most once per underlay, and `finished` is set only after that run ended or raised |
| CloseOnce.RunsAreStarts | aio_pika/tools.py:236-245 | over any run the close handler runs whenever its task starts, and `finished` is set only by the call that the end of the task leaves to the loop |
| CloseOnce.EndLeavesFinishing | aio_pika/tools.py:243-245 | the end of the task, returning or raising, leaves the setting of `finished` to the loop, once |
| CloseOnce.FiresOnlyAttached | aio_pika/abc.py:485-507 | a callback fires only while it hangs on the futures, and comes off them only when it is finished |
| CloseOnce.AttachedSinceCreated | aio_pika/abc.py:485-507 | and stays on them until then |
| CloseOnce.CurrentIsLastTaken | aio_pika/channel.py:163-169 | over any run the current underlay is the last one taken, or none if an opening failed since |
| CloseOnce.StartFindsTheCallback | aio_pika/tools.py:236-245 | the deleted callback is never called |
| CloseOnce.LaterFiringsAreInvisible | aio_pika/tools.py:247-249 | striking an underlay's later firings out of any run leaves the end state the same |
| CloseOnce.OthersUntouched | aio_pika/abc.py:478-507 | the steps of one underlay leave every other underlay's callback as it was |
| CloseOnce.FiredWindsDown | aio_pika/tools.py:236-254 | a fired callback always has a next step of its own, which brings `finished` nearer |
| CloseOnce.ClosersAreReleased | aio_pika/abc.py:494-507 | a run that gives a fired callback its turns, among whatever else, sets `finished` with exactly one run behind it |
| CloseOnce.CloseDeafensTheRightOne | aio_pika/channel.py:200-208 | a close takes the return handler off the underlay that closed if and only if that is the current one or neither carries it |
| CloseOnce.RaisingCloseDeafensNobody | aio_pika/channel.py:200-208 | a close handler that raises leaves the return handlers where they are |
| CloseOnce.InitializeHears | aio_pika/channel.py:179-212 | `initialize` puts the handler on the underlay it opened, once |
| CloseOnce.FailedOpeningCanBeRepeated | aio_pika/channel.py:164-186 | an opening that failed hears nothing, reopened or not, and can be repeated |
| CloseOnce.ReopenedUnderlayIsDeaf | aio_pika/channel.py:179-219 | without another initialize no run puts the return handler on any underlay |
| CloseOnce.StaleCloseKeepsItsHandler | aio_pika/channel.py:200-219 | a run from a new channel that is initialized and reopened and whose first underlay closes then: the return handler is on the closed underlay alone |
| ChannelObjects.OneShotCallback.constructor | aio_pika/tools.py:218-223 | no task, not finished, callback present |
| ChannelObjects.OneShotCallback.Call | aio_pika/tools.py:247-254 | makes a task exactly on the first call |
| ChannelObjects.OneShotCallback.Start | aio_pika/tools.py:236-242 | runs the callback unless finished |
| ChannelObjects.OneShotCallback.End | aio_pika/tools.py:243-245 | queues the setting of `finished` and deletes the callback |
| ChannelObjects.OneShotCallback.SetFinished | aio_pika/tools.py:244 | the queued call |
| ChannelObjects.Channel.constructor | aio_pika/channel.py:80-87 | no underlay |
| ChannelObjects.Channel.Create | aio_pika/abc.py:478-492 | a new callback, shared with no other underlay |
| ChannelObjects.Channel.Adopt | aio_pika/channel.py:155-163 | the new underlay becomes the current one |
| ChannelObjects.Channel.OpenFailed | aio_pika/channel.py:164-169 | a failed opening leaves no current underlay |
| ChannelObjects.Channel.OnInitialized | aio_pika/channel.py:210-212 | the return handler goes on the current underlay |
| ChannelObjects.Channel.Fire | aio_pika/abc.py:485-487 | a closing future calls the callback of its own underlay only |
| ChannelObjects.Channel.Start | aio_pika/tools.py:236-242 | its task starts |
| ChannelObjects.Channel.End | aio_pika/channel.py:200-208 | the rest of `_on_close`, and the end of the task |
| ChannelObjects.Channel.SetFinished | aio_pika/tools.py:244 | `finished` of that underlay alone |
| ChannelObjects.Channel.Detach | aio_pika/abc.py:504-507 | the callback comes off both futures |

## Left out

- aiormq, pamqp, sockets, TLS, heartbeats, URL parsing and connection parameters: I/O plumbing; the broker is a small abstract state instead.
- Pickle, JSON and compression: opaque functions that work, fail or are cancelled.
- Garbage collection and expiry of weak sets: the registries are plain sets of live objects.
- Timeouts and sleeps: a waiting step may be delayed arbitrarily.
- Expiration and timestamp conversion: floating-point truncation is the point of that code.
- Passive declarations, and auto-delete or exclusive entities removed by the broker itself: a consumer's exclusive flag is only data here.
- The broker state left by a replay that was refused half way: only that it was refused is claimed.
- The global flag of `basic.qos`: it is stored but never replayed (`aio_pika/robust_channel.py:126-129`), so agreement is claimed for calls without it.
- The restore lock, ready event and close callback of a robust channel, and the close lost between `aio_pika/robust_channel.py:140` and `aio_pika/robust_channel.py:95`: a loss or a refusal is followed by one reopening.
- Replay.ExchangesReplay: the order is a parameter here; what orders the code can take, and what decides then, is in RestoreRuns.ReplayRebuilds.
- PoolObject.Pool.Put: the item's return as a context manager is the only way back; a caller that puts an item itself, or twice, is not modelled.
- MessageObjects.IncomingMessage.Ack: nothing else runs between the write and the flag or the cancellation; SettlementOverlap takes them apart.
- MessageObjects.IncomingMessage.Reject: as for Ack.
- MessageObjects.IncomingMessage.Nack: as for Ack.
- Settlement.AtMostOneIffNoneAfterCut: calls do not overlap, and frames are counted, not the earlier tags that a frame with `multiple` also covers.
- Poison.PoisonMessagesEnd: handlers that settle with `multiple`, or whose settlements are cancelled in their writes, make the broker see tags it no longer knows, and are excluded.
- RestoreRuns.EveryRunCanBeRestored: no operation is in flight at a loss; for queue bindings and consumers that is RestoreInFlight.
- Deleting through the object (`aio_pika/exchange.py:209-225`, `aio_pika/queue.py:344-365`) touches no dictionary of the channel, and the first drops the object's channel: entities are deleted through the channel here.
- IteratorSafety.ClosedIteratorGaveBackTheRest: acknowledge mode on an open channel with nack, one consume and one close per iterator; the other branches are in the object's Close.
- QueueIteratorObject.QueueIterator.Anext: waiting, its timeout, and the close on cancellation are left out, and so is the retry loop of the robust iterator.
- RpcRoutes.RegistrationIsABijection: `register` and `unregister` calls do not overlap; for calls that do see RpcRoutes.OverlappingCallsKeepBijection.
- RpcObject.RPC.Register: its awaits are one step with its checks.
- RpcObject.RPC.Unregister: its await is one step with the pops around it.
- DeadLetters.DeadLetterFindsItsCaller: one delivery, with header and id given; that they are those of the call is proved over runs in RpcNetwork.DeadLetterEndsOnlyItsOwn.
- RpcSafety.SweepLeavesNobodyWaiting: a future made after the sweep waits for the next one; the other phases of `RPC.close` are not modelled.
- RpcObject.RPC.CreateFuture: the correlation id is fresh, as the source expects of a random UUID.
- Payload exceptions that a future refuses (`StopIteration`), and deserialisers that suspend.
- ReconnectRuns.StopsForAReason: `CancelledError` is not an `Exception`, as in Python 3.8 and later; calls of close that overlap, and `reconnect()`, are not modelled.
- RobustConnectionObject.RobustConnection.Factory: an event that is already set does not keep others from running first, which allows more runs than the code has.
- The callers of `connect()` that wait for `connected`, what the reconnect callbacks do, and the await of the user's close callbacks inside `_on_connection_close`, whose two effects are one step.
- CloseOnce.ClosersAreReleased: a task cancelled before it starts, and the user's own close callbacks, are not modelled.
- Transactions, proxies, `ensure_awaitable`, logging and deprecation warnings: thin or easy.
