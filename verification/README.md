# Verified model of the restaurant back end

A Dafny model of the parts of a multi-tenant restaurant back end whose
correctness depends on interleaving, accumulated state or two pieces of code
agreeing with each other, with proofs of what those parts promise.

`dafny verify dfyconfig.toml` checks everything.

## What is modelled

| files | component | main results |
|---|---|---|
| `StreamIds`, `Channels`, `Streams`, `BusRegistry`, `BusModel`, `EventBusObject`, `Reconnection` | the real-time event bus: one Redis-stream reader per business, fan-out to bounded queues, delayed reader shutdown, replay with gap detection, and the server-sent-events generator | `BusModel.SubscribersAreExact`, `BusModel.LifecycleAlways`, `BusModel.ReadersAreInOrder`, `Reconnection.ReconnectingClient`, `Streams.HistoryIsSound` |
| `Storage`, `AssetRefs` | spellings of image references; saving and deleting them at the same time, under one advisory lock per key | `Storage.ShownComesBack`, `AssetRefs.SafeIff`, `AssetRefs.ImageIsLostIff` |
| `Stock`, `RowLocks`, `Dicts`, `OptionSelection`, `Consumption`, `Prices` | option selection, the consumption plan of a sold line, the stock ledger and the order of row locks | `Consumption.ReverseUndoesDeduct`, `Stock.OutsSucceedIff`, `OptionSelection.ValidateOptionSelection`, `OptionSelection.AcceptsByPart`, `Consumption.AcceptedGroupTakes`, `RowLocks.DeadlockIff` |
| `DinerWindow`, `DinerSessions`, `RateLimit` | the sliding session window and the sweep that reads it backwards; the fixed and the sliding rate limit | `DinerWindow.SlackMustNotExceedLimit`, `RateLimit.FixedWindowBound`, `RateLimit.BlocksExactlyAtTheLimit`, `RateLimit.ConcurrentBound` |
| `PlanLimits`, `PromotionRules`, `PromotionWriters` | plan quotas under a row lock; a data migration and its undoing, and the requests that write between the two | `PlanLimits.QuotaHolds`, `PromotionRules.UpAndDownRestoresTerms`, `PromotionRules.DowngradeConstraintIff`, `PromotionWriters.AlwaysRestorableIff` |

Concurrency is modelled as steps: each module that has it defines the atomic
actions of the protocol (a lock section, one query, one Redis command, one
commit), a state they act on, and runs as arbitrary sequences of enabled steps.
Main theorems quantify over all runs. Objects that the source updates in place
are classes whose methods have the source's loops and branches, and whose
postconditions tie the new state to the step functions the theorems are about.

Modelling choices shared by several modules:

- Money is in whole cents, stock in whole thousandths (the scale of the columns),
  times are integers. Primary keys are integers. Texts are sequences of characters.
- Components such as `consumed`, `joined`, `fanned`, `moved`, `seen`, `log` and
  `revived` only record history. No step reads them to decide anything.
- Transactions read committed rows and see them again after a lock is granted.
- Configuration values (queue size, retention, windows, limits) are parameters.
  Retention is at least one entry.
- Redis, the object store and PostgreSQL answer. An existence check may also fail,
  and a deletion may not happen, in `AssetRefs`.

## Findings

Where the code does not meet what is promised for it, the code was followed, and
the exact condition, or a run that shows it, was proved.

1. A new reader asks for `$` again until its first non-empty read, so what is
   published between two such reads reaches nobody, with no gap reported, although
   the client subscribes before it reads its replay. `Reconnection.NothingLostIff`: a
   subscription got all it wanted from some point on exactly when nothing wanted lies
   between that point and its reader's first event, or, if it joined later, the last
   event fanned out before it joined. `Reconnection.SettledClient` says the same with
   a replay, `Reconnection.FirstEventCanBeLost` gives a run.
2. The generator drops repeated events by the last id it sent, not by the id the
   client reported. When the replay sends nothing and the shared reader lags behind,
   the client gets an event again. `Reconnection.ReconnectingClient` has the exact
   condition for this and for 1, over every run, and
   `Reconnection.LastEventCanBeRepeated` a run.
3. `BusRegistry.NobodyCameBack`: while the bus is open, the branch for a subscriber who
   came back in `_stop_after_linger` is never taken.
4. An unchanged image takes no lock, but a product or logo row that spells it
   otherwise is then rewritten to the key, and the fields of a payment method are
   always written back. `AssetRefs.SafeIff`: no interleaving ever leaves a dangling
   reference exactly when every such row settles on a key whose object exists, in a
   folder from which nothing is deleted. `AssetRefs.BothFormsApply`: two forms that
   read the image before either commits both replace it, and a payment method's form
   whose image is ignored even puts back the one it has read
   (`AssetRefs.IgnoredFormRestores`). `AssetRefs.AddressIff`: one
   new address that, normalised, still passes as one of another origin makes such a row
   exactly when it settles, normalised again, on a key of the row's business that is
   missing or may be deleted; a bucket address behind another one does
   (`AssetRefs.DoubledPrefixDangles`).
5. The reference scan of products, receipts and logos compares spellings, where
   normalisation ignores surrounding space and the letter case of the address.
   `Storage.SeenIff`: seen is exactly what has no surrounding space and is the key or
   starts with a prefix in its very spelling. `AssetRefs.ImageIsLostIff`: a row in any
   other spelling can lose its object while it stays, and only such a row.
6. A group that the variant does not offer is checked neither if it is picked by
   quantity, under any flag, nor, with the strict flag off, if it is counted, even if
   its options move stock, which are promised to be checked always.
   `OptionSelection.AcceptsByPart` and `OptionSelection.UnofferedChoiceIff` say exactly
   what passes, `Consumption.UnofferedTakesStock` what it then takes.
7. `Consumption.ChosenYetReportedAsNotChosen`: the complaint that no option was
   chosen is also given when one was, but is linked to no item.
8. `Stock.InsRefusedIff`: putting stock back can be refused for lack of stock, though
   its documentation says it never is; only below minus the quantity. No present caller
   gets there: items start at zero or more, adjustments refuse a negative stock, and
   nobody passes `allow_negative`.
9. `RateLimit.LostExpiryLocksOut`: if a process dies between INCR and EXPIRE the key
   admits its limit once and never again, and reopens only if an EXPIRE does arrive
   (`RateLimit.ArrivedExpiryReopens`). `RateLimit.ConcurrentBound`: k callers at once
   pass the sliding window up to k - 1 times too often, and no more.
10. `PlanLimits.SwitchingOnPassesTheLimit`: reactivating a payment method does not
    count, so usage can exceed the limit by any number of reactivations, and by no
    more than these (`PlanLimits.QuotaHolds`). `PlanLimits.WithoutTheForeignKeyLock`: the
    quota of users rests on the lock that a new user's foreign key takes on the
    business row.
11. `PromotionRules.DowngradeConstraintIff`: the downgrade's unique constraint can be
    put back exactly when no promotion has one product in two of its rules. The
    requests refuse to write that, and one after another they never do
    (`PromotionWriters.SerialRunsAreRestorable`). But nothing locks the promotion, so of
    two changes of its rules that both read before either commits, the second deletes
    only what it read, and both payloads stay: `PromotionWriters.TwoChangesCollideIff`,
    and `PromotionWriters.SentTwiceCollides` for one payload sent twice.
    `PromotionWriters.AlwaysRestorableIff` is the exact condition over every run.
12. Row locks on items are meant to be taken in one order. Voiding a line with a
    replacement calls `lock_items` twice in one transaction, and a purchase locks its
    items one by one as it lists them. `RowLocks.DeadlockIff`: beside transactions of one
    call each, an order of locks can end in a deadlock exactly when it asks for some item
    anew after a larger one. `RowLocks.VoidingCanDeadlockIff`: so it is for a voided
    line and its replacement exactly when the latter needs an item that the former does
    not and that is smaller than one of the former's.

## Model

| member | source | states |
|---|---|---|
| StreamIds.VersionOrdersIds | app/core/events.py:146-161 | the version never falls as ids grow, orders ids, and ties two ids exactly when they share a millisecond and the smaller counter is 999 or more |
| StreamIds.ParseUndoesRender | app/core/event_bus.py:61-63 | the text of any id parses back to it; without a counter, to counter zero |
| StreamIds.IdLeIsNumeric | app/core/event_bus.py:59-64 | comparing the texts of two ids compares the pairs of numbers, not the characters |
| Channels.SplitUndoesJoin | app/core/events.py:127 | splitting a comma-joined list of comma-free names gives the list back |
| Channels.PublishThenParse | app/core/event_bus.py:52 | the parsed channel set is the published one exactly when every channel is non-empty and comma-free |
| Channels.WantsSharedChannel | app/core/event_bus.py:78-79 | a subscriber wants an event exactly when it shares one of the published channels |
| Streams.PublishedComesBack | app/core/events.py:125-137 | an appended event is parsed back with its kind, time, payload and version, and with its channels exactly if each is non-empty and comma-free |
| Streams.PublicationsGrow | app/core/events.py:131-137 | any number of approximate-length appends extends the log, only trims from the old end and never empties it |
| Streams.HistoryIsSound | app/core/event_bus.py:254-275 | without a reported gap the replay is every entry ever appended after the given id, as of the first read, whatever is appended or trimmed between the two reads |
| Streams.HistoryIsLive | app/core/event_bus.py:263-275 | a client whose last event is still retained is told of a gap exactly when it is more than the limit behind |
| Streams.OldestMustBeReadSecond | app/core/event_bus.py:257-258 | with the two reads swapped an entry can be lost without a gap |
| Streams.Generate | app/api/v1/realtime/router.py:93-155 | the generator sends the wanted part of the replay, then of the queue only what is newer than the last event it sent |
| Streams.ReconnectIsExactlyOnce | app/api/v1/realtime/router.py:104-152 | replay and queue together are every wanted event after the client's last one, once and in order, exactly when the replay sent something or the queue holds nothing wanted from before it, and nothing wanted lies between the end of the replay and the start of the queue |
| BusRegistry.NextKeeps | app/core/event_bus.py:141-190 | every lock section and every step outside the lock keeps readers, stop signals and pending stops paired |
| BusRegistry.LifecycleOfEveryRun | app/core/event_bus.py:141-190 | in every reachable open state a business with subscribers has one live reader, its own unset stop signal and no pending stop; one without has no reader, or one with one pending stop |
| BusRegistry.NobodyCameBack | app/core/event_bus.py:183-184 | while the bus is open, a linger task that was not cancelled finds no subscriber, so the early return is never taken |
| BusRegistry.LateStopHitsOnlyOldReaders | app/core/event_bus.py:187-190 | a stop or cancel carried out after the lock was released leaves every registered reader and its signal untouched, whatever ran in between |
| BusRegistry.CloseStopsEveryReader | app/core/event_bus.py:119-130 | after closing, every reader is cancelled or carried by a linger task that is about to cancel it |
| BusRegistry.CancelledWasTold | app/core/event_bus.py:91-95 | in every run, a reader that is cancelled finds its stop signal set |
| BusModel.StepKeepsBusOk | app/core/event_bus.py:141-240 | one step of any task, or of Redis, keeps the invariant of the whole bus |
| BusModel.LifecycleAlways | app/core/event_bus.py:119-190 | the reader lifecycle holds in every reachable state of the whole bus, with streams and queues running |
| BusModel.SubscribersAreExact | app/core/event_bus.py:228-240 | what a subscriber consumed plus what is queued is exactly, in order, the events of its business fanned out while it was subscribed whose channels meet its own; once dropped, a proper prefix of that |
| BusModel.DroppedForGood | app/core/event_bus.py:230-237 | no later step clears the dropped mark |
| BusModel.OfferAllFeeds | app/core/event_bus.py:228-240 | a batch drops a subscriber exactly when what waits and what it wants exceed a positive queue size, and leaves the first of them that fit; otherwise all of them are queued, in order |
| BusModel.QueuesAreBounded | app/core/event_bus.py:145 | in every run no queue is longer than a positive queue size |
| BusModel.DroppedIff | app/core/event_bus.py:228-240 | in every run a subscription gets dropped exactly by a step that, while it is subscribed, fans out more that it wants than its queue has room for |
| BusModel.LeavingLeaves | app/core/event_bus.py:161-174 | in every run what unsubscribes is no member any more, nothing else changes, and the last one to leave an open bus leaves a live reader and one pending stop of it |
| BusModel.LeftForGood | app/core/event_bus.py:161-174 | no later step of any run changes what it received |
| BusModel.QueueCanBeDrained | app/api/v1/realtime/router.py:128-152 | from every state a subscriber can take what is queued for it, oldest first, which changes nothing else |
| BusModel.WakingStops | app/core/event_bus.py:176-190 | in every run, a linger task that wakes and goes on undisturbed stops the reader of its business if nobody is subscribed, and nothing else |
| BusModel.ClosingEnds | app/core/event_bus.py:118-130 | in every run, closing undisturbed tells and cancels every reader and ends every subscription |
| BusModel.ToldReadersEnd | app/core/event_bus.py:201-215 | in every run, a reader that was told to stop starts no further read, hands on at most the one reply it was waiting for, and then stays as it is |
| BusModel.ReadersAreInOrder | app/core/event_bus.py:200-226 | across all readers a business ever had, positions and ids fanned out strictly rise, versions never fall and tie only for saturated counters, and from its first event on a reader skipped only trimmed entries |
| Reconnection.JoinsExactly | app/api/v1/realtime/router.py:104-152 | the same for a queue that carries any positions of the stream: then also every wanted entry from the end of the replay on must be among them |
| Reconnection.ReconnectingClient | app/api/v1/realtime/router.py:93-155 | end to end over every run and every undropped subscription: reader, queue, a replay read at two later states, and generator together deliver every wanted event once and in order, exactly under that condition |
| Reconnection.SettledSubscriberMissesNothing | app/core/event_bus.py:200-240 | of an untrimmed stream a subscription received every wanted entry from just after the last event fanned out before it joined, or from its reader's first event, to the last one fanned out |
| Reconnection.NothingLostIff | app/core/event_bus.py:201-221 | it received all it wanted since any point exactly when nothing wanted lies between that point and the start of that piece |
| Reconnection.SettledClient | app/api/v1/realtime/router.py:93-155 | its reconnecting client is served exactly when the replay sent something or nothing wanted from before it was queued, and nothing wanted lies between the replay and the piece; the latter holds if it joined after its reader's first event |
| Reconnection.LastEventCanBeRepeated | app/api/v1/realtime/router.py:104-152 | a run in which its other half fails, for every limit: the client has the newest event, its replay is empty and reports no gap, and the client is sent that event again |
| Reconnection.FirstEventCanBeLost | app/api/v1/realtime/router.py:100-101 | a run in which that condition fails: the subscription is there all along, the replay reports no gap, and the client never gets the first event |
| EventBusObject.EventBus.constructor | app/core/event_bus.py:85-97 | a new bus is the empty bus of the model |
| EventBusObject.EventBus.Subscribe | app/core/event_bus.py:141-159 | a new member with an empty queue and its channels; a pending stop is cancelled; the reader is the old one, or a new one with its own signal; that is the model's join step |
| EventBusObject.EventBus.Unsubscribe | app/core/event_bus.py:161-174 | the subscription is no member any more, other businesses and subscriptions are as before, and if it was the last on an open bus one new stop is pending; that is the model's leave step |
| EventBusObject.EventBus.StopAfterLinger | app/core/event_bus.py:181-190 | a business nobody came back to loses its reader, whose signal is set and task cancelled, and nothing else changes; these are the model's wake and stop steps |
| EventBusObject.EventBus.Fanout | app/core/event_bus.py:228-240 | one event reaches every member: dropped exactly when it is wanted and the bounded queue is full, otherwise queued if wanted; no queue outgrows its size |
| EventBusObject.EventBus.Reply | app/core/event_bus.py:223-226 | handling a reply entry by entry is one delivery step: members are dropped exactly when the batch overflows their queues |
| EventBusObject.EventBus.Aclose | app/core/event_bus.py:119-130 | every registered reader is told and cancelled, every pending stop cancelled, nobody is subscribed; these are the model's three closing steps |
| Storage.KeyNamesOnePlace | app/core/storage.py:218-226 | a valid key names one business and one folder, so keys of different ones never coincide |
| Storage.ValidKeyIsNormal | app/core/storage.py:133-150 | a valid key is its own normal form, is taken as managed, and is what would be deleted |
| Storage.DeletableIff | app/core/storage.py:251-262 | a key may be deleted exactly if it is the normal form of the reference and a valid key of that business and folder |
| Storage.SpaceIsIgnored | app/core/storage.py:133-150 | surrounding space changes neither the normal form nor the deletable key, and nothing but space stands for nothing |
| Storage.LowerForgetsCase | app/core/storage.py:126-129 | two texts match in lower case exactly if they have the same letters |
| Storage.ShownComesBack | app/core/storage.py:153-174 | the address shown for any stored value, sent back unchanged, has the normal form of what is stored |
| Storage.NormalIsShownAlikeIff | app/core/storage.py:153-174 | the normal form is shown like what is stored exactly if a key behind a prefix is not empty, has no surrounding space and is not itself an address |
| Storage.NothingToDeleteIff | app/core/storage.py:177-198 | there is no key to delete exactly if showing leaves the normal form as it is; otherwise the key is the normal form |
| Storage.CandidatesNormalize | app/core/asset_refs.py:115-118 | the key behind any bucket prefix that no earlier prefix shadows is looked for and stands for the key |
| Storage.SeenIff | app/core/asset_refs.py:115-118 | of the texts that stand for a key the scan looks for exactly those without surrounding space that are the key or start with a prefix in its very spelling |
| Storage.SpacedIsUnseen | app/core/storage.py:147-150 | every key after a space stands for the key and is not looked for |
| Storage.OtherCaseIsUnseen | app/core/storage.py:120-130 | so does every key behind a prefix in a letter case that is not configured |
| AssetRefs.StaleFormNeverApplies | app/core/asset_refs.py:60-90 | of two forms opened on one image the second never replaces what the first applied, if it reads the row after the first has committed |
| AssetRefs.BothFormsApply | app/core/asset_refs.py:166-201 | two forms that read the row before either commits are both applied, and the last to commit wins |
| AssetRefs.IgnoredFormRestores | app/api/v1/sales/service.py:103-152 | a payment method's form whose image is ignored writes the image it has read with its other fields, and so undoes one that was saved in between |
| AssetRefs.IsKeyReferenced | app/core/asset_refs.py:121-151 | the four reads find the key exactly when a row of some source mentions it |
| AssetRefs.Assets.LockKey | app/core/asset_refs.py:154-163 | the key's lock belongs to the transaction, other locks are as before |
| AssetRefs.Assets.ResolveImageChange | app/core/asset_refs.py:60-90 | an image that is new is applied exactly when it is acceptable, meant (a creation, or the base is the current one) and there; ignored exactly when acceptable and not meant; refused otherwise; the lock is kept exactly for a key that was seen in the store |
| AssetRefs.CreationCommits | app/api/v1/products/service.py:131-135 | a creation with a valid key whose object is there and whose lock is free has a run that ends with the new row, whatever else is under way |
| AssetRefs.PlainCreationCommits | app/core/asset_refs.py:76-90 | a creation without an image, or with an address of another origin, takes no lock and ends with the new row |
| AssetRefs.TransactionsEnd | app/core/asset_refs.py:128-201 | a transaction gives up exactly for a key of another shape or place, an object that is missing or not answered for, a reference found, or a failure; then it changes nothing, and it keeps its locks until it ends and returns them all |
| AssetRefs.Assets.DeleteIfUnreferenced | app/core/asset_refs.py:204-224 | undisturbed: says it deleted exactly when no source mentions the key, deletes then unless the store fails, and always gives the lock back |
| AssetRefs.DeletionIsARun | app/core/asset_refs.py:204-224 | that deletion is a run of the interleaved model |
| AssetRefs.StepKeeps | app/core/asset_refs.py:154-224 | every step of saves, receipts, uploads, removals and deletions keeps the invariant that locks and scans maintain |
| AssetRefs.ScanMissesNothing | app/core/asset_refs.py:129-151 | a read that finds nothing leaves no row of its source that mentions the key |
| AssetRefs.DeleteKeeps | app/core/asset_refs.py:215-219 | an object deleted after four separate empty reads is needed by no row and no uncommitted write |
| AssetRefs.NoDanglingReference | app/core/asset_refs.py:166-224 | from a start in which every row that may be rewritten without a lock stands for an existing object that is never deleted, no interleaving leaves a committed reference of a business to its own key without the object; for clients whose new addresses are admitted, which `AddressIff` shows to be needed |
| AssetRefs.SafeIff | app/api/v1/products/service.py:202-206 | and from any other start some run does: product and logo rows in another spelling, however often it takes to normalise it, and payment methods are exactly what matters, whatever else the database holds |
| AssetRefs.AddressIff | app/core/asset_refs.py:60-90 | a new address that passes as one of another origin is applied without check; later runs then stay safe exactly when it does not settle on a key of the row's business, or on one whose object exists and is never deleted |
| Storage.SettledIsFixed | app/core/storage.py:133-150 | normalising a reference again and again ends, in a form that normalising leaves as it is |
| AssetRefs.DoubledPrefixDangles | app/core/storage.py:133-150 | such an address exists for every key: with a bucket prefix sent twice, from every start with a product or logo row some run leaves it naming any missing object of its business |
| AssetRefs.ImageIsLostIff | app/core/asset_refs.py:121-151 | a product, receipt or logo row can lose its object while it stays, in some run, exactly when its spelling is none the scan looks for |
| Stock.Kardex.RecordMovement | app/inventory_engine/stock.py:39-90 | which of the errors is given, in order; a refusal changes nothing; otherwise stock, ledger row and signed effect |
| Stock.Kardex.ApplyAdjustment | app/inventory_engine/stock.py:93-122 | the same for signed adjustments, whose row keeps the magnitude |
| Stock.Kardex.ApplyLines | app/api/v1/orders/consumption.py:137-144 | lines applied one after another succeed or stop as the specification says |
| Stock.OutsSucceedIff | app/inventory_engine/stock.py:58-78 | taking lines out one by one succeeds exactly when every quantity is positive, every item exists and the aggregate of each item fits; the result is the stock less the aggregate |
| Stock.OrderIsIrrelevant | app/inventory_engine/stock.py:70-78 | any order of the lines gives the same success and the same stock |
| Stock.CheckAvailability | app/catalog_engine/pricing.py:247-268 | finds a short item exactly when some existing item lacks a positive requirement |
| Stock.CheckPredictsDeduction | app/catalog_engine/pricing.py:247-268 | the deduction succeeds exactly when the check passes, items exist and quantities are positive |
| Stock.LedgerConservation | app/inventory_engine/stock.py:58-122 | after any calls each item's stock is its initial stock plus ins, minus outs, plus signed adjustments, and every row can be stored |
| Stock.StockStaysNonNegative | app/inventory_engine/stock.py:72-78 | stock starting at zero or more stays there while nobody allows a negative one |
| Stock.InsRefusedIff | app/api/v1/orders/consumption.py:147-169 | an incoming movement is refused for lack of stock exactly when the stock is below minus its quantity |
| Stock.DeductAndReverseCancel | app/api/v1/orders/consumption.py:126-169 | in any run, lines taken out and the same lines put back in any order leave every item where the other calls alone have moved it, and putting back is never refused |
| RowLocks.CanonicalOrder | app/inventory_engine/stock.py:27 | the lock order lists each requested id once, ascending, and no other |
| RowLocks.OneOrderPerSet | app/inventory_engine/stock.py:17-36 | ascending lists of the same items are equal, so two requests for the same items lock them in the same order |
| RowLocks.RelockChangesNothing | app/inventory_engine/stock.py:66-68 | the row lock of a movement is already held |
| RowLocks.LockItemsNeverDeadlocks | app/inventory_engine/stock.py:17-36 | in every reachable state of any transactions of one `lock_items` call each, the wait-for relation has no cycle and, unless all are done, one can go on |
| RowLocks.ClimbingNeverDeadlocks | app/inventory_engine/stock.py:17-36 | the same for transactions of any number of calls, if each asks for nothing anew that is smaller than what it took before |
| RowLocks.DeadlockIff | app/api/v1/inventory/service.py:71-85 | transactions that take their locks in some given order, as a purchase does, can get into a deadlock beside one-call transactions exactly when that order does not climb |
| RowLocks.TwoCallsClimbIff | app/api/v1/orders/consumption.py:56-68 | two calls, over some items and then over others, climb exactly when every item of the second that is not in the first is larger than all of the first |
| RowLocks.VoidingCanDeadlockIff | app/api/v1/orders/kitchen.py:134-168 | so voiding a line with a replacement can deadlock exactly when that fails |
| RowLocks.EveryoneCanFinish | app/inventory_engine/stock.py:17-36 | from every such state all transactions can be brought to their end |
| RowLocks.UnorderedCanDeadlock | app/inventory_engine/stock.py:20-25 | without the common order two transactions over any two items can block each other for good |
| OptionSelection.DiscountingAgrees | app/catalog_engine/pricing.py:67-102 | both places that ask which groups move stock agree |
| OptionSelection.Separate | app/catalog_engine/pricing.py:158-172 | the loop splits choices into counted options, units per option and unit problems |
| OptionSelection.CheckCardinality | app/catalog_engine/pricing.py:178-196 | the two loops name exactly the groups whose cardinality rule is broken |
| OptionSelection.CheckCaps | app/catalog_engine/pricing.py:201-215 | the loop reports nothing exactly when every choice is within the caps of its group |
| OptionSelection.ValidateOptionSelection | app/catalog_engine/pricing.py:105-244 | returns normally exactly when the hard rules hold and every cardinality rule does, of all groups or, with the strict flag off, of the offered groups that move stock; and reports only groups that break a rule |
| OptionSelection.LoadValidOptions | app/catalog_engine/pricing.py:37-64 | succeeds exactly for distinct, existing, active options that the variant, if given, accepts |
| OptionSelection.StrictIsStricter | app/catalog_engine/pricing.py:220-228 | the flag only ever rejects more, and nothing when all chosen groups are offered and all offered groups move stock |
| OptionSelection.AcceptsByPart | app/catalog_engine/pricing.py:158-228 | a selection is accepted exactly when its offered part is, the rest keeps units and caps, and, under the strict flag, the rest is all of quantity groups |
| OptionSelection.UnofferedChoiceIff | app/catalog_engine/pricing.py:162-165 | to an accepted selection a choice of a group that is not offered can be added exactly within the caps of a quantity group, or, with the flag off, as one unit of a counted group |
| OptionSelection.OnePickMore | app/catalog_engine/pricing.py:178-196 | below its maximum a counted group allows every further pick; a pick can be dropped again when the minimum is zero or still reached, and never in a mandatory group that moves stock |
| Consumption.UnofferedTakesStock | app/catalog_engine/pricing.py:117-119 | with the flag off such a counted option with its own consumption is accepted in any accepted selection and takes its quantity per unit sold |
| Consumption.PlanLineConsumption | app/catalog_engine/consumption.py:94-149 | the loops emit the recipe lines, then one line per linked option with the quantity of size or option, once per line or per unit; of each item they take exactly its `Amount` |
| Consumption.RequiredConsumption | app/catalog_engine/consumption.py:152-161 | the accumulated dictionary is the plan added up, and has the `Amount` of each item |
| Consumption.RecipeTakesExactly | app/catalog_engine/consumption.py:114-117 | without options a line takes of an item the sum of its recipe rows, times the units |
| Consumption.OneMoreOptionTakes | app/catalog_engine/consumption.py:124-147 | one more linked option takes of its item the size's quantity if that is positive, else its own, times the chosen quantity, times the units unless it is once per line, and nothing of other items |
| Consumption.PlanListsRecipe | app/catalog_engine/consumption.py:114-117 | the recipe's rows come first, one line each, in order, marked as recipe |
| Consumption.AddUpAggregates | app/catalog_engine/consumption.py:152-161 | the dictionary holds the total of each item of the plan and of no other, and is empty only for an empty plan |
| Consumption.PlanIsStable | app/catalog_engine/consumption.py:105-149 | edits of prices, pricing type, bounds, names or active flags, and another row order, leave the planned lines the same |
| Consumption.ReverseUndoesDeduct | app/api/v1/orders/consumption.py:126-169 | deducting a line and reversing it after such edits cancel, whatever else happens in between |
| Consumption.AcceptedGroupTakes | app/catalog_engine/consumption.py:119-147 | an accepted selection takes through a counted group at most its maximum times the size's quantity per unit, and exactly that when the group is mandatory and its options have an item |
| Consumption.TakenIsPlanned | app/catalog_engine/consumption.py:124-147 | what is taken through a group is the quantity of the lines planned for its choices |
| Consumption.PlanScales | app/catalog_engine/consumption.py:112-147 | of any item a line of n units takes n times what one unit takes without its once-per-line options, plus what those take once |
| Consumption.PlanIsPositive | app/catalog_engine/consumption.py:114-147 | planned lines are positive when recipe, sold and chosen quantities are |
| Consumption.EnsureLinesConsumeInventory | app/catalog_engine/consumption.py:203-270 | passes exactly when every tracked line moves something; otherwise names exactly the unconfigured lines, or, if there are none, exactly the configured ones |
| Consumption.MovesNothingIff | app/catalog_engine/consumption.py:220-227 | a tracked line moves nothing exactly when it has no recipe and no chosen option is linked with a positive quantity |
| Consumption.ChosenYetReportedAsNotChosen | app/catalog_engine/consumption.py:228-234 | a configured line with a chosen option can move nothing |
| Consumption.DeductEach | app/api/v1/sales/consumption.py:66-74 | a batch succeeds exactly when its aggregate fits, and then takes exactly that |
| Consumption.DeductBatch | app/api/v1/orders/consumption.py:71-86 | the guarded batch is blocked exactly when some line moves nothing, and otherwise done exactly when the aggregate fits; it takes of each item the sum of the lines' `Amount` |
| Prices.ComputeUnitPrice | app/catalog_engine/core.py:54-62 | the loop adds the extras of the options without the once-per-line mark |
| Prices.ComputeAddonsTotal | app/catalog_engine/core.py:65-72 | the loop adds the extras of the marked options |
| Prices.MarkSaves | app/catalog_engine/core.py:75-90 | the mark lowers a line's total by the marked extras of all units but one |
| Prices.OneMoreOptionCosts | app/catalog_engine/core.py:54-80 | one chosen option adds its extra times its chosen quantity to a line, for every unit, or once if marked; without options a line costs its price per unit |
| DinerWindow.StepKeeps | app/core/qr_context.py:114-214 | every join, request, departure, closing and sweep keeps the window within the slack of the last activity, and open diners in active sessions |
| DinerWindow.SweepSparesActivity | app/core/scheduler.py:65-86 | a session is not swept while an open diner was active within the limit less the slack |
| DinerWindow.SweepTakesIdle | app/core/scheduler.py:48-86 | a session without orders whose diners were all idle for the limit is selected, closed, and left by all of them |
| DinerWindow.SlackMustNotExceedLimit | app/core/config.py:36-40 | in every run a diner active at this very moment keeps the table, exactly when the slack does not exceed the inactivity limit (itself below both session limits) |
| DinerWindow.WritesAreSpaced | app/core/qr_context.py:128-132 | n writes of a diner's window span at least n - 1 times the slack |
| DinerWindow.ListeningNeverExtends | app/core/qr_context.py:136-142 | a request that does not count as activity moves no window |
| DinerWindow.TokenDiesForGood | app/core/qr_context.py:144-208 | once its session or diner is closed or the absolute limit has passed, a token is never let in again, in any run |
| DinerWindow.WindowDecides | app/core/qr_context.py:188-214 | in every run a diner whose last activity is a window ago or more is never let in, moves no window and is closed; one active within the window less the slack is let in until the absolute limit |
| DinerWindow.TableIsKeptOrFreed | app/api/v1/table_sessions/service.py:88-136 | in every run, when a diner leaves or is turned away as expired, the session stays exactly if somebody else is in it or there is something to charge, and nobody else is touched |
| DinerWindow.TableHasOneSession | app/api/v1/cart/service.py:90-106 | no run of joins, closings and sweeps leaves two active sessions on a table, also when several scans find none before the first inserts one and the index turns the others away |
| DinerWindow.ScanSeats | app/api/v1/cart/service.py:90-106 | a scan seats one new open diner with a full window in the active session of the table, or in a new one if it has none, and touches nobody else |
| DinerWindow.NewcomersSit | app/api/v1/table_sessions/service.py:475-512 | in every run only a scan or staff adds a diner, one at a time, open and in an active session; staff's has no window and no cart |
| DinerWindow.SweepSparesOrders | app/core/scheduler.py:84-86 | in every run, a session with something to charge is not selected and stays as it is |
| DinerWindow.ClosedForGood | app/core/qr_context.py:77-97 | in every run, no step opens a closed diner again or changes anything of him; one who is closed keeps his seat and window, has no open cart, and was closed at that moment |
| DinerWindow.ClosingEmptiesTable | app/api/v1/orders/checkout.py:976-1005 | in every run, closing a table ends its sessions and sends away exactly their diners |
| DinerSessions.Hall.CloseParticipant | app/core/qr_context.py:77-97 | status, first closing time and cart of one diner |
| DinerSessions.Hall.CloseTableSessions | app/api/v1/orders/checkout.py:976-1005 | the nested loops close the table's active sessions and exactly their open diners |
| DinerSessions.Hall.TryReleaseIfEmpty | app/api/v1/table_sessions/service.py:88-136 | the table is closed exactly when nobody is open in the session and nothing is to be charged |
| DinerSessions.Hall.OpenSessionContext | app/core/qr_context.py:170-222 | answer and new state of the chain of checks, abandonment and refresh; a diner idle for the window is turned away and closed, one who is present is let in |
| DinerSessions.Hall.AbandonedWithoutOrders | app/core/scheduler.py:48-86 | the query and filter select exactly the abandoned sessions, in order |
| DinerSessions.Hall.Sweep | app/core/scheduler.py:103-166 | closing them one after another is the model's sweep |
| RateLimit.FixedWindowBound | app/core/rate_limit.py:36-43 | in any interval of the length of the window, ends included, at most twice the limit is admitted on a key, with INCR and EXPIRE of different requests interleaved and EXPIRE possibly lost |
| RateLimit.TwiceTheLimitIsReached | app/core/rate_limit.py:36-43 | for every limit some run admits exactly twice the limit in such an interval |
| RateLimit.LostExpiryLocksOut | app/core/rate_limit.py:40-42 | without its EXPIRE a key admits the limit once and nothing ever after |
| RateLimit.Limiter.Hit | app/core/rate_limit.py:36-43 | the count told and the counter left |
| RateLimit.Limiter.Enforce | app/core/rate_limit.py:46-67 | refused exactly when one of the two counts is over; a request refused by its address leaves the table's counter alone |
| RateLimit.CountedIsARun | app/core/rate_limit.py:40-43 | an undisturbed hit is a run of the interleaved model |
| RateLimit.SortedSet.EnforceSlidingWindow | app/core/rate_limit.py:82-96 | prune, count, and add only when let in |
| RateLimit.BlocksExactlyAtTheLimit | app/core/rate_limit.py:74-96 | after any calls one after another the next is blocked exactly when the limit was admitted in the window that ends now: neither pruning nor EXPIRE took an entry still inside |
| RateLimit.SlidingWindowBound | app/core/rate_limit.py:74-96 | such calls admit at most the limit in any half-open interval of the window's length |
| RateLimit.ArrivedExpiryReopens | app/core/rate_limit.py:40-43 | once its EXPIRE has arrived the first hit a window later counts one again, whatever came in between |
| RateLimit.ConcurrentBound | app/core/rate_limit.py:82-96 | with at most k callers between look and add at any time, at most limit + k - 1 are let in in any half-open interval of the window's length |
| RateLimit.ConcurrentBoundIsReached | app/core/rate_limit.py:84-95 | for every limit and every k some run lets in exactly that many |
| PlanLimits.CountResource | app/core/plan_limits.py:51-73 | the number of rows that count, plus, for users, of pending invitations |
| PlanLimits.EnforcePlanLimit | app/core/plan_limits.py:97-123 | undisturbed: refused as expired exactly after the due date, and otherwise allowed exactly below the limit or without one |
| PlanLimits.QuotaHolds | app/core/plan_limits.py:97-123 | in every run usage, with pending invitations, exceeds the limit by at most the rows switched back on, and never for what cannot be switched |
| PlanLimits.StepCounts | app/core/plan_limits.py:51-73 | creations, invitations, consumed and cancelled ones, deletions and switching change rows and invitations so that the counted numbers are those of the run |
| PlanLimits.QuotaOfRecords | app/core/plan_limits.py:97-123 | so the quota holds, in every run, of what is counted in the tables |
| PlanLimits.CreationGoesThrough | app/core/plan_limits.py:107-119 | alone and below the limit, with pending invitations counted, a creation succeeds |
| PlanLimits.LoneCreation | app/core/plan_limits.py:97-123 | alone, a creation or an invitation adds its row exactly if the plan has not expired and has no limit or room below it; otherwise it leaves no trace |
| PlanLimits.SwitchingOnPassesTheLimit | app/api/v1/sales/service.py:230-243 | for every limit and every n, n reactivations at the limit end n above it; from any limit above one that is reached by switching n rows off and creating another for each, which is refused for the last row on |
| PlanLimits.WithoutTheForeignKeyLock | app/api/v1/auth/routes.py:99-133 | for every limit, if a new user did not lock the business row, a run would end one above it; with the lock that run is not possible |
| PromotionRules.Schema.MigrateRules | alembic/versions/3ad34a2b8146_063c_promociones_reglas_aditivo.py:115-153 | the loop leaves one new rule per promotion with its terms, and each variant pointing to its promotion's |
| PromotionRules.Schema.Flatten | alembic/versions/94b7e35f5e5e_063d_promociones_reglas_destructivo.py:103-160 | the loop restores terms exactly for promotions with one rule and owners for all variants |
| PromotionRules.OneRuleEach | alembic/versions/3ad34a2b8146_063c_promociones_reglas_aditivo.py:140-153 | after the migration a promotion's only rule has its terms |
| PromotionRules.MigratedIsModern | alembic/versions/94b7e35f5e5e_063d_promociones_reglas_destructivo.py:173-208 | the second migration's NOT NULL and drops find what they need |
| PromotionRules.UpAndDownRestoresTerms | alembic/versions/94b7e35f5e5e_063d_promociones_reglas_destructivo.py:132-138 | up and down again restores the promotions with every type, value and minimum |
| PromotionRules.UpAndDownRestoresOwners | alembic/versions/94b7e35f5e5e_063d_promociones_reglas_destructivo.py:138-142 | and every variant as it was, with its promotion, but for the rule column; no row is lost or added |
| PromotionRules.FlattenIsExactIff | alembic/versions/94b7e35f5e5e_063d_promociones_reglas_destructivo.py:103-160 | of any migrated database, the terms of a promotion come back, those of its rule, exactly when it has one rule |
| PromotionRules.FlattenedIsFlatIff | alembic/versions/94b7e35f5e5e_063d_promociones_reglas_destructivo.py:103-160 | the downgrade gives the schema from before, with terms for every promotion, exactly when every promotion has one rule |
| PromotionRules.DownAndUpRestores | alembic/versions/3ad34a2b8146_063c_promociones_reglas_aditivo.py:115-153 | then going up again is possible and gives each variant a rule of the same promotion with the same terms |
| PromotionRules.UniquenessCarriesOver | alembic/versions/94b7e35f5e5e_063d_promociones_reglas_destructivo.py:178-186 | after the migration, uniqueness by rule says what uniqueness by promotion said |
| PromotionRules.DowngradeConstraintIff | alembic/versions/94b7e35f5e5e_063d_promociones_reglas_destructivo.py:249-253 | the downgrade's unique constraint holds exactly when no promotion has one product in two of its rules |
| PromotionWriters.FindShared | app/api/v1/promotions/service.py:563-593 | the guard's two loops find nothing exactly when no two rules of the payload share a product, and otherwise the first pair that does |
| PromotionWriters.GuardedRows | app/api/v1/promotions/service.py:563-593 | what the guard checks before there are rows holds of the rows exactly then |
| PromotionWriters.Session.ApplyVariantSet | app/api/v1/promotions/service.py:773-793 | writes one row per product, or nothing if one of them is not in the catalog |
| PromotionWriters.Session.AddRules | app/api/v1/promotions/service.py:796-808 | the loop writes exactly the rows of the payload, or reports a product that is not in the catalog |
| PromotionWriters.Session.Create | app/api/v1/promotions/service.py:811-829 | which refusal comes first; a refused request changes nothing, another adds the promotion with the rows of its payload |
| PromotionWriters.Session.UpdateShape | app/api/v1/promotions/service.py:863-886 | the same, in draft or paused only: the rules that were read go, with their rows, and those of the payload come |
| PromotionWriters.ChangeReadsBack | app/api/v1/promotions/service.py:874-879 | read back, the database has a new rule with the terms and exactly the products of each rule of the payload, none of those that were read, and all else as before |
| PromotionWriters.WritesAreSteps | app/api/v1/promotions/service.py:811-886 | what the two methods write are steps of the interleaved runs: one rule per rule of the payload, one row per product of it, nothing else, under new ids |
| PromotionWriters.StepIff | app/api/v1/promotions/service.py:811-978 | creating, copying, deleting and every clear change of rules keep the rules of each promotion disjoint; a change that is not clear breaks it |
| PromotionWriters.AlwaysRestorableIff | app/api/v1/promotions/service.py:863-886 | in every run the downgrade's constraint could be put back at any time exactly when every change of rules found no product of its payload in a rule it had not read |
| PromotionWriters.SerialRunsAreRestorable | app/api/v1/promotions/service.py:563-593 | that is so in every run in which each change of rules writes right after it read |
| PromotionWriters.MigratedIsGood | alembic/versions/94b7e35f5e5e_063d_promociones_reglas_destructivo.py:173-208 | and such runs can start from what the migration leaves |
| PromotionWriters.TwoChangesCollideIff | app/api/v1/promotions/service.py:874-879 | two changes of one promotion that both read first leave the rules of both, and the constraint can be put back exactly when they share no product |
| PromotionWriters.SentTwiceCollides | app/api/v1/promotions/service.py:874-879 | so any payload with a rule, sent twice to any promotion, leaves a database that keeps the new schema and cannot get the old constraint back |

## Left out

- Payloads of events are opaque text; unreadable JSON, failures of Redis and the fail-open branches of the bus and the rate limits are not modelled, except failing reads of the bus.
- asyncio runs nothing between the release of the bus lock in `_stop_after_linger` and the cancellation that follows it, because nothing is awaited there; the model takes that as given for a reader that resumes.
- One `start … aclose` lifetime of one process; other processes appear only as writers of the streams.
- Waiting for cancelled tasks and closing the connection in `aclose`.
- Letter case is modelled for the 26 Latin letters only; the existence of the bucket prefixes is a parameter, each with a scheme.
- `AssetRefs` lets a deletion start at any time with any key its folder allows, lets any row be removed at any time and lets later commits overwrite earlier ones; row locks of the ORM would only exclude runs. Hash collisions of advisory locks are covered by an arbitrary hash. On databases other than PostgreSQL the lock does nothing and the results do not apply.
- AssetRefs.DoubledPrefixDangles: payment methods, whose fields are normalised twice before they are checked and once before they are stored, are not covered.
- Stock.Kardex.RecordMovement: overflow of NUMERIC(12, 3) and the descriptive columns of a ledger row are not modelled.
- RowLocks: locks on other rows, and the shared locks that foreign keys of inserted rows take on items, are not modelled; nor is that PostgreSQL ends a deadlock by aborting a transaction.
- OptionSelection.ValidateOptionSelection: problems are kinds of problem per group, not message texts.
- Consumption: options are given with their rows; how sales read them from a snapshot, and options deleted in the meantime, are not modelled. A change of the tracking flag, recipe, size quantity or linked item between deduct and reverse is outside `SameForPlan`.
- DinerWindow.TableHasOneSession: a scan that found a session which is closed before its diner is inserted is not modelled; the diner would be open in a closed session, where no request of his is let in.
- DinerWindow: signatures and expiry of tokens, the six-hour criterion of the sweep, the status of the table row, deletion of orphan carts and notifications; each request and each sweep is one step.
- RateLimit.Limiter.Enforce: how the client address is found.
- RateLimit.ConcurrentBound: the clock is read at the moment of the look; a delay between the two is not modelled.
- PlanLimits: lowering the limit, and access to modules by plan; creations that lock, count and insert in several transactions.
- PromotionRules: the other columns, CHECK constraints and the SQL that changes the schema; the three columns of terms are set and dropped together.
- PromotionWriters: the guards on prices and on other promotions are one given answer per request; a copy reads its source in one step; a promotion may be changed in a run whatever its status, which only admits more runs; ids are drawn in order.
- Cart and order services, checkout, promotion evaluation and notification are not part of this model; `has_billable_orders` is an arbitrary answer per session.
