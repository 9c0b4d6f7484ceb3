# Common Event Service: a verified model

The broker inside OpenHarmony's Common Event Service takes published events and brings them to their subscribers.
This project models its five stateful parts in Dafny 4.11 and proves what they promise, for every input, every run
and every interleaving the model has.

Verify everything with `dafny verify dfyconfig.toml`.

## The parts

**Ordered events.** `CommonEventControlManager` keeps a queue of records and brings each to its receivers one at a
time, with a timer, a result chain and a way to abort. Two serial task queues share it. `OrderedDispatch.dfy` is a
labelled step system in which whatever the other queue can observe in between is a step of its own; publication, finish,
unsubscription, the next-event task and the timeout interleave freely. `OrderedProgress.dfy` holds the invariant,
`OrderedHistory.dfy` ties the state to the log of what was observed, and `OrderedGuarantees.dfy`, `OrderedWakeUp.dfy`,
`OrderedAborts.dfy`, `OrderedLateFinish.dfy`, `OrderedAtomicFinish.dfy`, `OrderedDelivery.dfy`, `OrderedTimeout.dfy`,
`OrderedLatency.dfy`, `OrderedQuiescence.dfy` and `OrderedOutcomes.dfy` hold the promises.
`OrderedTasks.dfy` gives each whole task as a function and proves it a run of the step system;
`CommonEventControlManager.dfy` is the manager itself, with records on the heap, each method proved against those
functions.

**The subscriber registry.** `SubscriberTable.dfy`, `SubscriberUpdate.dfy`, `SubscriberQueries.dfy` and
`SubscriberRegistry.dfy` prove when the list of subscribers, the index from event to subscribers and the count per
process agree through any run of its operations, and that the index finds what a scan would.
`CommonEventSubscriberManager.dfy` is the manager itself. `SubscriberFilter.dfy` is the publisher's filter mask.

**Frozen subscribers.** `FrozenWindow.dfy` says exactly what a buffer of held-back events contains,
`FrozenEvents.dfy` what whole histories leave in the two maps and replay from them, `FrozenReplay.dfy` when a replay
repeats itself, and `UnorderedNotification.dfy` is the unordered notification that fills them.

**Static subscribers.** `StaticConnections.dfy` and `AbilityManagerHelper.dfy` are the delayed disconnect;
`DisableTable.dfy` and `StaticSubscriberManager.dfy` the switched-off events.

**Publication.** `PublishManager.dfy` is the flood check; `Parcels.dfy` and `ParcelObjects.dfy` the wire forms.

## What turned out not to hold

The expectation comes first, then the concrete case that breaks it and the theorem that says, for every run or input,
exactly when it is met.

- *An IDLE front record is woken at once.* FinishReceiver reads the record's state outside the lock, and a finish that
  reads RECEIVING and updates after the call has stored RECEIVED leaves the record to the timer
  (`OrderedWakeUp.StaleReadHappens`). It holds exactly without an update after a stale read
  (`OrderedWakeUp.PromptExactly`).
- *No receiver is called after an abort.* The next one may have been chosen, or stored and not called yet, when the abort
  arrives (`OrderedAborts.AbortOvertaken`). It holds exactly without an update in that window followed by a call
  (`OrderedAborts.AbortExactly`, `OrderedAborts.CallAfterAbortExactly`). With finishes in one step the window shrinks to
  the gap between the store and the call, and does not close (`OrderedAtomicFinish.AtomicAbortOvertaken`,
  `OrderedAtomicFinish.AtomicAbortsExactly`, `OrderedAtomicFinish.AtomicCallExactly`).
- *A late finish changes nothing.* One that found its record in time is carried out later all the same
  (`OrderedLateFinish.LateFinishAccepted`). The record still waits for the caller exactly if nothing ended the turn
  since (`OrderedLateFinish.LateFinishExactly`).
- *The index and the counts follow a re-subscription.* Fewer copies of an event drop the subscriber from the index
  (`SubscriberUpdate.LostEvent`, `SubscriberUpdate.UpdateIndexedExactly`), a listener that dies between the look-up and
  the update leaves a receiver behind (`SubscriberRegistry.DeadReceiver`, `SubscriberUpdate.UpdateGoneExactly`), and
  another process leaves the counts behind (`SubscriberRegistry.CountLeftBehind`,
  `SubscriberUpdate.UpdateCountedExactly`). Over whole runs: `SubscriberRegistry.RunExactly`.
- *Compaction does not show.* A subscriber that lists an event twice is sent it twice afterwards
  (`SubscriberQueries.FoundTwice`, `SubscriberQueries.CompactExactly`, `SubscriberQueries.CompactedReceives`).
- *The subscriber limit is a cap* (`SubscriberRegistry.LimitIsNoCap`, `SubscriberRegistry.CapExactly`).
- *A buffer spans at most 30 s* (`FrozenWindow.OldEventStays`, `FrozenWindow.WindowIsRecentExactly`).
- *A held event is re-sent once* (`FrozenEvents.SentAgain`, `FrozenReplay.RepeatsExactly`,
  `FrozenReplay.NothingTwiceExactly`).
- *A delayed disconnect loses no event.* The events of an ability that takes 15 s to connect are not delivered when it
  is torn down (`StaticConnections.CachedEventUndelivered`), and are if it connects after all
  (`StaticConnections.ConnectedAfterwards`): `StaticConnections.UndeliveredExactly`. One that connects while it is being
  disconnected loses its queued ones for good (`StaticConnections.ConnectedInTheGap`): `StaticConnections.LostExactly`.
- *Enabling an event enables it.* One that was disabled twice in one list stays disabled (`DisableTable.StillDisabled`,
  `DisableTable.UpdateExactly`).

## Reading the model

- Record identities are positions in the order of publication; listeners are numbers, equal when the remote objects
  are. The clock of the dispatcher is the steady clock in milliseconds, that of the frozen buffers the record time in
  seconds.
- What other threads can observe in between is a step of its own: storing whom a record waits for, calling it and
  storing what came of the call; the timeout's look at the clock and its marking; taking an action off a connection,
  testing and clearing; the look-up and the update of a re-subscription. No time passes inside a step. A sweep of the
  queue is one step: it holds the queue's lock, looks at each record once, and a finish that lands inside it has the
  effect of one before or after it.
- `state.store(SKIPPED)` in the notification code stores the number of RECEIVED, and the model does so.
- Proxies that are dead, calls that fail, subscribers that are frozen, token checks, permission tables, bundle versions
  and the ability manager's answers are inputs of the steps, unconstrained.
- `std::sort`, `std::partial_sort` and `std::set_difference` are modelled by what they promise, ties in any order
  where the library leaves them open.

## Model

| member | source | states |
|---|---|---|
| `OrderedProgress.RunInvariant` | services/src/common_event_control_manager.cpp:485-849 | in every state of every run: the timer flag is up exactly while a timer is queued, the schedule flag only while its task is queued or about to be, a timer implies a front record that has had a turn, only the front record is in flight, and a non-empty queue is about to be looked at or timed |
| `OrderedProgress.DrainPops` | services/src/common_event_control_manager.cpp:626-655 | one sweep pops a prefix of the queue, in order, and nothing else |
| `OrderedProgress.DrainStops` | services/src/common_event_control_manager.cpp:626-655 | a sweep stops at an empty queue, at a record still in flight, or at an IDLE record that is not aborted and has receivers left |
| `OrderedProgress.DrainRecords` | services/src/common_event_control_manager.cpp:657-674 | a sweep changes a record only if it removes it, and removes it only if it is IDLE and exhausted, aborted or overdue |
| `OrderedWakeUp.PromptExactly` | services/src/common_event_control_manager.cpp:803-849 | an IDLE front is woken without the timer in every state of a run exactly when no finish updates its record after a stale read of the state |
| `OrderedWakeUp.NeverStuck` | services/src/common_event_control_manager.cpp:711-759 | with any interleaving a non-empty queue is always about to be looked at or has a running timer, and one whose front record has had no turn is always about to be looked at |
| `OrderedWakeUp.StaleReadHappens` | services/src/common_event_control_manager.cpp:803-822 | a concrete run in which the unlocked read of the state loses the wake-up until the timer |
| `OrderedAtomicFinish.AtomicIsPrompt` | services/src/common_event_control_manager.cpp:803-849 | no lost wake-up: if a finish matches, reads and updates in one step, an IDLE front is always about to be looked at |
| `OrderedAtomicFinish.AtomicAbortsExactly` | services/src/common_event_control_manager.cpp:507-567 | with atomic finishes every abort holds throughout a run exactly if no finish aborts its record after the record has stored that it waits for the caller and before the caller is called |
| `OrderedAtomicFinish.AtomicCallExactly` | services/src/common_event_control_manager.cpp:507-567 | with atomic finishes a receiver of an aborted record is called exactly if such a finish is followed by a call of that record |
| `OrderedAtomicFinish.AtomicAbortOvertaken` | services/src/common_event_control_manager.cpp:507-567 | a concrete run in which an atomic, stale finish aborts a record between the store and the call |
| `OrderedAtomicFinish.AtomicFinishIsTheCallers` | services/src/common_event_control_manager.cpp:388-403 | with atomic finishes an accepted finish is always that of the receiver whose turn it is |
| `OrderedGuarantees.Fifo` | services/src/common_event_control_manager.cpp:471-483 | what has been removed followed by what is queued is what was published, in order |
| `OrderedGuarantees.OneInFlight` | services/src/common_event_control_manager.cpp:596-624 | every record but the front one is IDLE and waits for nobody |
| `OrderedGuarantees.CallsInOrder` | services/src/common_event_control_manager.cpp:507-535 | calls are made in strictly increasing order of record and, within a record, of receiver |
| `OrderedGuarantees.PriorityRespected` | services/src/common_event_control_manager.cpp:413-455 | each call goes to the listener whose turn it is, and never to a higher priority after a lower |
| `OrderedGuarantees.TurnsInOrder` | services/src/common_event_control_manager.cpp:697-709 | turns come to the receivers of a record one by one, none skipped, none repeated |
| `OrderedGuarantees.EveryReceiverHadItsTurn` | services/src/common_event_control_manager.cpp:626-655 | a record removed without abort or overdue has given every receiver exactly one turn |
| `OrderedGuarantees.ResultChain` | services/src/common_event_control_manager.cpp:527-528 | at the moment it is called, a receiver or the final subscriber is given what the last accepted finish of the record left, else what the publisher set |
| `OrderedGuarantees.FinalIsLast` | services/src/common_event_control_manager.cpp:676-695 | the final subscriber is told at most once, and the record calls nobody afterwards |
| `OrderedGuarantees.FinalSubscriberIsTold` | services/src/common_event_control_manager.cpp:596-624 | every removed record with a final subscriber has told it, unless its proxy was dead |
| `OrderedHistory.RunFaithful` | services/src/common_event_control_manager.cpp:596-849 | every event of every run is justified by the history before it, and the records agree with that history |
| `OrderedLateFinish.LateFinishIgnored` | services/src/common_event_control_manager.cpp:388-403 | a finish from a receiver whose turn is over changes nothing |
| `OrderedAborts.AbortExactly` | services/src/common_event_control_manager.cpp:803-849 | aborts hold throughout a run exactly if no update aborts a record whose next receiver has been chosen and not called, or withdraws an abort |
| `OrderedAborts.CallAfterAbortExactly` | services/src/common_event_control_manager.cpp:507-535 | a receiver of a record is called after a finish aborted it exactly if a finish overtook the dispatch of that record and the record went on to call a receiver |
| `OrderedAborts.AbortIsFinal` | services/src/common_event_control_manager.cpp:626-655 | a record whose dispatch no update overtakes calls nobody once it is aborted |
| `OrderedAborts.AbortOvertaken` | services/src/common_event_control_manager.cpp:803-822 | a concrete run in which a receiver is called after an abort was accepted |
| `OrderedLateFinish.LateFinishAccepted` | services/src/common_event_control_manager.cpp:803-849 | a concrete run in which a finish matched in time ends the next receiver's turn |
| `OrderedDelivery.PendingExactly` | services/include/ordered_event_record.h:34-39 | outside the notification of a receiver its delivery state is PENDING exactly if its turn has not come |
| `OrderedDelivery.OnlyFinishChangesResult` | services/src/inner_common_event_manager.cpp:376-400 | skipping, timing out, forcing and unsubscribing leave the result and the abort flag as they were |
| `OrderedTimeout.TimeoutBounds` | services/src/common_event_control_manager.cpp:742-801 | the timer decides to time a receiver out no earlier than TIMEOUT after its turn began and, if punctual, before twice that |
| `OrderedLatency.LeavesInTime` | services/src/common_event_control_manager.cpp:596-759 | with punctual timers and prompt tasks a published event is out of the queue once 2*TIMEOUT has gone by for every receiver of the events queued ahead of it and of its own |
| `OrderedTimeout.BackstopNeverFires` | services/src/common_event_control_manager.cpp:657-674 | with punctual timers and prompt tasks the force-receive backstop never fires and a record with n receivers leaves in less than 2*TIMEOUT*n |
| `OrderedQuiescence.StepsPaidFor` | services/src/common_event_control_manager.cpp:485-849 | from any state of any run on, the steps the dispatcher takes by itself are no more than the work it had and a fixed price for each publication, receiver, finish and passing of time since |
| `OrderedQuiescence.ComesToRest` | services/src/common_event_control_manager.cpp:485-849 | with the clock stopped and nothing asked of it, the dispatcher takes no more steps than the work it has |
| `OrderedQuiescence.RestsExactly` | services/src/common_event_control_manager.cpp:485-849 | it can take a step of its own exactly if a task is queued or under way or the timer is due |
| `OrderedQuiescence.SettledMeans` | services/src/common_event_control_manager.cpp:711-759 | when it rests with a record in the queue, the front record has been dispatched and its timer is running |
| `OrderedQuiescence.ClockReaches` | services/src/common_event_control_manager.cpp:742-759 | every run with punctual timers and prompt tasks can go on, with nothing asked, until the clock reads any given time |
| `OrderedQuiescence.QueueEmpties` | services/src/common_event_control_manager.cpp:626-655 | and until the queue is empty |
| `OrderedQuiescence.LeftBy` | services/src/common_event_control_manager.cpp:626-655 | the queue is empty in every such run once nothing is published any more and 2*TIMEOUT has gone by for every receiver of what was queued |
| `OrderedOutcomes.TurnsMeetOnce` | services/src/common_event_control_manager.cpp:507-567 | in every state of a run each turn so far has met a frozen subscriber, a dead proxy or a call, in the order of the turns, and the calls are those of the turns that met one |
| `OrderedOutcomes.PutAsideExactly` | services/src/common_event_control_manager.cpp:537-551 | the receivers put aside are, in the order of their turns and each once, exactly those whose turn has come and met neither a call nor a dead proxy |
| `OrderedOutcomes.PutAsideNotCalled` | services/src/common_event_control_manager.cpp:507-551 | once put aside for an event, a receiver is never called for it |
| `OrderedOutcomes.InsertionsExactly` | services/src/common_event_control_manager.cpp:537-551 | the insertions into the maps of held events that a run makes are exactly those for the receivers put aside, in the order of their turns |
| `OrderedLateFinish.LateFinishExactly` | services/src/common_event_control_manager.cpp:803-822 | when a finish is carried out the front record still waits for the caller exactly if, since the finish found it, the timer did not give up on it, no sweep found it overdue and its call did not fail |
| `CommonEventControlManager.OrderedEventRecord.PrepareNextReceiverRecord` | services/src/common_event_control_manager.cpp:697-709 | the turn moves to the next receiver and its time starts; the first turn starts the record's time |
| `CommonEventControlManager.OrderedEventRecord.HandleOrderedNotifyResult` | services/src/common_event_control_manager.cpp:569-583 | the state after a call: RECEIVED, with nobody to wait for if the call failed |
| `CommonEventControlManager.OrderedEventRecord.HandleTimeoutReceiver` | services/src/common_event_control_manager.cpp:782-801 | the receiver is marked timed out and the record becomes IDLE |
| `CommonEventControlManager.OrderedEventRecord.FinishReceiver` | services/src/common_event_control_manager.cpp:803-822 | the record becomes IDLE with the finish's result and abort flag |
| `CommonEventControlManager.Manager.SortByPriority` | services/src/common_event_control_manager.cpp:413-455 | the receivers are the matched subscribers rearranged by non-increasing priority |
| `CommonEventControlManager.Manager.ProcessOrderedEvent` | services/src/common_event_control_manager.cpp:413-455 | a publication appends one record and schedules |
| `CommonEventControlManager.Manager.EnqueueOrderedRecord` | services/src/common_event_control_manager.cpp:471-483 | the record joins the end of the queue |
| `CommonEventControlManager.Manager.ScheduleOrderedCommonEvent` | services/src/common_event_control_manager.cpp:485-505 | one ProcessNextOrderedEvent task is submitted unless one is already scheduled |
| `CommonEventControlManager.Manager.SetTimeout` | services/src/common_event_control_manager.cpp:711-729 | the timer is armed once |
| `CommonEventControlManager.Manager.CancelTimeout` | services/src/common_event_control_manager.cpp:731-740 | the timer and its flag go together |
| `CommonEventControlManager.Manager.GetMatchingOrderedReceiver` | services/src/common_event_control_manager.cpp:388-403 | only the front record can match, and only its current receiver |
| `CommonEventControlManager.Manager.Finish` | services/src/inner_common_event_manager.cpp:447-463 | a finish or an unsubscription carries out the step system's match, read, update and submit |
| `CommonEventControlManager.Manager.FinishReceiverAction` | services/src/common_event_control_manager.cpp:824-849 | the next task is submitted exactly if the record was RECEIVED |
| `CommonEventControlManager.Manager.CheckTimeoutForceReceive` | services/src/common_event_control_manager.cpp:657-674 | a record is forced exactly when it is overdue |
| `CommonEventControlManager.Manager.ProcessOrderedEventQueueLocked` | services/src/common_event_control_manager.cpp:626-655 | the loop computes the sweep: the removed prefix and the record to go on with |
| `CommonEventControlManager.Manager.HandleFinalSubscriber` | services/src/common_event_control_manager.cpp:676-695 | the final subscriber is told with the record's result and forgotten |
| `CommonEventControlManager.Manager.NotifyOrderedEvent` | services/src/common_event_control_manager.cpp:507-535 | a frozen receiver is skipped, a dead one skipped over; a live one is stored, called and answered for |
| `CommonEventControlManager.Manager.ProcessNextOrderedEvent` | services/src/common_event_control_manager.cpp:596-624 | the whole task computes the dispatcher's function of the state |
| `CommonEventControlManager.Manager.CurrentOrderedEventTimeout` | services/src/common_event_control_manager.cpp:742-759 | the timer task re-arms for a receiver that has time left and times out any other |
| `OrderedTasks.ProcessNextIsARun` | services/src/common_event_control_manager.cpp:596-624 | the whole ProcessNextOrderedEvent task is a run of the step system |
| `OrderedTasks.TimeoutIsARun` | services/src/common_event_control_manager.cpp:742-759 | the whole timeout task is a run of the step system |
| `OrderedTasks.FinishIsARun` | services/src/common_event_control_manager.cpp:803-849 | the whole finish is a run of the step system |
| `OrderedTasks.PublishIsARun` | services/src/common_event_control_manager.cpp:413-455 | the whole publication is a run of the step system |
| `SortedStrings.DifferenceCounts` | services/src/common_event_subscriber_manager.cpp:337-349 | on sorted lists set_difference cancels one copy for one copy |
| `SubscriberTable.InsertKeeps` | services/src/common_event_subscriber_manager.cpp:276-322 | a new listener keeps list, index and counts in agreement |
| `SubscriberTable.RemoveKeeps` | services/src/common_event_subscriber_manager.cpp:358-397 | a removal keeps them in agreement and leaves no subscriber of the listener |
| `SubscriberTable.InsertEventsAt` | services/src/common_event_subscriber_manager.cpp:400-422 | an insertion appends the record to exactly the lists of its events, unless it is there |
| `SubscriberTable.RemoveEventsAt` | services/src/common_event_subscriber_manager.cpp:424-439 | a removal erases the record from exactly the lists of the events given |
| `SubscriberUpdate.DroppedMeans` | services/src/common_event_subscriber_manager.cpp:335-349 | an event is in a difference exactly if it is listed more often on one side than on the other |
| `SubscriberUpdate.UpdateIndexedExactly` | services/src/common_event_subscriber_manager.cpp:324-356 | the index follows a re-subscription exactly if no event that stays is listed fewer times than before |
| `SubscriberUpdate.UpdateCountedExactly` | services/src/common_event_subscriber_manager.cpp:324-356 | the counts follow a re-subscription exactly if the process is the same |
| `SubscriberUpdate.UpdateGoneExactly` | services/src/common_event_subscriber_manager.cpp:324-356 | if the record has gone between the look-up and the update, the tables agree exactly if it lists no event more often than it did |
| `SubscriberRegistry.DeadReceiver` | services/src/common_event_subscriber_manager.cpp:85-88 | a concrete run in which a listener dies between the two: nobody is subscribed, and an event has a receiver |
| `SubscriberRegistry.CountLeftBehind` | services/src/common_event_subscriber_manager.cpp:324-397 | a concrete run after which nobody is subscribed and a process is still counted |
| `SubscriberUpdate.UpdateExactly` | services/src/common_event_subscriber_manager.cpp:324-356 | the tables agree after a re-subscription exactly under both conditions |
| `SubscriberUpdate.UpdateIsRebuild` | services/src/common_event_subscriber_manager.cpp:324-356 | an update gives each event the members a rebuild would, and leaves all other entries and their order alone |
| `SubscriberUpdate.LostEvent` | services/src/common_event_subscriber_manager.cpp:324-356 | a concrete subscriber that listed an event twice and then once is lost to the index |
| `SubscriberUpdate.DuplicateFreeKeepsCopies` | frameworks/native/src/matching_skills.cpp:70-76 | a list built by AddEvent is always safe to update from |
| `SubscriberQueries.QueryIsScan` | services/src/common_event_subscriber_manager.cpp:495-539 | looking only at the action's index entry finds the same subscribers, each once, as checking all of them |
| `SubscriberQueries.QueryRespectsBoundaries` | services/src/common_event_subscriber_manager.cpp:441-577 | no receiver lies outside its user, its own clone of the application, the bundle or permission it asks for, the system-API rule or the publisher's filter |
| `SubscriberQueries.CompactExactly` | services/src/common_event_subscriber_manager.cpp:1157-1201 | the tables agree after compaction exactly if no live subscriber lists an event twice |
| `SubscriberQueries.CompactedReceives` | services/src/common_event_subscriber_manager.cpp:495-539 | after compaction a subscriber is among the receivers of a publication it accepts once for every time it listed the event |
| `SubscriberQueries.FoundTwice` | services/src/common_event_subscriber_manager.cpp:1157-1201 | a concrete subscriber that lists an event twice is found once before compaction and twice after |
| `SubscriberQueries.CompactCopies` | services/src/common_event_subscriber_manager.cpp:1157-1201 | after compaction a subscriber is in an event's list once for every time it listed it |
| `SubscriberQueries.CompactionIsInvisible` | services/src/common_event_subscriber_manager.cpp:1157-1201 | for every publication compaction leaves the matched records and every process's count as they were |
| `SubscriberRegistry.GetTopSubscriberCounts` | services/src/common_event_subscriber_manager.cpp:1032-1052 | min(k, size) entries of the count table, in descending order, none left out that is larger |
| `SubscriberRegistry.ChosenHasMost` | services/src/common_event_subscriber_manager.cpp:291-296 | at the limit there is a process to choose and none has more live subscribers |
| `SubscriberRegistry.RefusedExactly` | services/src/common_event_subscriber_manager.cpp:65-116 | a subscription is refused exactly if malformed, or new, at the limit and from the chosen process; then no table changes |
| `SubscriberRegistry.CapExactly` | services/src/common_event_subscriber_manager.cpp:276-322 | while the limit stays the same a run keeps to it exactly if no new listener's well-formed subscription meets a full registry and comes from a process other than the one chosen (with a limit of zero: from any) |
| `SubscriberRegistry.LimitIsNoCap` | services/src/common_event_subscriber_manager.cpp:1014-1030 | for every n a run in which the limit is one throughout and n listeners are subscribed |
| `SubscriberRegistry.StepExactly` | services/src/common_event_subscriber_manager.cpp:276-397 | each operation, the update of a record found before something else ran among them, keeps the tables in agreement exactly if it is safe |
| `SubscriberRegistry.RunExactly` | services/src/common_event_subscriber_manager.cpp:276-397 | the tables agree in every state of a run exactly if every operation in it is safe |
| `SubscriberRegistry.PoliteRun` | services/src/common_event_subscriber_manager.cpp:495-539 | with duplicate-free lists and a fixed process per listener, at any time a publication reaches exactly the live subscribers that pass its checks |
| `CommonEventSubscriberManager.Manager.InsertSubscriber` | services/src/common_event_subscriber_manager.cpp:65-116 | inserts, updates or refuses as the table operation says, changing nothing when it refuses |
| `CommonEventSubscriberManager.Manager.InsertSubscriberRecordLocked` | services/src/common_event_subscriber_manager.cpp:276-322 | refused exactly without a record, without events, or at the limit for the chosen process; otherwise all three tables and only they change |
| `CommonEventSubscriberManager.Manager.UpdateSubscriberRecordLocked` | services/src/common_event_subscriber_manager.cpp:324-356 | the record is changed in place and the index moved by the two differences |
| `CommonEventSubscriberManager.Manager.RemoveSubscriberRecordLocked` | services/src/common_event_subscriber_manager.cpp:358-397 | the listener leaves the list, the lists of its events and the count |
| `CommonEventSubscriberManager.Manager.InsertEventSubscribers` | services/src/common_event_subscriber_manager.cpp:400-422 | the loop over the events inserts the record into each list once |
| `CommonEventSubscriberManager.Manager.RemoveEventSubscribers` | services/src/common_event_subscriber_manager.cpp:424-439 | the loop over the events erases the record and drops lists that become empty |
| `CommonEventSubscriberManager.Manager.GetSubscriberRecordsByWantLocked` | services/src/common_event_subscriber_manager.cpp:495-539 | the receivers are the index entry's records that pass all checks, in order |
| `CommonEventSubscriberManager.Manager.GetSubscriberRecords` | services/src/common_event_subscriber_manager.cpp:132-147 | the first screen-off event compacts, once, and the query runs on the compacted tables |
| `CommonEventSubscriberManager.Manager.CompactSubscriberDataStructures` | services/src/common_event_subscriber_manager.cpp:1157-1201 | every record is copied under a new pointer and the tables are rebuilt from the copies |
| `CommonEventSubscriberManager.Manager.UpdateFreezeInfo` | services/src/common_event_subscriber_manager.cpp:780-836 | freezing or thawing changes exactly the live subscribers concerned |
| `SubscriberFilter.CheckSubscriberBySpecifiedUids` | services/src/common_event_subscriber_manager.cpp:457-466 | the search finds a user id exactly if it is listed |
| `SubscriberFilter.ChecksAreRequested` | frameworks/native/src/common_event_publish_info.cpp:139-158 | the bits a subscriber earns are always among those the publisher set |
| `SubscriberFilter.DynamicMatchedMeans` | services/src/common_event_subscriber_manager.cpp:579-625 | AND holds exactly if every requested criterion holds, OR exactly if one does, and no filter matches everyone |
| `SubscriberFilter.StaticMatchedMeans` | services/src/static_subscriber_manager.cpp:282-327 | static subscribers are judged alike without a maximum version; with one AND always fails and OR ignores it |
| `FrozenWindow.WindowIsSuffix` | services/src/common_event_subscriber_manager.cpp:838-873 | with any clock a buffer is the newest events in order, never without the newest |
| `FrozenWindow.WindowIsLongestRun` | services/src/common_event_subscriber_manager.cpp:838-873 | with a monotone clock the buffer is as long as the longest run so far that spans at most 30 s |
| `FrozenWindow.LongestIsUnique` | services/src/common_event_subscriber_manager.cpp:838-873 | so the buffer is determined by the events alone |
| `FrozenWindow.WindowIsRecentExactly` | services/src/common_event_subscriber_manager.cpp:838-873 | with a monotone clock a buffer is just the events within 30 s of the newest, and spans no more, exactly if no longer run of events ever fitted into 30 s |
| `FrozenWindow.OldEventStays` | services/src/common_event_subscriber_manager.cpp:838-873 | a concrete list in which an event more than 30 s older than the newest stays |
| `FrozenEvents.BufferIsWindow` | services/src/common_event_subscriber_manager.cpp:838-1002 | after any history a subscriber's buffer in either map is the window over the events since its last drain |
| `FrozenEvents.BufferIsExact` | services/src/common_event_subscriber_manager.cpp:921-956 | the same told outright: suffix, never empty once fed, longest run if the clock is monotone |
| `FrozenEvents.BufferIsRecentExactly` | services/src/common_event_subscriber_manager.cpp:921-956 | the same for either map after any history |
| `FrozenEvents.OneIsTheEndOfTheOther` | services/src/common_event_control_manager.cpp:246-260 | of a subscriber's two buffers one is always the end of the other |
| `FrozenEvents.EachMapReplaysOnce` | services/src/inner_common_event_manager.cpp:472-496 | without UnfreezeAll each map replays each event at most once, in order, and never one it still keeps |
| `FrozenEvents.ThawedTwice` | services/src/inner_common_event_manager.cpp:472-496 | thawing a process and then its user sends what both maps hold |
| `FrozenEvents.ThawAllKeeps` | services/src/common_event_control_manager.cpp:106-128 | UnfreezeAll sends both maps and clears neither |
| `FrozenEvents.SentAgain` | services/src/inner_common_event_manager.cpp:472-507 | a single held event is sent twice, or four times |
| `FrozenReplay.RepeatsExactly` | services/src/common_event_control_manager.cpp:77-128 | for any two of the maps: one's buffer holds an event the other has re-sent exactly if it is longer than what was held since the other's last replay or drop |
| `FrozenReplay.RepeatsWithoutThawAll` | services/src/inner_common_event_manager.cpp:472-496 | without UnfreezeAll: thawing a process repeats the user's replay exactly if its buffer is longer than what was held since the user's drain, and the other way round |
| `FrozenReplay.NothingTwiceExactly` | services/src/inner_common_event_manager.cpp:472-507 | a whole history sends a subscriber no event twice exactly if no thaw reaches back beyond what neither map has re-sent, and no UnfreezeAll finds it in both maps |
| `UnorderedNotification.Store.Put` | services/src/common_event_subscriber_manager.cpp:845-872 | the append to a subscriber's list drops at most one old event |
| `UnorderedNotification.Store.InsertFrozenEvents` | services/src/common_event_subscriber_manager.cpp:838-873 | the user map gets the event; a null subscriber changes nothing |
| `UnorderedNotification.Store.InsertFrozenEventsMap` | services/src/common_event_subscriber_manager.cpp:921-956 | the process map gets the event; a null subscriber changes nothing |
| `UnorderedNotification.Store.GetFrozenEvents` | services/src/common_event_subscriber_manager.cpp:875-890 | what is held for a user is returned and no longer held |
| `UnorderedNotification.Store.GetFrozenEventsMapByPid` | services/src/common_event_subscriber_manager.cpp:958-973 | what is held for a process is returned and no longer held |
| `UnorderedNotification.Store.RemoveFrozenEventsBySubscriber` | services/src/common_event_subscriber_manager.cpp:908-919 | an unsubscription drops the subscriber's buffers and no other |
| `UnorderedNotification.UnorderedRecord.NotifySingle` | services/src/common_event_control_manager.cpp:212-244 | one receiver is skipped, failed, delivered or put aside, and counted once |
| `UnorderedNotification.UnorderedRecord.NotifyUnorderedEventLocked` | services/src/common_event_control_manager.cpp:191-210 | the three counts add up to the receivers, every index is in range, and exactly the frozen ones are put aside in both maps in order |
| `UnorderedNotification.StatesLineUp` | services/src/common_event_control_manager.cpp:191-210 | delivery states line up with the receivers exactly if null receivers come last |
| `PublishManager.EvictIsRecent` | services/src/publish_manager.cpp:43-51 | dropping expired times from the front drops all of them |
| `PublishManager.Manager.CheckIsFloodAttack` | services/src/publish_manager.cpp:31-58 | a call is flagged exactly if its user made at least 20 calls in the 5 ms up to it |
| `PublishManager.AtMostTwenty` | services/src/publish_manager.cpp:31-58 | calls within 5 ms of each other contain at most 20 accepted ones of a user |
| `PublishManager.TwentyGetThrough` | services/src/publish_manager.cpp:31-58 | and 20 do get through |
| `StaticConnections.RunInvariant` | services/src/ability_manager_helper.cpp:38-168 | in every run a held connection's actions are exactly those of its queued tasks and pending delivery timers, accepted events are delivered or queued in order, and a delivery in the last 15 s has its timer |
| `StaticConnections.TeardownExactly` | services/src/ability_manager_helper.cpp:115-145 | a delayed task that nothing interrupts tears down only with nothing queued and no delivery in the last 15 s, and everything accepted was delivered exactly if the ability had connected |
| `StaticConnections.KeptWhileBusy` | services/src/ability_manager_helper.cpp:115-145 | a delayed task that nothing interrupts keeps the connection exactly if something is queued or another delivery's timer is running |
| `StaticConnections.UninterruptedIsFire` | services/src/ability_manager_helper.cpp:115-145 | taking off the action, testing and clearing one after the other is that task |
| `StaticConnections.RunTest` | services/src/ability_manager_helper.cpp:127-134 | in every run the test finds the actions empty exactly if nothing is queued and no delivery's timer is running |
| `StaticConnections.RunTeardown` | services/src/ability_manager_helper.cpp:115-145 | in every run, whatever runs between the test and the clearing: the connection torn down is finished exactly if the ability was connected at the test, has work outstanding exactly if it connected in between, and has delivered everything it accepted by then exactly if it is connected with nothing queued |
| `StaticConnections.UndeliveredExactly` | services/src/static_subscriber_connection.cpp:24-35 | in every run, at any time after a teardown and before the ability connects after all, everything accepted was delivered exactly if the connection had its proxy and nothing queued when it was cleared |
| `StaticConnections.LostExactly` | services/src/static_subscriber_connection.cpp:48-63 | over whole runs, torn down or not: as many accepted events are neither delivered nor queued nor cached as notify tasks were skipped, so nothing is lost or out of order exactly if none was |
| `StaticConnections.SkippedOnlyWhenGone` | services/src/static_subscriber_connection.cpp:102-109 | and a notify task is skipped only on a connection that was torn down or whose remote object died |
| `StaticConnections.ConnectedAfterwards` | services/src/static_subscriber_connection.cpp:24-35 | a concrete run in which an ability that connects after its connection was torn down is given the cached event |
| `StaticConnections.ConnectedInTheGap` | services/src/ability_manager_helper.cpp:130-141 | a concrete run in which an ability that connects between the test and the clearing loses the event that started it: its task is skipped |
| `StaticConnections.RunHasWork` | services/src/ability_manager_helper.cpp:101-113 | a held connection always has a task or a timer, or is in the hands of a delayed task, and no key has two connections |
| `StaticConnections.CachedEventUndelivered` | services/src/static_subscriber_connection.cpp:37-44 | a concrete run in which an ability that takes 15 s to connect is torn down with the event that started it still cached |
| `AbilityManagerHelper.StaticSubscriberConnection.NotifyEvent` | services/src/static_subscriber_connection.cpp:37-64 | an event is cached before the ability connects, and counted and queued after |
| `AbilityManagerHelper.StaticSubscriberConnection.OnAbilityConnectDone` | services/src/static_subscriber_connection.cpp:24-35 | with a remote object everything cached is counted and queued, in order; without one nothing changes |
| `AbilityManagerHelper.StaticSubscriberConnection.RunTask` | services/src/static_subscriber_connection.cpp:48-63 | a delivery starts its 15 s timer; without a proxy it is skipped |
| `AbilityManagerHelper.StaticSubscriberConnection.RemoveEvent` | services/src/static_subscriber_connection.cpp:66-73 | one copy of the action is taken off |
| `AbilityManagerHelper.Helper.ConnectAbility` | services/src/ability_manager_helper.cpp:38-79 | without an ability manager nothing happens and the call fails; a known key's connection is notified; an unknown one gets a connection with its first timer |
| `AbilityManagerHelper.Helper.TakeOffAction` | services/src/ability_manager_helper.cpp:115-129 | the delayed task up to its test: one copy of its action is taken off a connection that is still held |
| `AbilityManagerHelper.Helper.DisconnectAbility` | services/src/ability_manager_helper.cpp:115-145 | the delayed task with nothing running in between does what the connection's value says and touches no other connection |
| `AbilityManagerHelper.Helper.RemoveConnection` | services/src/ability_manager_helper.cpp:147-168 | the connection leaves the map and loses its proxy; no other is touched |
| `DisableTable.KeyInjective` | services/src/static_subscriber_manager.cpp:614 | no two pairs of user and bundle share a key |
| `DisableTable.CopiesAfter` | services/src/static_subscriber_manager.cpp:609-646 | how often an event is listed after an update |
| `DisableTable.UpdateExactly` | services/src/static_subscriber_manager.cpp:609-646 | an update sets exactly the events it names, unless it enables one listed more often than it is named |
| `DisableTable.StillDisabled` | services/src/static_subscriber_manager.cpp:616-621 | a concrete event still disabled after it is enabled |
| `DisableTable.ReportsLastSetting` | services/src/static_subscriber_manager.cpp:167-181 | without repeated names the table always reports the last setting for bundle, event and user |
| `StaticSubscriberManager.Manager.IsDisableEvent` | services/src/static_subscriber_manager.cpp:167-181 | the verdict is the table's |
| `StaticSubscriberManager.Manager.UpdateDisableEvents` | services/src/static_subscriber_manager.cpp:609-646 | the loop carries out the update on this key only |
| `StaticSubscriberManager.Manager.AddToValidSubscribers` | services/src/static_subscriber_manager.cpp:478-497 | the subscriber is appended unless it is listed |
| `StaticSubscriberManager.Manager.RemoveSubscriberWithBundleName` | services/src/static_subscriber_manager.cpp:520-554 | the bundle's subscribers leave every list and its entry leaves the disable table |
| `StaticSubscriberManager.AddKeepsNoTwins` | services/src/static_subscriber_manager.cpp:478-497 | after an addition the subscriber is listed and no event lists a subscriber twice |
| `StaticSubscriberManager.PurgeExactly` | services/src/static_subscriber_manager.cpp:520-543 | exactly the bundle's subscribers of that user are gone, and no list is empty |
| `Parcels.SkillsRoundTrip` | frameworks/native/src/matching_skills.cpp:162-250 | reading what was written, whatever follows, gives the skills with each string converted there and back, and what follows |
| `Parcels.ReadsAllLists` | frameworks/native/src/matching_skills.cpp:200-250 | skills can be read exactly if all three lists can, and then nothing is left of what was there |
| `Parcels.SkillsSurviveExactly` | frameworks/native/src/matching_skills.cpp:162-250 | skills survive exactly if each of their strings survives conversion |
| `Parcels.SubscribeInfoRoundTrip` | frameworks/native/src/common_event_subscribe_info.cpp:126-213 | the same for subscriptions, with the skills nested |
| `Parcels.SubscribeInfoSurvivesExactly` | frameworks/native/src/common_event_subscribe_info.cpp:126-213 | a subscription survives exactly if its converted strings do |
| `Parcels.SubscribeInfoUnambiguous` | frameworks/native/src/common_event_subscribe_info.cpp:126-213 | no two subscriptions share a wire form unless conversion makes them the same |
| `Parcels.PublishInfoRoundTrip` | frameworks/native/src/common_event_publish_info.cpp:160-262 | the same for publications |
| `Parcels.PublishInfoSurvivesExactly` | frameworks/native/src/common_event_publish_info.cpp:160-262 | a publication survives exactly if its converted strings do |
| `ParcelObjects.MatchingSkills.AddEvent` | frameworks/native/src/matching_skills.cpp:70-76 | the list stays free of duplicates |
| `ParcelObjects.MatchingSkills.RemoveEvent` | frameworks/native/src/matching_skills.cpp:97-103 | one copy of the event goes |
| `ParcelObjects.MatchingSkills.Marshalling` | frameworks/native/src/matching_skills.cpp:162-198 | the object writes its wire form |
| `ParcelObjects.MatchingSkills.ReadFromParcel` | frameworks/native/src/matching_skills.cpp:200-250 | the fields become what the wire form says; if a list cannot be read the call fails with the lists before it replaced and the others as they were |
| `ParcelObjects.CommonEventSubscribeInfo.Marshalling` | frameworks/native/src/common_event_subscribe_info.cpp:126-177 | the object writes its wire form |
| `ParcelObjects.CommonEventSubscribeInfo.ReadFromParcel` | frameworks/native/src/common_event_subscribe_info.cpp:179-213 | the fields become what the wire form says; without readable skills the call fails with the fields before them replaced and the others as they were |
| `ParcelObjects.CommonEventPublishInfo.constructor` | frameworks/native/src/common_event_publish_info.cpp:27-30 | a new publication has no filter |
| `ParcelObjects.CommonEventPublishInfo.SetSubscriberUid` | frameworks/native/src/common_event_publish_info.cpp:88-96 | at most three user ids are kept, the first ones |
| `ParcelObjects.CommonEventPublishInfo.SetSubscriberType` | frameworks/native/src/common_event_publish_info.cpp:103-112 | setting a type always requests the criterion; out of range means everyone |
| `ParcelObjects.CommonEventPublishInfo.Marshalling` | frameworks/native/src/common_event_publish_info.cpp:160-212 | the object writes its wire form |
| `ParcelObjects.CommonEventPublishInfo.ReadFromParcel` | frameworks/native/src/common_event_publish_info.cpp:226-262 | the fields become what the wire form says; a list that cannot be read or a rule that is neither AND nor OR fails the call with the fields before it replaced and the others as they were |
| `ParcelObjects.TransferSubscribeInfo` | frameworks/native/src/common_event_subscribe_info.cpp:126-213 | an object read from what another wrote has its converted value and leaves the rest of the parcel |

## Left out

- Two accesses to the schedule flag from different queues are a data race in the original; the model takes each access
  as one step in some order.
- A call reads the code and the data of its event in one step, and GetMatchingOrderedReceiver reads the current receiver
  in one step; the original does both without the record's lock, so a finish at the same time is a data race there.
- A finish is taken to name a listener: the client turns a null proxy away (`frameworks/core/src/common_event.cpp`,
  line 393), and the service does not look.
- A finish from an earlier record of the same listener is not told apart from one for the current record, as in the
  original.
- Registering for a listener's death, killing the chosen process and reporting it are not modelled, only the choice and
  the refusal.
- AbilityManagerHelper.StaticSubscriberConnection.OnAbilityConnectDone: asks that a call without a remote object finds a
  proxy or no cached event, because the original would append to the list it is walking, which C++ leaves undefined. A
  remote object that is not a static subscriber's is not modelled.
- The two frozen maps are filled in one step for each receiver, and UnfreezeAll reads them in one. A thaw that lands
  between the two fills has the effect of one before or after them; an unsubscription or UnfreezeAll between them, and
  fills of the ordered and the unordered queue that overlap, are not modelled.
- CommonEventControlManager.Manager.NotifyOrderedEvent: does not itself put the event of a frozen receiver into the two
  maps; `OrderedOutcomes.InsertionsExactly` reads the insertions off the run, and the methods of
  `UnorderedNotification.Store` carry such an insertion out.
- Null record pointers inside the tables of the registry are not modelled, because nothing stores one.
- ParcelObjects.CommonEventPublishInfo.ReadFromParcel: does not say what a failed read of the user ids leaves in that
  list, because the parcel library decides it; nor does any read say what follows in the parcel after a failure.
- Parcels are sequences of typed values; their byte layout, alignment and size limits belong to a library.
- The key-value store of the disable table, the JSON profiles of static subscribers and their filters on code and data.
- Sticky events, the client's own listener cap, IPC stubs, proxies and service lookup.
- Dumps, logs, log suppression, event reports and traces.
- The tables of event names and permissions, and the user-id checks of the publishing process.
- The build option that sends screen events through a power-manager plugin.
- Integers are unbounded, except where a conversion decides a comparison: user ids cast to 32 bits signed, the remainder
  of a negative version, and the 16-bit mask.
