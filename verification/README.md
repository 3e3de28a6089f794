# The ROS1-Zenoh bridge, modelled and verified

The bridge connects a ROS1 master to Zenoh. It polls the master for publishers, subscribers and
services, keeps a topic bridge for every topic that either side wants, announces the ROS1 side to other
bridges by beacons on discovery keys, and learns of theirs by listening for beacons. This project models
that logic in Dafny and proves how its parts behave, alone and together.

`dafny verify dfyconfig.toml` checks everything.

| module | what it is about |
|---|---|
| `Wrappers`, `Topics` | values shared by all |
| `AlohaDeclaration` | one declaration of a key: monitor, publishing tasks, shared flag and counter, updated in place |
| `AlohaSubscription` | the subscription's table, updated in place, and every interleaving of its two tasks |
| `AlohaNetwork` | any number of declarations and subscriptions of one key as a timed step system |
| `AlohaGaps` | how long the network can stay silent; what that means for a subscription; the end of a key |
| `AlohaWindow` | runs that show the bounds, and the assumptions, to be necessary |
| `AlohaNeighbour` | which sessions keep a key that is declared all along |
| `AlohaTies` | one publishing task per declaration, and the lone sender |
| `AlohaProgress` | time never stops |
| `AlohaLiveness` | the next beacon comes; a lone sender can be reached |
| `TopicBridges` | one topic's flags, declaration and data bridge |
| `BridgesStorage` | the loops over one kind's bridges |
| `StorageHistory` | the two sets per kind that the storage refines over any history |
| `NodeStorage` | the storage object and its status report |
| `PollLoop` | the poll loop: status callbacks, reports, sleeps |
| `ResourceCache` | the caching resolver |
| `Ros1Client`, `TopicMapping` | the master's state, filtered, and the topic sets read from it |
| `Discovery` | discovery keys and data keys |
| `DiscoveryLink` | from beacons through keys to the storage |
| `ManyBridges` | many bridges, one per master, announcing to each other |
| `TimedBridges` | the same in time, on the ALOHA networks of all keys |
| `TimedProgress` | time goes on there as well, and every run can come to its end |

## How it is modelled

Code that changes state is a class or a method with loops, proved equal to functions of the old state; the
theorems are about those functions over all histories, runs or inputs. Tasks are cut at their awaits, so a
step is what one task does between two awaits. Whatever the code leaves to chance or to others (coin flips,
back-off times, the order of steps due at one instant, network answers, failures, the moment of joins,
drops, polls and remote events) is arbitrary. In the timed system time is counted in nanoseconds, sleeps
are exact, and a put, its delivery and the callbacks take no time. Which session a declaration is made on is
arbitrary; the results that need sessions to differ say so. Only `AlohaTies.OnePublishingTask`, the lone
sender and the way to it need publishing tasks to go before monitors at equal deadlines.

In a history of the storage each operation carries what the network would answer if it were asked during
it; a run of the loop is a sequence of turns, each with the handshakes and remote events processed before it
and whatever happens around each question of its poll. In `ManyBridges` announcements travel as keys in the
air: a declared key is there as long as somebody declares it, and for any time after that, as beacons may
outlive their declarations; a key can be discovered only while it is there, and losses may be reported at any
time. `TimedBridges` replaces the air by one ALOHA network per key, with the declarations and subscriptions
of all bridges, by one accumulating task per bridge that goes through its whole table at once, and by
callbacks that wait for the storages.

## What the proofs found

- The window of three periods is right, and the least possible, as long as declarations are only added:
  the gap between beacons is always less than 3P. When declarations may also be dropped it is not enough:
  a beacon that arrives during a back-off is found after the wait and only cleared a period later, which
  costs a fourth period, and a key that is declared by somebody all along can be reported lost. The least
  safe window is then 4P - 1 ns (`AlohaWindow.WindowWithDropsIsFourPeriods`).
- A subscription on the session of a declarer does not hear that declarer, so it can report lost a key
  whose only sender is its neighbour. This can happen on exactly the sessions on which a declaration of the
  key is made (`AlohaNeighbour.OnlyOnAnotherSession`).
- Restarts share one flag with the task that was stopped before. Two publishing tasks live on exactly if a
  back-off ends, with nothing heard, while the stopped task is still there; that task is then due at the very
  same instant and the back-off drew zero (`AlohaTies.OneTaskIff`, `AlohaTies.OverlapIsATie`,
  `AlohaWindow.TwoPublishingTasks`). It cannot happen if tasks due at one instant run before the monitor.
- Scan and retain take the table's lock separately. A beacon for a key just reported, arriving between the
  two, keeps the key in the table after it was called undeclared, and nothing calls it declared again until
  it is lost once more (`AlohaSubscription.TruthfulIffNoResurrection`,
  `AlohaSubscription.ResurrectionHappens`, `AlohaSubscription.ResurrectedIsUnknown`).
- When the master cannot be read the storage forgets everything, remote topics included, but the
  subscription's table does not. Peers that stay are not discovered again: until such a peer is lost and
  declared anew, the storage does not know it (`DiscoveryLink.StorageAgreesWithTable`,
  `DiscoveryLink.ClearForgetsPeers`).
- A receiver whose bridge namespace is the wild card hears one topic under several keys but keeps one flag for
  it, so the loss of one peer hides another that is still there (`DiscoveryLink.WildcardAgrees`,
  `DiscoveryLink.LossHidesPeer`).
- A topic name of nothing but slashes can be declared, and no receiver's subscription matches its key
  (`Discovery.DeliveredIff`).

## Model

| member | source | states |
|---|---|---|
| `AlohaDeclaration.Declaration.constructor` | zenoh-plugin-ros1/src/ros_to_zenoh_bridge/aloha_declaration.rs:55-80 | a new declaration is running, believes it sends, has heard nothing, and has one publishing task due at once |
| `AlohaDeclaration.Declaration.StartBeaconTask` | zenoh-plugin-ros1/src/ros_to_zenoh_bridge/aloha_declaration.rs:114-127 | raises the flag and adds one publishing task, whatever tasks there are already |
| `AlohaDeclaration.Declaration.StopBeaconTask` | zenoh-plugin-ros1/src/ros_to_zenoh_bridge/aloha_declaration.rs:129-131 | only lowers the flag; the task itself finds out when it wakes |
| `AlohaDeclaration.Declaration.OnRemoteBeacon` | zenoh-plugin-ros1/src/ros_to_zenoh_bridge/aloha_declaration.rs:63-72 | a beacon from another session counts as long as the monitor, and so its listener, lives |
| `AlohaDeclaration.Declaration.MonitorLoopHead` | zenoh-plugin-ros1/src/ros_to_zenoh_bridge/aloha_declaration.rs:82-111 | one pass of the monitor up to its next await: read and clear the counter, stop on a coin flip, begin a back-off, or finish after a drop |
| `AlohaDeclaration.Declaration.MonitorAfterBackoff` | zenoh-plugin-ros1/src/ros_to_zenoh_bridge/aloha_declaration.rs:89-109 | after the wait: restart only if nothing was heard meanwhile, and sleep a full period either way |
| `AlohaDeclaration.Declaration.PublishingTaskTurn` | zenoh-plugin-ros1/src/ros_to_zenoh_bridge/aloha_declaration.rs:133-152 | a waking task puts exactly if the shared flag is up, and otherwise ends |
| `AlohaDeclaration.Declaration.Drop` | zenoh-plugin-ros1/src/ros_to_zenoh_bridge/aloha_declaration.rs:36-40 | a drop clears the running flag and nothing else |
| `AlohaNetwork.RunSound` | zenoh-plugin-ros1/src/ros_to_zenoh_bridge/aloha_declaration.rs:82-152 | in every reachable state of any number of declarations and subscriptions nothing is overdue, nothing is scheduled more than a period (or window) ahead, and flags, tasks and monitors agree |
| `AlohaGaps.OwesStep` | zenoh-plugin-ros1/src/ros_to_zenoh_bridge/aloha_declaration.rs:82-110 | a declaration that stays alive keeps owing a beacon by the same deadline as long as the network is silent, for every coin, back-off and order of steps |
| `AlohaGaps.GapAfterLivingSender` | zenoh-plugin-ros1/src/ros_to_zenoh_bridge/aloha_declaration.rs:82-110 | a beacon whose sender is not dropped is followed by another strictly less than 3P later |
| `AlohaGaps.GapWhileStaffed` | zenoh-plugin-ros1/src/ros_to_zenoh_bridge/aloha_declaration.rs:82-110 | with arbitrary joins and drops, while somebody (not always the same one) is alive, the gap between beacons is at most 4P - 2 ns |
| `AlohaGaps.FirstBeaconAtOnce` | zenoh-plugin-ros1/src/ros_to_zenoh_bridge/aloha_declaration.rs:74-80 | when a declaration joins a key nobody declares, a beacon is put at that very instant, by it or by whoever takes over |
| `AlohaGaps.NeverLostWithoutDrops` | zenoh-plugin-ros1/src/ros_to_zenoh_bridge/aloha_subscription.rs:125-130 | with a window of 3P or more and no drops, no subscription on a session without a declaration of the key ever reports it undeclared |
| `AlohaGaps.NeverLostWhileStaffed` | zenoh-plugin-ros1/src/ros_to_zenoh_bridge/aloha_subscription.rs:171-204 | with drops but always somebody alive, a window of 4P - 1 ns or more never loses the key on such a session |
| `AlohaGaps.SilentAfterLastDrop` | zenoh-plugin-ros1/src/ros_to_zenoh_bridge/aloha_declaration.rs:36-40 | after the last drop, at d, no beacon is put at or after d + 2P, though a back-off under way may still restart sending |
| `AlohaGaps.ForgottenAfterLastDrop` | zenoh-plugin-ros1/src/ros_to_zenoh_bridge/aloha_subscription.rs:182-203 | by d + 8P every subscription's table has dropped the key and its last callback, if any, was "undeclared" |
| `AlohaLiveness.BeaconComes` | zenoh-plugin-ros1/src/ros_to_zenoh_bridge/aloha_declaration.rs:82-152 | where some declaration owes a beacon by a deadline, the protocol's own steps lead to a beacon by then |
| `AlohaLiveness.SuccessorComes` | zenoh-plugin-ros1/src/ros_to_zenoh_bridge/aloha_declaration.rs:82-152 | every run in which a living declaration has just put a beacon goes on, by protocol steps alone, to the next one less than 3P later |
| `AlohaWindow.WindowIsThreePeriods` | zenoh-plugin-ros1/src/ros_to_zenoh_bridge/aloha_subscription.rs:125-130 | without drops a window is safe if and only if it is at least 3P: the runs that defeat every shorter one are given |
| `AlohaWindow.WindowWithDropsIsFourPeriods` | zenoh-plugin-ros1/src/ros_to_zenoh_bridge/aloha_subscription.rs:125-130 | with drops a window is safe if and only if it is at least 4P - 1 ns |
| `AlohaWindow.SourceWindowUnderDrops` | zenoh-plugin-ros1/src/ros_to_zenoh_bridge/aloha_subscription.rs:125-130 | the window the source passes is safe without drops for every P, and under drops only for P = 1 ns |
| `AlohaWindow.SilenceIsTwoPeriods` | zenoh-plugin-ros1/src/ros_to_zenoh_bridge/aloha_declaration.rs:82-111 | after the last drop silence is certain from x on if and only if x is at least 2P |
| `AlohaWindow.ForgettingIsEightPeriods` | zenoh-plugin-ros1/src/ros_to_zenoh_bridge/aloha_subscription.rs:182-203 | with the source's window, every table has dropped the key x after the last drop if and only if x is at least 8P |
| `AlohaNeighbour.OnlyOnAnotherSession` | zenoh-plugin-ros1/src/ros_to_zenoh_bridge/aloha_declaration.rs:139-146 | for each session: while nothing is dropped, the subscriptions on it never lose the key if and only if none of its declarations is made on that session, since puts are not delivered on their own session |
| `AlohaWindow.TwoPublishingTasks` | zenoh-plugin-ros1/src/ros_to_zenoh_bridge/aloha_declaration.rs:84-109 | a run in which one declaration ends up with two live publishing tasks; the exact condition is `AlohaTies.OneTaskIff` |
| `AlohaTies.OneTaskIff` | zenoh-plugin-ros1/src/ros_to_zenoh_bridge/aloha_declaration.rs:89-98 | in any run a declaration has at most one publishing task throughout if and only if no back-off of its ends, with nothing heard, while one of its tasks is still there |
| `AlohaTies.OverlapIsATie` | zenoh-plugin-ros1/src/ros_to_zenoh_bridge/aloha_declaration.rs:86-90 | and such a task is then due at that very instant, and the back-off drew zero |
| `AlohaTies.OnePublishingTask` | zenoh-plugin-ros1/src/ros_to_zenoh_bridge/aloha_declaration.rs:61-131 | so if publishing tasks go first at equal deadlines, a declaration never has more than one, although all restarts share one flag; while the flag is up it has exactly one |
| `AlohaTies.LoneSenderStep` | zenoh-plugin-ros1/src/ros_to_zenoh_bridge/aloha_declaration.rs:83-108 | every step other than a join or its own drop keeps a lone sender alone |
| `AlohaTies.LoneSenderForever` | zenoh-plugin-ros1/src/ros_to_zenoh_bridge/aloha_declaration.rs:83-108 | a lone sender stays the only one for ever |
| `AlohaTies.OneBeaconPerPeriod` | zenoh-plugin-ros1/src/ros_to_zenoh_bridge/aloha_declaration.rs:148-151 | and its n-th beacon comes exactly n periods after the first was due; nobody else puts any |
| `AlohaLiveness.LoneSenderCanCome` | zenoh-plugin-ros1/src/ros_to_zenoh_bridge/aloha_declaration.rs:83-108 | from every reachable state with somebody alive (sessions distinct, publishers first) some coins and back-offs lead, by protocol steps alone and within 8P, to a lone sender |
| `AlohaProgress.WorkDecreases` | zenoh-plugin-ros1/src/ros_to_zenoh_bridge/aloha_declaration.rs:82-152 | at one instant only boundedly many steps can happen |
| `AlohaProgress.TimeGoesOn` | zenoh-plugin-ros1/src/ros_to_zenoh_bridge/aloha_declaration.rs:82-152 | from every reachable state the protocol's own steps lead to the next instant: the deadlines are met, not evaded |
| `AlohaSubscription.Accumulator.Listen` | zenoh-plugin-ros1/src/ros_to_zenoh_bridge/aloha_subscription.rs:149-168 | a beacon inserts its key or marks it active, and calls back exactly if it was new |
| `AlohaSubscription.Accumulator.Reset` | zenoh-plugin-ros1/src/ros_to_zenoh_bridge/aloha_subscription.rs:183-189 | every key stays and becomes inactive |
| `AlohaSubscription.Accumulator.Scan` | zenoh-plugin-ros1/src/ros_to_zenoh_bridge/aloha_subscription.rs:193-197 | calls back exactly the inactive keys, each once |
| `AlohaSubscription.Accumulator.Retain` | zenoh-plugin-ros1/src/ros_to_zenoh_bridge/aloha_subscription.rs:199-202 | drops exactly the inactive keys |
| `AlohaSubscription.CallsStep` | zenoh-plugin-ros1/src/ros_to_zenoh_bridge/aloha_subscription.rs:149-203 | seen through one key, any step of the two tasks is the one-key step |
| `AlohaSubscription.RemovedWasReported` | zenoh-plugin-ros1/src/ros_to_zenoh_bridge/aloha_subscription.rs:193-202 | in every interleaving, a key that a retain removes was reported by the scan of the same round |
| `AlohaSubscription.DeclaredOncePerLoss` | zenoh-plugin-ros1/src/ros_to_zenoh_bridge/aloha_subscription.rs:149-168 | in every interleaving, between two "declared" callbacks for a key there is an "undeclared" one |
| `AlohaSubscription.AlternatesWhileClean` | zenoh-plugin-ros1/src/ros_to_zenoh_bridge/aloha_subscription.rs:182-203 | unless a beacon falls between scan and retain on a key just reported, its callbacks strictly alternate, beginning with "declared" |
| `AlohaSubscription.TruthfulIffNoResurrection` | zenoh-plugin-ros1/src/ros_to_zenoh_bridge/aloha_subscription.rs:193-202 | the table and the last callback agree throughout a run if and only if no beacon falls into that gap on a key just reported |
| `AlohaSubscription.ResurrectionHappens` | zenoh-plugin-ros1/src/ros_to_zenoh_bridge/aloha_subscription.rs:193-202 | a history of four steps in which a beacon does fall into the gap, and the callbacks no longer tell the truth |
| `AlohaSubscription.ResurrectedIsUnknown` | zenoh-plugin-ros1/src/ros_to_zenoh_bridge/aloha_subscription.rs:155-161 | after that, in every interleaving, the key stays in the table without a callback until it is called undeclared once more |
| `TopicBridges.TopicBridge.constructor` | zenoh-plugin-ros1/src/ros_to_zenoh_bridge/topic_bridge.rs:44-72 | a new bridge has both flags down, no declaration and no data bridge |
| `TopicBridges.TopicBridge.SetPresentInRos1` | zenoh-plugin-ros1/src/ros_to_zenoh_bridge/topic_bridge.rs:74-81 | the flag, the declaration and the data bridge after the call; true exactly if the flag changed |
| `TopicBridges.TopicBridge.SetHasComplementaryInZenoh` | zenoh-plugin-ros1/src/ros_to_zenoh_bridge/topic_bridge.rs:83-90 | the same for the Zenoh side |
| `TopicBridges.TopicBridge.RecalcState` | zenoh-plugin-ros1/src/ros_to_zenoh_bridge/topic_bridge.rs:101-159 | declares or withdraws by presence in ROS1; keeps or creates the data bridge if both flags are up, or one in automatic mode, or for a wanted client, and removes it otherwise; a failure leaves nothing |
| `TopicBridges.BridgesFollowFlags` | zenoh-plugin-ros1/src/ros_to_zenoh_bridge/topic_bridge.rs:106-140 | over every history of calls and failures, a live data bridge is required, a declaration is of a topic present in ROS1, and no more bridges were created than times one came to be required |
| `TopicBridges.OneBridgePerNeed` | zenoh-plugin-ros1/src/ros_to_zenoh_bridge/topic_bridge.rs:106-159 | without failures a data bridge lives if and only if a flag is up in automatic mode, both are in the others, or, for a client there, the Zenoh one; a declaration if and only if the topic is present; and creations equal the rising edges of "required" |
| `TopicBridges.NeverRebuilt` | zenoh-plugin-ros1/src/ros_to_zenoh_bridge/topic_bridge.rs:125-140 | after any history a live data bridge survives unchanged while required, and a declaration while its topic is present |
| `BridgesStorage.ComplementaryEntityLost` | zenoh-plugin-ros1/src/ros_to_zenoh_bridge/bridges_storage.rs:133-143 | the topic's Zenoh flag falls, and the entry goes if that was the last reason for it; no other entry changes |
| `BridgesStorage.ComplementaryEntityDiscovered` | zenoh-plugin-ros1/src/ros_to_zenoh_bridge/bridges_storage.rs:145-166 | unless disabled, the topic gets an entry if it had none, and its Zenoh flag rises; no other entry changes |
| `BridgesStorage.ActualizeAll` | zenoh-plugin-ros1/src/ros_to_zenoh_bridge/bridges_storage.rs:196-203 | first loop: each entry is told whether the snapshot has its topic; what remains of the snapshot is the topics without an entry |
| `BridgesStorage.EraseNonActual` | zenoh-plugin-ros1/src/ros_to_zenoh_bridge/bridges_storage.rs:205-212 | exactly the entries nobody wants go, and the size tells whether any did |
| `BridgesStorage.CreateNew` | zenoh-plugin-ros1/src/ros_to_zenoh_bridge/bridges_storage.rs:214-236 | last loop: exactly the remaining topics that are not disabled get entries; its occupied branch is never reached |
| `BridgesStorage.ReceiveRos1State` | zenoh-plugin-ros1/src/ros_to_zenoh_bridge/bridges_storage.rs:192-238 | each entry goes its own way, and the result is true if and only if the presence or a flag of some entry changed |
| `BridgesStorage.Fill` | zenoh-plugin-ros1/src/ros_to_zenoh_bridge/bridges_storage.rs:58-66 | counts the entries, and those with a live data bridge |
| `StorageHistory.StorageIsTwoSets` | zenoh-plugin-ros1/src/ros_to_zenoh_bridge/bridges_storage.rs:133-238 | over every history of polls, discoveries, losses and clears, and whatever fails, a kind's entries are exactly the union of two sets, the flags are membership in them, every entry is wanted, every live data bridge is required and every declaration is of a present topic (and conversely without failures); clients are never present in ROS1 |
| `StorageHistory.LastPollDecides` | zenoh-plugin-ros1/src/ros_to_zenoh_bridge/bridges_storage.rs:289-303 | a topic is present if and only if it is enabled and was in the last poll since the last clear |
| `StorageHistory.LastRemoteEventDecides` | zenoh-plugin-ros1/src/ros_to_zenoh_bridge/bridges_storage.rs:133-166 | a topic is wanted if and only if it is enabled and its last remote event since the last clear was a discovery |
| `StorageHistory.PollsAndEventsCommute` | zenoh-plugin-ros1/src/ros_to_zenoh_bridge/bridges_storage.rs:133-238 | a poll and a remote event give the same entries and flags in either order |
| `StorageHistory.RepeatedPollChangesNothing` | zenoh-plugin-ros1/src/ros_to_zenoh_bridge/bridges_storage.rs:192-238 | the same snapshot again leaves every entry as it is, data bridges included |
| `StorageHistory.PollBrings` | zenoh-plugin-ros1/src/ros_to_zenoh_bridge/bridges_storage.rs:289-303 | after a poll the present publishers are the enabled published topics found, subscribers the subscribed, services the serviced, there are no clients, and remote wishes are as before |
| `StorageHistory.RemoteEntitiesConcern` | zenoh-plugin-ros1/src/ros_to_zenoh_bridge/bridges_storage.rs:263-277 | a discovered remote publisher gives its topic a wanted subscriber entry unless disabled, a subscriber a publisher entry, a service a client and a client a service; a loss takes the wish back; no entry of another kind or topic changes |
| `StorageHistory.DataFlowsOnlyFor` | zenoh-plugin-ros1/src/ros_to_zenoh_bridge/topic_bridge.rs:117-133 | whatever fails, a data bridge lives only for a topic present or wanted, and in lazy mode, clients excepted, only for one that is both |
| `StorageHistory.ModeDecides` | zenoh-plugin-ros1/src/ros_to_zenoh_bridge/topic_bridge.rs:106-140 | without failures: a topic both present and wanted has a live data bridge in every mode; in automatic mode every topic present or wanted has one; in lazy mode one other than a client has one if and only if it is both; a wanted client always has one; a disabled topic has no entry; and a topic is declared if and only if it is present |
| `NodeStorage.Storage.constructor` | zenoh-plugin-ros1/src/ros_to_zenoh_bridge/bridges_storage.rs:249-261 | a new storage is where the empty history leads |
| `NodeStorage.Storage.EntityDiscovered` | zenoh-plugin-ros1/src/ros_to_zenoh_bridge/ros1_to_zenoh_bridge_impl.rs:117-125 | a remote publisher changes only the subscriber bridges, a subscriber only the publisher ones, a service only the clients and a client only the services, and every entry of every kind stays where the history leads |
| `NodeStorage.Storage.EntityLost` | zenoh-plugin-ros1/src/ros_to_zenoh_bridge/ros1_to_zenoh_bridge_impl.rs:126-134 | likewise for a lost one |
| `NodeStorage.Storage.ReceiveRos1State` | zenoh-plugin-ros1/src/ros_to_zenoh_bridge/bridges_storage.rs:289-303 | a poll feeds publishers, services and subscribers, and returns true if and only if some entry or flag of any kind changed |
| `NodeStorage.Storage.Clear` | zenoh-plugin-ros1/src/ros_to_zenoh_bridge/bridges_storage.rs:76-81 | a clear empties all four maps |
| `NodeStorage.Storage.Status` | zenoh-plugin-ros1/src/ros_to_zenoh_bridge/bridges_storage.rs:57-74 | each field counts its own kind: the entries that are present or wanted, and those with a live data bridge, as read off the history |
| `PollLoop.RosToZenohBridge.TransitRosStatus` | zenoh-plugin-ros1/src/ros_to_zenoh_bridge/ros1_to_zenoh_bridge_impl.rs:231-236 | the status callback is called exactly if the status differs from the last one |
| `PollLoop.RosToZenohBridge.ReportBridgeStatistics` | zenoh-plugin-ros1/src/ros_to_zenoh_bridge/ros1_to_zenoh_bridge_impl.rs:238-240 | reports what the storage's history amounts to |
| `PollLoop.RosToZenohBridge.Turn` | zenoh-plugin-ros1/src/ros_to_zenoh_bridge/ros1_to_zenoh_bridge_impl.rs:195-226 | one turn. A readable master: status Ok, the poll added to the history, the report, half the sleep if and only if something changed. An unreadable one: status Error, all four maps empty, a report of zeros, the whole sleep |
| `PollLoop.RosToZenohBridge.Run` | zenoh-plugin-ros1/src/ros_to_zenoh_bridge/ros1_to_zenoh_bridge_impl.rs:169-228 | over any run, with the cache threaded through the polls and the handshakes between and during them: the storage has the history of all rounds; the status is Ok or Error as the last master could or could not be read; whenever it could not, the report is all zeros and, after it, the storage empty; the status callbacks are the outcomes without consecutive repetitions; every report matches the storage at that point, and the sleep is halved exactly after a poll that changed something |
| `PollLoop.LastTurnDecides` | zenoh-plugin-ros1/src/ros_to_zenoh_bridge/ros1_to_zenoh_bridge_impl.rs:195-226 | after the last turn of any run: if the master could not be read, no entry of any kind is left; if it could, what remote peers want is as before the turn, and a topic is present exactly if it is enabled and was found, each kind for itself |
| `PollLoop.SubscribersAreFound` | zenoh-plugin-ros1/src/ros_to_zenoh_bridge/resource_cache.rs:71-77 | a subscriber that the master lists at two polls and that introduces itself in between is found at the second with the type and checksum it named last, whoever else introduces himself meanwhile |
| `PollLoop.TransitionsChange` | zenoh-plugin-ros1/src/ros_to_zenoh_bridge/ros1_to_zenoh_bridge_impl.rs:231-236 | no two consecutive status callbacks are equal, the last one is the current status, and Unknown is never announced |
| `PollLoop.ErrorReportsNothing` | zenoh-plugin-ros1/src/ros_to_zenoh_bridge/ros1_to_zenoh_bridge_impl.rs:215-224 | after an error every count reported is zero |
| `ResourceCache.Ros1ResourceCache.constructor` | zenoh-plugin-ros1/src/ros_to_zenoh_bridge/resource_cache.rs:47-60 | a new cache knows nothing |
| `ResourceCache.Ros1ResourceCache.ResolveSubscriberParameters` | zenoh-plugin-ros1/src/ros_to_zenoh_bridge/resource_cache.rs:62-78 | the bridge's node is refused; otherwise discovery is opened if need be, handshakes may come in at once, and it is asked |
| `ResourceCache.Ros1ResourceCache.ResolvePublisherParameters` | zenoh-plugin-ros1/src/ros_to_zenoh_bridge/resource_cache.rs:80-116 | both of the bridge's nodes are refused; otherwise the known answer, or the network's, which is remembered if there is one |
| `ResourceCache.Ros1ResourceCache.ResolveServiceParameters` | zenoh-plugin-ros1/src/ros_to_zenoh_bridge/resource_cache.rs:118-154 | the bridge's node is refused; otherwise the known answer for the node, or the network's for the service |
| `ResourceCache.Ros1ResourceCache.Query` | zenoh-plugin-ros1/src/ros_to_zenoh_bridge/resource_cache.rs:289-298 | what the node said of itself, if it did |
| `ResourceCache.Ros1ResourceCache.ProcessHandshake` | zenoh-plugin-ros1/src/ros_to_zenoh_bridge/resource_cache.rs:300-326 | a complete handshake replaces what was known of the node; an incomplete one changes nothing |
| `ResourceCache.Ros1ResourceCache.ProcessHandshakes` | zenoh-plugin-ros1/src/ros_to_zenoh_bridge/resource_cache.rs:266-270 | handshakes of any topics, one after the other; those of topics without an open discovery reach nobody |
| `ResourceCache.CacheKeepsFirstAnswer` | zenoh-plugin-ros1/src/ros_to_zenoh_bridge/resource_cache.rs:80-154 | on any changing network, a publisher or service of a node that is none of the bridge's (the auxiliary one serving counts as another) is known by its first successful answer, and unknown if and only if there was none |
| `ResourceCache.DiscoveryStaysOpen` | zenoh-plugin-ros1/src/ros_to_zenoh_bridge/resource_cache.rs:71-77 | a topic's subscribers are being discovered if and only if they were once asked for and opening succeeded |
| `ResourceCache.CacheKeepsLatestHandshake` | zenoh-plugin-ros1/src/ros_to_zenoh_bridge/resource_cache.rs:300-326 | a subscriber is known by its latest complete handshake since discovery was opened, or while it was, and by nothing else |
| `ResourceCache.FailureAddsNothing` | zenoh-plugin-ros1/src/ros_to_zenoh_bridge/resource_cache.rs:62-154 | a failed resolution changes no known answer and adds none, but for what other nodes said of themselves while it opened their topic's discovery |
| `ResourceCache.CachingIsTransparent` | zenoh-plugin-ros1/src/ros_to_zenoh_bridge/resource_cache.rs:80-154 | on a network that answers the same throughout, the cached answer for a publisher or service of another node is, after any history, just what a probe says |
| `Ros1Client.Ros1Client.Retain` | zenoh-plugin-ros1/src/ros_to_zenoh_bridge/ros1_client.rs:116-118 | keeps, in order, exactly the topics with several nodes or with one that is not the bridge's |
| `Ros1Client.OnlyOwnTopicsDropped` | zenoh-plugin-ros1/src/ros_to_zenoh_bridge/ros1_client.rs:116-118 | a topic is dropped if and only if nobody, or nobody but the bridge, takes part in it |
| `Ros1Client.Ros1Client.Filter` | zenoh-plugin-ros1/src/ros_to_zenoh_bridge/ros1_client.rs:108-126 | filters the three lists of a readable state; an unreadable one stays so |
| `TopicMapping.Collect` | zenoh-plugin-ros1/src/ros_to_zenoh_bridge/topic_mapping.rs:48-94 | one kind's nested loops put one question per connection, in order, and collect what the answers describe; the network may answer differently each time and handshakes come in between |
| `TopicMapping.New` | zenoh-plugin-ros1/src/ros_to_zenoh_bridge/topic_mapping.rs:38-96 | subscribers, then publishers, then services, over one cache |
| `TopicMapping.ReadMapping` | zenoh-plugin-ros1/src/ros_to_zenoh_bridge/topic_mapping.rs:27-35 | an unreadable master leaves the cache alone; otherwise the filtered state is mapped |
| `TopicMapping.AnswersDoNotChange` | zenoh-plugin-ros1/src/ros_to_zenoh_bridge/topic_mapping.rs:50-94 | while the network does not change, questions put earlier in a poll do not change the answer to a later one |
| `TopicMapping.MappingMeansUsed` | zenoh-plugin-ros1/src/ros_to_zenoh_bridge/topic_mapping.rs:38-96 | on any changing network, a topic with a format is found if and only if, in answer to some question of the poll, a node listed for it was known to use it with that format |
| `TopicMapping.SteadyMappingMeansUsed` | zenoh-plugin-ros1/src/ros_to_zenoh_bridge/topic_mapping.rs:38-96 | while nothing changes during the poll, exactly if a listed node, in whatever order, is known from before or from the network to use it so |
| `TopicMapping.PublisherIsFound` | zenoh-plugin-ros1/src/ros_to_zenoh_bridge/topic_mapping.rs:66-78 | in a steady poll, a publisher that is neither of the bridge's nodes, listed by the master, not known before and answering its probe, is found with that answer, with or without the filter |
| `TopicMapping.ServiceIsFound` | zenoh-plugin-ros1/src/ros_to_zenoh_bridge/topic_mapping.rs:82-94 | likewise a service of any node but the bridge's, probed by the name of the service |
| `TopicMapping.KnownIsFound` | zenoh-plugin-ros1/src/ros_to_zenoh_bridge/topic_mapping.rs:50-94 | a listed node of each kind whose answer is known from before is found with it, whatever the network would answer now |
| `TopicMapping.PollOpens` | zenoh-plugin-ros1/src/ros_to_zenoh_bridge/resource_cache.rs:71-77 | a poll that lists another node as a subscriber opens the topic's discovery if it can be opened |
| `TopicMapping.FilterIsTransparent` | zenoh-plugin-ros1/src/ros_to_zenoh_bridge/ros1_client.rs:116-122 | for every state and cache, while nothing changes during the poll, mapping the filtered state gives the same three sets and the same caches as mapping the unfiltered one |
| `ManyBridges.AnnouncementsAreBacked` | zenoh-plugin-ros1/src/ros_to_zenoh_bridge/resource_cache.rs:85-87 | in every reachable state of any number of bridges, whatever a bridge announces is backed by a node that its master listed at its last poll, not the bridge's own nor, as a publisher, its auxiliary one, and that was then known to use the topic with just that data type and checksum |
| `ManyBridges.SilentAfterPoll` | zenoh-plugin-ros1/src/ros_to_zenoh_bridge/topic_bridge.rs:106-123 | once a bridge's master lists no other nodes, one poll silences it for good |
| `ManyBridges.OnePollWithdrawsAll` | zenoh-plugin-ros1/src/ros_to_zenoh_bridge/bridges_storage.rs:192-238 | when no other nodes are left anywhere, one poll of each bridge withdraws every announcement |
| `ManyBridges.AllStoragesEmpty` | zenoh-plugin-ros1/src/ros_to_zenoh_bridge/bridges_storage.rs:133-167 | and when the last beacons are gone and the losses are delivered, every storage is empty; `TimedBridges.AllStoragesEmptyInTime` needs neither assumption |
| `ManyBridges.PresentIsAnnounced` | zenoh-plugin-ros1/src/ros_to_zenoh_bridge/topic_bridge.rs:106-123 | without failures a present topic is announced, under a key that reaches every bridge of the namespace and is decoded there to the same kind and topic |
| `ManyBridges.PublisherMeetsSubscriber` | zenoh-plugin-ros1/src/ros_to_zenoh_bridge/ros1_to_zenoh_bridge_impl.rs:116-134 | end to end: one bridge's master lists a publisher that answers its probe, another's a subscriber of the same topic and format that has introduced itself; each polls and handles the other's key, and then the one has a publisher entry and the other a subscriber entry with both flags up and, without failures, a live data bridge |
| `ManyBridges.ServiceIsOffered` | zenoh-plugin-ros1/src/ros_to_zenoh_bridge/ros1_to_zenoh_bridge_impl.rs:116-134 | a service that a master lists and that answers its probe is announced, and a bridge that handles its key has a client with, without failures, a live data bridge, whether its own side asks for it or not |
| `TimedBridges.AlwaysFits` | zenoh-plugin-ros1/src/ros_to_zenoh_bridge/discovery.rs:199-202 | in many bridges in time, the living declarations of each key's network are those of the bridges that have it declared, one each |
| `TimedBridges.AlwaysKeeps` | zenoh-plugin-ros1/src/ros_to_zenoh_bridge/ros1_to_zenoh_bridge_impl.rs:116-134 | each subscription's callbacks are those its bridge has handled and those that wait, and a bridge wants a topic only because the last callback handled for one of its keys was "declared" |
| `TimedBridges.KeyDies` | zenoh-plugin-ros1/src/ros_to_zenoh_bridge/aloha_declaration.rs:36-40 | once all bridges are silent, every key's network is abandoned and on its way to silence and oblivion |
| `TimedBridges.NothingPending` | zenoh-plugin-ros1/src/ros_to_zenoh_bridge/aloha_subscription.rs:193-202 | eight periods later no callback is waiting |
| `TimedBridges.AllStoragesEmptyInTime` | zenoh-plugin-ros1/src/ros_to_zenoh_bridge/bridges_storage.rs:133-167 | when the masters know no nodes but the bridges' own and each bridge has polled, 8P later every storage is empty and stays so, whatever the coins, the back-offs and the order of things: no announcement keeps itself alive by going round |
| `TimedProgress.TimeGoesOn` | zenoh-plugin-ros1/src/ros_to_zenoh_bridge/aloha_subscription.rs:182-203 | in many bridges in time, from every reachable world the steps of declarations, accumulating tasks and callbacks alone lead to the next instant |
| `TimedProgress.OwnStep` | zenoh-plugin-ros1/src/ros_to_zenoh_bridge/ros1_to_zenoh_bridge_impl.rs:195-226 | any poll, whatever it finds, and any handshake can happen to a bridge in every reachable world in which it is the one to make the next declaration of each key that it comes to declare |
| `TimedProgress.EveryRunCanEnd` | zenoh-plugin-ros1/src/ros_to_zenoh_bridge/bridges_storage.rs:192-238 | every run of at least one bridge can go on so that all poll, find nobody and live through the eight periods, after which every storage is empty |
| `Discovery.HexRoundTrip` | zenoh-plugin-ros1/src/ros_to_zenoh_bridge/discovery.rs:193 | decoding the written hexadecimal form gives the bytes back |
| `Discovery.HexWritten` | zenoh-plugin-ros1/src/ros_to_zenoh_bridge/discovery.rs:193 | each byte is written as two lower-case digits, the higher one first |
| `Discovery.HexRead` | zenoh-plugin-ros1/src/ros_to_zenoh_bridge/discovery.rs:151 | a text can be read if and only if it is an even number of hexadecimal digits of either case |
| `Discovery.HexRewrite` | zenoh-plugin-ros1/src/ros_to_zenoh_bridge/discovery.rs:151 | writing again what was read gives the same text if and only if it had no upper-case digits |
| `Discovery.NormalNames` | zenoh-plugin-ros1/src/ros_to_zenoh_bridge/topic_utilities.rs:26-28 | a name is its own normal form if and only if it has one leading slash and no trailing one, or is a slash |
| `Discovery.NormalIsIdempotent` | zenoh-plugin-ros1/src/ros_to_zenoh_bridge/topic_utilities.rs:42-50 | trimming and prefixing twice is the same as once |
| `Discovery.KeyChunks` | zenoh-plugin-ros1/src/ros_to_zenoh_bridge/discovery.rs:36-38 | the chunks of a declared key are its fields, in order |
| `Discovery.ClassTags` | zenoh-plugin-ros1/src/ros_to_zenoh_bridge/discovery.rs:46-49 | a declared key starts with "ros1_discovery_info", and its third chunk is "pub", "sub", "srv" or "cl" for publishers, subscribers, services and clients |
| `Discovery.DecodedMeans` | zenoh-plugin-ros1/src/ros_to_zenoh_bridge/discovery.rs:143-173 | a key is decoded to a kind and a topic if and only if it has the root and a topic, its third chunk is "pub", "sub", "srv" or "cl" as the kind is publisher, subscriber, service or client, its fourth is the data type's bytes in hexadecimal and they are text, and the rest is the checksum and the name |
| `Discovery.FailureMeans` | zenoh-plugin-ros1/src/ros_to_zenoh_bridge/discovery.rs:115-173 | and it is refused with a given error if and only if that is the first thing wrong with it: not a discovery key, bad digits, not text, no topic, unknown class |
| `Discovery.RoundTrip` | zenoh-plugin-ros1/src/ros_to_zenoh_bridge/discovery.rs:143-173 | decoding a declared key gives its class and its descriptor with the name in normal form; only a name of nothing but slashes leaves no topic to decode |
| `Discovery.DeliveredIff` | zenoh-plugin-ros1/src/ros_to_zenoh_bridge/discovery.rs:68-79 | a declared key matches a receiver's subscription if and only if each of the two namespaces is equal or a wild card on either side and the name is more than slashes |
| `Discovery.DeliveredIsDecoded` | zenoh-plugin-ros1/src/ros_to_zenoh_bridge/discovery.rs:115-173 | every declared key that reaches a receiver is decoded there, to its class and its descriptor in normal form |
| `Discovery.ExactRoundTrip` | zenoh-plugin-ros1/src/ros_to_zenoh_bridge/discovery.rs:188-197 | the round trip is exact if and only if the name is a single slash followed by a body that neither starts nor ends with one |
| `Discovery.SameKey` | zenoh-plugin-ros1/src/ros_to_zenoh_bridge/discovery.rs:188-197 | two declarations have the same key if and only if they agree in class, data type, checksum, both namespaces and normal name |
| `Discovery.Rewrite` | zenoh-plugin-ros1/src/ros_to_zenoh_bridge/discovery.rs:143-173 | a decodable key is the key declared for what it is decoded to if and only if its data type is in lower case |
| `Discovery.DataKeyChunks` | zenoh-plugin-ros1/src/ros_to_zenoh_bridge/topic_utilities.rs:22-40 | the chunks of a data key are the data type, the checksum, the bridge's namespace and the topic, in this order |
| `Discovery.BothEndsShareDataKey` | zenoh-plugin-ros1/src/ros_to_zenoh_bridge/topic_utilities.rs:30-40 | a topic that can be declared has a data key, the topic decoded from its declaration has the same one, and different topics have different ones |
| `DiscoveryLink.OnlyItsKey` | zenoh-plugin-ros1/src/ros_to_zenoh_bridge/discovery.rs:143-173 | among the keys of peers in one namespace, a topic is decoded from exactly one |
| `DiscoveryLink.PeersAreDecoded` | zenoh-plugin-ros1/src/ros_to_zenoh_bridge/discovery.rs:115-133 | no key that reaches the subscription fails to be processed |
| `DiscoveryLink.StorageIsTold` | zenoh-plugin-ros1/src/ros_to_zenoh_bridge/ros1_to_zenoh_bridge_impl.rs:116-134 | in every run and for every receiver, wild card or not, the storage wants a topic if and only if the last callback for any key of the topic since the last clear was "declared" |
| `DiscoveryLink.StorageAgreesWithTable` | zenoh-plugin-ros1/src/ros_to_zenoh_bridge/ros1_to_zenoh_bridge_impl.rs:215-225 | among peers of one namespace, the storage's Zenoh flag agrees with the subscription's table if and only if the key is not present without a callback since the storage was last cleared |
| `DiscoveryLink.StorageAgreesUntilCleared` | zenoh-plugin-ros1/src/ros_to_zenoh_bridge/ros1_to_zenoh_bridge_impl.rs:116-134 | without clears, and without beacons in the gap, the flag and the table always agree |
| `DiscoveryLink.ClearForgetsPeers` | zenoh-plugin-ros1/src/ros_to_zenoh_bridge/ros1_to_zenoh_bridge_impl.rs:242-244 | a run in which a peer heard before and after a clear stays unknown to the storage |
| `DiscoveryLink.WildcardAgrees` | zenoh-plugin-ros1/src/ros_to_zenoh_bridge/discovery.rs:68-79 | for every receiver the flag is never up without a peer present, and it agrees with the table if and only if, where some key of the topic is present, the last callback for its keys since the last clear was "declared" |
| `DiscoveryLink.LossHidesPeer` | zenoh-plugin-ros1/src/ros_to_zenoh_bridge/ros1_to_zenoh_bridge_impl.rs:126-134 | for any two keys of one topic there is a run in which one falls silent and the storage no longer wants the topic, though the other is present |
| `DiscoveryLink.WildcardHearsBoth` | zenoh-plugin-ros1/src/ros_to_zenoh_bridge/discovery.rs:68-79 | a receiver whose bridge namespace is the wild card hears one topic under a different key for each namespace |

## Left out

- Data forwarding (`abstract_bridge.rs`, `zenoh_client.rs`): creating a data bridge is an operation that may succeed or fail.
- `resolve_service`, `resolve_publisher`, `request_topic` and the TCPROS headers: functions or answers that may be absent.
- Environment, JSON configuration, the plugin, the command line, the ROS master's process and logging; the bridging mode is a fixed function of kind and topic name.
- Message loss, scheduler latency, memory ordering and probability: coins and back-offs are arbitrary choices, so that stations settle on one sender is proved as "always possible, and then for ever", not as likely.
- Errors returned by a put, a lock or a Zenoh declaration inside the ALOHA tasks.
- AlohaDeclaration.Declaration.OnRemoteBeacon: the counter is unbounded and does not wrap at the width of `usize`.
- AlohaNetwork.RunSound: dropped subscriptions are not removed, they go on unobserved; the window and the period are parameters, shared by all.
- AlohaGaps.NeverLostWithoutDrops: stated for subscriptions on a session without a declaration of the key; on every session with one it is false, see `AlohaNeighbour.OnlyOnAnotherSession`.
- AlohaWindow.WindowIsThreePeriods: like the other exact bounds, for two first declarations that hear each other; on one session they never stop each other.
- AlohaLiveness.LoneSenderCanCome: for declarations on distinct sessions.
- BridgesStorage.ReceiveRos1State: the maps own their bridges, so a container is a map of bridge values, and one topic's `TopicBridge` object is modelled beside it by the same functions; the order of iteration is arbitrary.
- PollLoop.RosToZenohBridge.Run: the two callbacks and the sleep are recorded in lists; remote events are those handled before each poll takes the lock.
- ResourceCache.Ros1ResourceCache.ResolveSubscriberParameters: errors are the absence of an answer; handshakes of other topics between opening and query are counted before or after, which comes to the same.
- TopicMapping.FilterIsTransparent: for polls during which nothing changes; otherwise the filtered and the unfiltered poll ask at different moments.
- ManyBridges.AnnouncementsAreBacked: the auxiliary node is excluded only as a publisher, as in the code; it neither subscribes nor serves.
- ManyBridges.AllStoragesEmpty: beacons are keys in the air, without times; for those see `TimedBridges`.
- TimedBridges.AllStoragesEmptyInTime: two topics of one bridge whose names differ only in outer slashes share a key and count as one declaration of it; ROS1 names never do. Waiting for the storage's lock takes no time. Which bridge makes a key's n-th declaration is fixed in advance, arbitrarily.
- Discovery.KeyChunks: of Zenoh's key expressions only the chunks between slashes are modelled; wild cards inside fields and forbidden characters are not.
- Discovery.RoundTrip: which bytes are UTF-8 is a parameter; a data type is kept as its bytes.
- DiscoveryLink.StorageAgreesWithTable: for peers that share one discovery and one bridge namespace (for others see `DiscoveryLink.WildcardAgrees`), and keys on which no beacon falls between scan and retain.
