# A verified model of simple-graphics-controller

simple-graphics-controller is a daemon that hands displays (DRM cards, the framebuffer)
and input devices to clients, one owner at a time. This project models its four hard
parts in Dafny and proves what they promise over every input and every run:

- **the policy engine**: one slot per resource with an owner, a deque of waiters, a revoke
  deadline and a suspended flag, driven by client commands, device commands and a timer;
- **the input reconciler**: the fd table, the devnode index and the advertised list, which
  every pass over `/dev/input` has to move together;
- **the DRM card**: a lease state machine that survives the failure of any ioctl;
- **frame assembly**: requests cut out of a byte stream that arrives in arbitrary pieces.

## How it is built

| file | content |
|---|---|
| `Types`, `Policies`, `Queues` | resources and clients, the three policies, the algebra of waiter queues |
| `Slots`, `Machine`, `Turns` | one slot, the engine as a state machine over runs, what one turn can do to a slot |
| `Handoff`, `QueueRuns`, `Preemption`, `Seats`, `Suspension`, `Entries`, `Origins` | theorems over whole engine runs |
| `Scenarios` | runs from the moment the engine is spawned in which something happens that the documentation rules out |
| `EngineActor` | the engine as a class with loops over its tables, proved equal to `Machine.Apply` |
| `Inventory`, `InventoryLaws`, `Replug`, `Repeats`, `Visits`, `Lists`, `Startup` | a reconcile pass on values and its theorems; the startup state |
| `InventoryActor` | the inventory, the advertised list and the mailbox as classes, proved equal to the pass on values |
| `Daemon` | reconciler, clients and engine joined by the engine's mailbox |
| `Drm`, `Wire` | the lease state machine against a kernel; frame assembly against a batch parser |

An engine run (`Machine.IsRun`) starts from any policy table and takes any commands in any
order, with a clock that never goes back. No client discipline is assumed: clients may send
what they like, and in every turn any set of channels may be dead. `Expire` may happen in
any turn, so the timer needs no model. The class methods pick the next map entry with `:|`,
so their contracts hold for every iteration order of the hash tables.

Every file-system answer comes from an arbitrary `World`, one per visited device. Nothing
ties the answers together except where a theorem says the devices hold still (`Replug.Frozen`).

## Where the code does less than is said of it

The model follows the code. Each of these has a concrete input and an exact condition; those
about the engine are runs from the moment it is spawned.

- Only one Revoke is ever in flight per resource (`docs/policy-engine.md:172`): false. An owner
  that has not answered a Revoke is sent another exactly when it gives up or loses a display, or
  when somebody joins the queue after a Suspend has cleared the deadline. See
  `Seats.SecondRevokeIff`, `Scenarios.TwoRevokesInFlight` and `Scenarios.TwoRevokesAroundSuspend`.
- The seat waits at most the revoke deadline for a wedged holder (`docs/policy-engine.md:206-207`):
  false. A sweep serves the earliest reachable claim exactly if the holder was sent a Revoke the
  timeout before, in its own tenure and with no Suspend since, and such a Revoke exists exactly if
  somebody joined the queue or the holder gave up or lost a display in that time, see
  `Seats.SeatWaitsForDeadline`. It does not exist after an unplug and a replug, see
  `Scenarios.SeatWaitsForever`, nor for a claim left over from the tenure of an earlier holder, see
  `Scenarios.ClaimIsInherited`.
- A client without a display never queues for an input (`docs/policy-engine.md:196-199`), and a seat
  claim stands for the app on the display (`docs/policy-engine.md:200-204`): false. It queues exactly
  when it lets go of the input after a Revoke while somebody waiting can be reached, see
  `Entries.DisplaylessQueuesIff`; a client on the display that asked keeps its claim when it leaves,
  see `Entries.DisplaylessWaiter` and `Entries.DisplaylessWinner`. Both happen in
  `Scenarios.ClaimIsInherited`.
- A client that waits does not always have the owner asked. The owner is Revoking exactly while a
  Revoke of its present tenure is unanswered and no Suspend came after it, see
  `Handoff.RevokingIff`; a preempted client that is put back behind the new owner is not heard,
  see `Scenarios.WaiterIsNotHeard`.
- Nothing else can take a suspended resource (`src/windowing/engine.rs:72`): false when
  the holder lets go while somebody is queued, see `Suspension.SuspendedIsTakenIff` and
  `Scenarios.SuspendedIsTaken`.
- A name is never handed to a device of another class (`src/resource_manager/hotplug.rs:274-276`):
  false when the node is re-opened while the old device still exists, see
  `Replug.TakenUnderItsClassIff` and `Replug.KeyboardNameOnAMouse`.
- A device that comes back resumes its resource (`src/resource_manager/hotplug.rs:255-257`):
  false when the node kept its inode, see `Replug.ReturnResumesIff` and `Replug.MouseIsForgotten`.
- A device that comes back on another node resumes its name
  (`src/resource_manager/hotplug.rs:366-369`): false when that node carries the entry of a device of
  another class, or a live one, see `Replug.ReturnsOnAnotherNodeIff` and `Replug.MouseGetsANewName`.
- A pass is idempotent (`src/resource_manager/hotplug.rs:70`): false when a device that found all 256
  names of its class held then finds a suspended one to take over, see `Repeats.PassIdempotentIff`
  and `Repeats.SecondPassResumes`.
- One index entry per resource (`src/resource_manager/mod.rs:176`): false at startup when
  more than 256 devices of a class are numbered by 8-bit counters, which wrap in a release
  build, see `Startup.StartupConsistentIff` and `Startup.TwoMiceOneName`.

## Model

| member | source | states |
|---|---|---|
| Queues.RequeueIsServedLast | src/windowing/policy.rs:68-83 | a requeued owner comes last in the order in which the policy then serves the queue, under every policy that queues |
| Queues.ServiceOrderClients | src/windowing/policy.rs:55-66 | the order of service is a reordering of the queue: same clients, nobody added or lost (FirstOwner keeps the seat claims only) |
| Slots.PopNextIsHead | src/windowing/engine.rs:91-101 | popping a seat claim or else by policy takes exactly the head of the service order and leaves exactly its tail |
| Slots.GrantNextIsServe | src/windowing/engine.rs:631-673 | the grant loop equals the reference: the first reachable client in service order wins with one Grant, and exactly those before it are dropped |
| Slots.GrantNextConserves | src/windowing/engine.rs:631-673 | the clients popped, followed by the service order of those left, are the service order before |
| Slots.GrantNextWinner | src/windowing/engine.rs:631-673 | who may win, who may be dropped and what is left unchanged when a freed slot is served |
| Machine.ApplyInv | src/windowing/engine.rs:503-623 | every command and sweep keeps every slot well formed, whoever sends it and whichever channels are dead |
| Machine.ReachableInv | src/windowing/engine.rs:228-285 | in every reachable state: an ownerless slot has nobody waiting and no deadline, nobody waits twice or for what it owns, an unregistered owner has no waiters and no deadline, seat claims are on inputs only, a FirstOwner queue holds only seat claims |
| Turns.FreedIsServed | src/windowing/engine.rs:438-501 | every turn that frees a slot serves exactly the queue it left behind |
| Turns.UnfreedLaw | src/windowing/engine.rs:339-460 | a turn that does not free a slot changes its owner only by granting a free one, arms a deadline only with a Revoke to the owner and sends a Revoke only with the deadline armed, and keeps the policy |
| Turns.UnfreedQueue | src/windowing/engine.rs:424-432 | without a freed slot nobody moves in the queue; a newcomer joins at the back, a client that disconnects leaves |
| Turns.SeatLostLaw | src/windowing/engine.rs:303-335 | losing displays adds one Revoke per display and a full deadline to each input the owner keeps, and changes nothing else |
| Turns.PolicyKept | src/windowing/engine.rs:558-609 | a slot never changes its policy, and its suspended flag only by Suspend and Resume of that resource |
| Turns.TouchesOne | src/windowing/engine.rs:529-602 | an Acquire, a Suspend or a Resume changes one slot and pushes messages for that resource only |
| Origins.SpawnIsFresh | src/windowing/engine.rs:228-244 | a fresh engine has a free, empty, unsuspended slot for exactly the resources of its policy table, each under the policy of the table, and no client |
| Origins.PolicyOrigin | src/windowing/engine.rs:228-244 | in every run a resource has a slot exactly if the table names it or it was offered, under the policy of the table or else of the first Offer |
| Origins.OfferedAgain | src/windowing/engine.rs:603-609 | an Offer of a resource that has a slot changes and sends nothing |
| Origins.RegisteredIff | src/windowing/engine.rs:509-514 | in every run exactly those clients are registered that registered and have not disconnected since |
| Origins.SeatLossesCount | src/windowing/engine.rs:537-547 | a client is asked for its inputs once for each display it owns and vacates in the turn, and not when it disconnects |
| Origins.SeatLossesIff | src/windowing/engine.rs:537-547 | a client has a seat loss exactly if it owns a display and vacates it without disconnecting; a Release is at most one |
| Origins.StrayRelease | src/windowing/engine.rs:471-478 | releasing what one does not own leaves the whole engine as it was and sends nothing for any resource |
| Origins.ReleaseElsewhere | src/windowing/engine.rs:537-547 | a Release touches no other slot, except that the inputs of a client that gives up a display are asked for once |
| Origins.SweepElsewhere | src/windowing/engine.rs:257-282 | a sweep touches no slot whose deadline has not passed, except that the inputs of a client that loses displays are asked for once for each |
| Origins.QuietEvents | src/windowing/engine.rs:509-557 | registering, a broadcast and an Offer change no slot that is there and push nothing for any resource |
| Origins.GrantsReachTheirClients | src/windowing/engine.rs:651-658 | a resource is handed over only to a registered client whose channel takes the Grant, and that client owns it |
| Origins.LiveWaiterIsKept | src/windowing/engine.rs:651-671 | a waiter that is registered and whose channel takes messages goes on waiting or is the owner |
| Handoff.OwnerKept | src/windowing/engine.rs:257-282 | in one turn a registered owner loses a resource only if it vacates it: by its Release, its Disconnected or a sweep past its deadline |
| Handoff.DeadlineOrigin | src/windowing/engine.rs:438-449 | every armed deadline lies exactly the timeout after a Revoke sent to the present owner in its present tenure, not answered since and with no Suspend since |
| Handoff.HandoffSafety | src/windowing/engine.rs:257-282 | in every run a registered owner loses a resource only by its own Release, its own Disconnected, or a forced reclaim at least the timeout after a Revoke sent to it in the same tenure and not answered; a release that is handed straight back ends a tenure |
| Handoff.RevokeArms | src/windowing/engine.rs:303-335 | whoever is sent a Revoke owns the resource after the turn, with the deadline a full timeout away |
| Handoff.RevokingIff | src/windowing/engine.rs:76-84 | in every run an owner is Revoking exactly if a Revoke was sent to it in its present tenure, it has not answered, and no Suspend came since |
| Handoff.DeadlineWithinTimeout | src/windowing/engine.rs:22-24 | no reachable deadline is further away than the timeout |
| Handoff.SweepLeavesNothingExpired | src/windowing/engine.rs:257-282 | after a sweep no deadline has passed, including those the sweep armed |
| Handoff.LeavingTheSeat | src/windowing/engine.rs:303-335 | a client that gives up or loses a display is Revoking, with a Revoke sent, on every input it still owns |
| Handoff.SeatLossesMeaning | src/windowing/engine.rs:537-547 | a registered client that loses a display without disconnecting does so in a turn that counts as a seat loss |
| Handoff.FreedTenureEnds | src/windowing/engine.rs:675-685 | a freed slot does not come back to its owner unless the owner released it |
| Handoff.SilentOwnerEvicted | src/windowing/engine.rs:257-282 | an owner that does not answer a Revoke has lost the resource once a sweep runs at its deadline or later |
| QueueRuns.QueueLaw | src/windowing/engine.rs:424-501 | in every turn at most one client joins a queue, at an end of it, by its own Acquire or Release; leavers disconnected, won or were unreachable; nobody else moves |
| QueueRuns.NoLostWaiter | src/windowing/engine.rs:625-673 | a waiter leaves a queue only by becoming the owner with a Grant, by disconnecting, or because its channel could not take a Grant |
| QueueRuns.WaiterStaysUntilServed | src/windowing/engine.rs:625-673 | over any run a reachable waiter stays queued with the same claim until it owns the resource |
| QueueRuns.FairTurn | src/windowing/policy.rs:55-66 | a reachable waiter of a FairQueue display never moves back and moves up at every grant it does not win |
| QueueRuns.FairQueueBoundedOvertaking | src/windowing/policy.rs:55-83 | over any run, rank plus grants since never exceeds the first rank: a reachable client at rank p is served after at most p + 1 grants |
| Preemption.RevokeAckWinner | src/windowing/engine.rs:480-501 | who is served when a revoked owner releases: the first reachable waiter, or the releaser if none can be reached |
| Preemption.RevokeAckRequeues | src/windowing/engine.rs:480-501 | with a reachable waiter the releaser never gets the resource straight back and is last in the new service order |
| Preemption.ReleaseFreesIdleSlot | src/windowing/engine.rs:493-500 | a release with nobody waiting frees the slot and sends nothing, also after a Revoke |
| Preemption.VacatedGoesToFirst | src/windowing/engine.rs:675-685 | a holder that lets go unasked, disconnects or is reclaimed is not put back: the first reachable client in service order gets the resource and the queue loses exactly that client and those before it |
| Preemption.DisconnectedLeavesNoTrace | src/windowing/engine.rs:513-528 | a client that disconnects owns nothing and waits nowhere; what it owned goes to the first reachable waiter; other slots keep owner and order |
| Preemption.LatestOwnerOrder | src/windowing/policy.rs:55-83 | in every reachable LatestOwner queue: preempted clients, latest requeue first, then fresh requesters, oldest first |
| Preemption.LatestOwnerServes | src/windowing/policy.rs:55-83 | between clients without a seat claim, whoever else is queued: the client served came in after every reachable fresh requester left waiting, and a preempted one is served only when no fresh one can be reached |
| Entries.QueuesIff | src/windowing/engine.rs:424-492 | a client joins a queue in a turn exactly if it asks for what a registered client holds and may wait for it, or lets go after a Revoke while somebody waiting can be reached |
| Entries.DisplaylessQueuesIff | docs/policy-engine.md:196-199 | a client without a display joins the queue of an input exactly by letting go of it after a Revoke while somebody waiting can be reached |
| Entries.DisplaylessWaiter | docs/policy-engine.md:196-204 | over any run a client that waits for an input without a display was put back by its own Release, or had a display when it asked and has lost it since |
| Entries.DisplaylessWinner | docs/policy-engine.md:196-204 | over any run a client without a display that is handed an input asked for a free one, or was waiting for one of those two reasons |
| Entries.NewOwnerWaited | src/windowing/engine.rs:411-459 | a new owner was waiting, or asked for what was free or had lost its owner, on an input in the last case with a display |
| Entries.VanishedOwnerIsReplaced | src/windowing/engine.rs:450-455 | a client that may wait for what a vanished client holds gets it at once if it can be reached; otherwise the resource is free |
| Seats.SeatPriority | src/windowing/engine.rs:387-409 | over any run, under all policies: a reachable client with the earliest seat claim becomes the owner in exactly the first turn in which the holder releases, disconnects or is reclaimed; until then the holder keeps the input and the claim stays first |
| Seats.SeatWaitsForDeadline | docs/policy-engine.md:206-207 | over any run a sweep serves a reachable earliest claim exactly if a Revoke went to the holder at least the timeout before, in its present tenure, unanswered and with no Suspend since; and there is such a Revoke exactly if somebody joined or the holder gave up or lost a display in that time |
| Seats.SeatServedByDeadline | docs/policy-engine.md:206-207 | while a holder with an armed deadline stays silent, is not suspended and loses no display, the claim is served at the latest by a sweep at or after the deadline |
| Seats.RevokingHasCause | src/windowing/engine.rs:436-449 | an owner is Revoking exactly if, in its present tenure and since the last Suspend, somebody joined the queue or it gave up or lost a display, and it has not answered |
| Scenarios.ClaimIsInherited | docs/policy-engine.md:196-207 | a run without a Suspend in which a claim left over from an earlier tenure is served by no sweep, a claim is served after its client left the display, and a client that never had a display waits |
| Scenarios.SeatWaitsForever | docs/policy-engine.md:206-207 | a run in which, after an unplug and a replug, no sweep however late serves the reachable seat |
| Seats.AcquireOutcomeIff | src/windowing/engine.rs:339-422 | an Acquire is granted exactly if the slot is there, free and not suspended; queued exactly if somebody else holds it and the client may wait for it |
| Seats.DenialIff | src/windowing/engine.rs:351-385 | exactly why an Acquire is refused: no slot, its own, device away, held input without a display, or held under first-owner |
| Seats.RefusalChangesNothing | src/windowing/engine.rs:351-385 | a refused Acquire leaves the whole engine as it was and sends nothing |
| Seats.GrantedTakesFreeSlot | src/windowing/engine.rs:411-415 | an immediate grant bypasses no waiter and changes only the owner |
| Seats.QueuedAsksHolder | src/windowing/engine.rs:387-459 | a queued client joins at the back, as a seat claim exactly if it has a display and the holder has none; a registered holder keeps the resource and is sent a Revoke if none was pending |
| Seats.SecondRevokeIff | src/windowing/engine.rs:307-335 | over any run an owner with an unanswered Revoke is sent another exactly if it gives up or loses a display, or somebody joins the queue while no deadline is armed; the latter only after a Suspend since the first Revoke |
| Seats.RevokeSentIff | src/windowing/engine.rs:303-460 | in one turn the owner is sent a Revoke exactly if it loses a display and keeps the input, or a new waiter finds no deadline armed |
| Seats.JoinerIsHeard | src/windowing/engine.rs:436-449 | after a client joined the queue the owner is Revoking as long as its tenure lasts, it does not answer and the resource is not suspended |
| Scenarios.TwoRevokesInFlight | docs/policy-engine.md:172-173 | a run in which a client with two displays is sent two Revokes for one keyboard before it answers |
| Scenarios.TwoRevokesAroundSuspend | docs/policy-engine.md:172-173 | a run in which an owner that loses no display is sent a second Revoke after a Suspend and a Resume |
| Scenarios.WaiterIsNotHeard | src/windowing/policy.rs:68-73 | a run in which a preempted client waits behind an owner that is not asked, and its next Acquire changes nothing |
| Suspension.SuspensionStability | src/windowing/engine.rs:558-602 | between Suspend and Resume an undisturbed holder keeps the resource, nothing is pushed for it, and Resume pushes exactly one Grant, to the holder |
| Suspension.SuspendOnlyMarks | src/windowing/engine.rs:558-574 | Suspend marks the slot, drops a pending revoke and changes nothing else |
| Suspension.ResumeHandsBack | src/windowing/engine.rs:575-602 | Resume of a suspended slot grants it to its registered holder again, frees one whose holder is gone and keeps queue and deadline; of one that is not suspended it does nothing |
| Suspension.SuspendedIsTakenIff | src/windowing/engine.rs:69-74 | somebody else owns a suspended resource after a turn exactly if the holder vacates it and a queued client can be reached |
| Scenarios.SuspendedIsTaken | src/windowing/engine.rs:69-74 | a run in which the seat is granted a keyboard that is unplugged |
| EngineActor.ServeQueue | src/windowing/engine.rs:631-673 | the pop loop computes the specified effect |
| EngineActor.ForgetEverywhere | src/windowing/engine.rs:513-528 | the loop over all slots, in any order, has the effect specified slot by slot |
| EngineActor.ReleaseSeatInputs | src/windowing/engine.rs:307-335 | the loop over the inputs of a former seat, in any order, asks for each of them once |
| EngineActor.Sweep | src/windowing/engine.rs:257-279 | the loop over expired slots reclaims exactly those and collects each former seat once per display lost |
| EngineActor.ReleaseAllInputs | src/windowing/engine.rs:280-282 | asking for the inputs of all former seats in turn |
| EngineActor.AcquireFrom | src/windowing/engine.rs:357-460 | the acquire decision and its effect, in the order of checks of the code |
| EngineActor.ReleaseFrom | src/windowing/engine.rs:475-501 | the release of one slot with the requeue of a revoked owner |
| EngineActor.Engine.constructor | src/windowing/engine.rs:228-244 | a fresh engine has a fresh slot under the table's policy for exactly the resources of the table, nobody registered, satisfies the invariant and has pushed nothing |
| EngineActor.Engine.Register | src/windowing/engine.rs:509-512 | the new state and the messages pushed are those of the state machine |
| EngineActor.Engine.Disconnected | src/windowing/engine.rs:513-528 | the new state and the messages pushed are those of the state machine |
| EngineActor.Engine.Acquire | src/windowing/engine.rs:529-536 | the new state, the reply and the messages pushed are those of the state machine |
| EngineActor.Engine.Release | src/windowing/engine.rs:537-547 | the new state and the messages pushed are those of the state machine |
| EngineActor.Engine.Suspend | src/windowing/engine.rs:558-574 | the new state and the messages pushed are those of the state machine |
| EngineActor.Engine.Resume | src/windowing/engine.rs:575-602 | the new state and the messages pushed are those of the state machine |
| EngineActor.Engine.Offer | src/windowing/engine.rs:603-621 | the new state is that of the state machine; an existing slot is kept |
| EngineActor.Engine.Expire | src/windowing/engine.rs:257-282 | the new state and the messages pushed are those of the state machine |
| EngineActor.Engine.Turn | src/windowing/engine.rs:503-623 | every command refines the state machine for every iteration order, and keeps the invariant |
| InventoryLaws.AdoptKeeps | src/resource_manager/hotplug.rs:483-530 | adoption keeps the four consistency rules |
| InventoryLaws.SuspendKeeps | src/resource_manager/hotplug.rs:537-560 | suspension keeps the four consistency rules |
| InventoryLaws.ResumeKeeps | src/resource_manager/hotplug.rs:570-606 | resuming, also on another node, keeps the four consistency rules |
| InventoryLaws.ReopenKeeps | src/resource_manager/hotplug.rs:457-479 | re-opening keeps the four consistency rules |
| InventoryLaws.ParkKeeps | src/resource_manager/hotplug.rs:634-640 | parking an entry overwrites no other entry and keeps the four rules |
| InventoryLaws.PassKeepsRules | src/resource_manager/hotplug.rs:233-441 | for every set of devices, every file-system answer and every iteration order a pass keeps the four rules |
| InventoryLaws.PassTold | src/resource_manager/hotplug.rs:483-618 | whoever reads the mail of a pass knows exactly which names the index then holds and which are away, and every list in the mail is true when it is read |
| InventoryLaws.PassKeepsNames | src/resource_manager/hotplug.rs:27-33 | no pass removes a name from the index |
| InventoryLaws.PassInforms | src/resource_manager/hotplug.rs:609-618 | after a pass that changed the advertised list the last message is the list as it is now |
| Lists.OfferedLast | src/types.rs:53-60 | a resource that is offered goes to the end of the list behind everything there, once |
| Lists.TakenOff | src/types.rs:62-66 | taking a resource off the list leaves the others in their order |
| Lists.PassTidy | src/resource_manager/hotplug.rs:86-88 | a pass sends only lists, suspends, resumes and offers under the policy it was given, lists nothing twice, and keeps the order of everything it does not mention |
| Visits.TakenIff | src/resource_manager/hotplug.rs:243-410 | a device is taken exactly if its node is as it was, or it opens and there is a name for it: that of the node's entry, one that awaits such a device, or a free one |
| Visits.TakenUnderTheRightName | src/resource_manager/hotplug.rs:250-410 | a device whose node changed is taken under exactly one name: that of the node's entry if it is of the class or its device is still there, else the lowest name awaiting such a device, else the least free one; the fd is the one just opened, and no other name or fd changes but that of an entry the device displaced |
| Visits.ReplacedKeepsName | src/resource_manager/hotplug.rs:314-341 | a device replaced by one of its own class keeps its name with the new fd, and no live name is lost |
| Visits.NotTakenLeaves | src/resource_manager/hotplug.rs:274-361 | a visit that cannot take its device changes nothing, except that an entry of another class without its device makes room on the node |
| Visits.RetryIff | src/resource_manager/hotplug.rs:230-241 | a pass asks for a retry exactly if some device could not be taken in its turn |
| Visits.ReopenIsSilent | src/resource_manager/hotplug.rs:301-312 | a node re-created for a device that is still there sends nothing and changes neither the list nor another entry |
| Visits.RecreatedNodeKeepsName | src/resource_manager/hotplug.rs:301-312 | a device that was taken and whose node is re-created is taken again under the same name, in silence |
| Visits.PassSuspendsIff | src/resource_manager/hotplug.rs:412-430 | the second loop suspends exactly the live entries whose node was not probed and whose sysfs device does not exist |
| Replug.PassIdempotent | src/resource_manager/hotplug.rs:68-71 | if the devices hold still and everything that opens was taken, a second pass in any order changes nothing, sends nothing, and asks for a retry exactly if some device does not open |
| Replug.QuietAfterNoRetry | src/resource_manager/hotplug.rs:226-241 | after a pass that asks for no retry every probed node is settled and a second pass does nothing and asks for none |
| Replug.OthersUntouched | src/resource_manager/hotplug.rs:243-410 | visiting a device touches no other node that exists |
| Replug.AdoptionIsLeast | src/resource_manager/hotplug.rs:642-652 | adoption gives the least unheld name of the class and fails only if the node does not open or all 256 names are held |
| Replug.TakenUnderItsClassIff | src/resource_manager/hotplug.rs:301-341 | a taken device is registered live under one name with the fd just opened, and the name is of its class exactly unless it was re-opened across classes |
| Replug.KeyboardNameOnAMouse | src/resource_manager/hotplug.rs:320-330 | a keyboard's name that grants a mouse |
| Replug.ReturnResumesIff | src/resource_manager/hotplug.rs:251-258 | a device back at its node is live again exactly if the node is a new inode |
| Replug.MouseIsForgotten | src/resource_manager/hotplug.rs:251-272 | a mouse missed by one pass is suspended, and no later pass over its unchanged node takes it back or asks for a retry |
| Replug.ReturnsOnAnotherNodeIff | src/resource_manager/hotplug.rs:366-392 | with a suspended resource of its class waiting, a taken device takes over a suspended name exactly if its node carries no entry or a suspended one of its class |
| Replug.MouseGetsANewName | src/resource_manager/hotplug.rs:274-299 | a mouse that appears on the node of an unplugged keyboard becomes a second mouse while the name of the first stays suspended |
| Repeats.PassIdempotentIff | src/resource_manager/hotplug.rs:68-71 | for devices that hold still, a second pass in any order changes nothing exactly unless a device that has no entry because its class was full now finds a suspended resource of its class; then it also sends nothing and asks for a retry exactly if some device is not settled |
| Repeats.SecondPassResumes | src/resource_manager/hotplug.rs:277-299 | a first pass leaves a mouse without a name and its node without an entry, and a second pass over the same devices resumes a suspended mouse |
| InventoryActor.AdvertisedResources.Insert | src/types.rs:53-60 | the list gains the resource at its end unless it has it |
| InventoryActor.AdvertisedResources.Remove | src/types.rs:62-66 | the list loses the resource and keeps the order of the rest |
| InventoryActor.ScanFreeIndex | src/resource_manager/hotplug.rs:642-652 | the scan finds the least free index of a class, or none |
| InventoryActor.FindSuspendedPeer | src/resource_manager/hotplug.rs:654-667 | the scan in any order finds a suspended peer with the lowest name or that there is none, and with one entry per name it is the one the pass on values takes |
| InventoryActor.CheckConsistency | src/resource_manager/mod.rs:189-257 | the checker reports exactly the violations there are, each by its kind and resource, and nothing if and only if all four rules hold |
| InventoryActor.LiveInventory.Reopen | src/resource_manager/hotplug.rs:457-479 | the in-place change is the transition on values |
| InventoryActor.LiveInventory.Adopt | src/resource_manager/hotplug.rs:483-530 | the in-place change and the mail are the transition on values |
| InventoryActor.LiveInventory.Suspend | src/resource_manager/hotplug.rs:537-560 | the in-place change and the mail are the transition on values |
| InventoryActor.LiveInventory.Resume | src/resource_manager/hotplug.rs:570-606 | the in-place change and the mail are the transition on values |
| InventoryActor.LiveInventory.ParkEntry | src/resource_manager/hotplug.rs:634-640 | the in-place change is the transition on values |
| InventoryActor.LiveInventory.VisitHeld | src/resource_manager/hotplug.rs:250-364 | the visit of a device whose node has an entry is the specified one |
| InventoryActor.LiveInventory.LetGo | src/resource_manager/hotplug.rs:412-430 | the loop over a snapshot of the index, in any order, suspends exactly the vanished entries |
| InventoryActor.LiveInventory.Reconcile | src/resource_manager/hotplug.rs:233-441 | a pass in place is the pass on values for some order that covers the index, and ends consistent |
| Startup.Discover | src/resource_manager/input.rs:196-231 | the i-th device gets the number of devices of its class before it, modulo 256 |
| Startup.OpenDevices | src/resource_manager/input.rs:105-134 | the loop registers the opened devices in order |
| Startup.RegisterAll | src/resource_manager/input.rs:105-134 | every opened device is registered under its name with its inode and device, and nothing else is |
| Startup.OrdinalCounts | src/resource_manager/input.rs:196-231 | the number of a device is how many devices of its class come before it |
| Startup.RegisterFds | src/resource_manager/input.rs:105-134 | the fd under a name is that of the last opened device that got the name |
| Startup.RegisterOrder | src/resource_manager/mod.rs:11-13 | the list is the displays as they were, then the opened inputs in the order in which they were found |
| Startup.StartupConsistentIff | src/resource_manager/input.rs:199-231 | startup is consistent if and only if no two opened devices of a class agree in their 8-bit number |
| Startup.FewDevicesAreConsistent | src/resource_manager/input.rs:196-231 | at most 256 devices in each class make startup consistent |
| Startup.TwoMiceOneName | src/resource_manager/input.rs:207-212 | 257 or more mice that open leave one name with two index entries |
| Daemon.StartupBoots | src/main.rs:38-63 | what startup builds without a clash is a state from which the daemon runs |
| Daemon.EngineHears | src/windowing/engine.rs:558-621 | whatever a turn does, the engine's input slots and their suspension change exactly as its message says |
| Daemon.DaemonSynced | src/resource_manager/hotplug.rs:483-618 | in every run, with client commands and engine turns between any two messages of a pass, the inventory is consistent and the engine, once it has read the mail under way, agrees with the index |
| Daemon.QuietAgreement | src/resource_manager/hotplug.rs:432-438 | with no mail under way: input slots are exactly the held names, suspended exactly while gone, and advertised exactly if not suspended |
| Daemon.AdvertisedIsGrantable | src/resource_manager/hotplug.rs:521-528 | whenever the engine passes a list on, the inputs on it are exactly its slots that are not suspended |
| Daemon.AdvertisedStaysRegistered | src/resource_manager/hotplug.rs:521-528 | an Acquire of an input that was ever on a pushed list is never refused as not registered |
| Daemon.EngineRuns | src/windowing/engine.rs:246-256 | the engine's turns in every run of the daemon are an engine run that ends in the engine's present state, so every theorem about engine runs holds of it |
| Daemon.OnePolicyForAll | src/main.rs:47-74 | in every run of a daemon with one policy every slot has it, for resources opened at startup and for those plugged in later |
| Drm.DrmDevice.GrantLease | src/resource_manager/drm.rs:196-240 | the state is put back on every path and the result is the specified grant |
| Drm.DrmDevice.RevokeLease | src/resource_manager/drm.rs:245-262 | the state is put back on every path and the result is the specified revoke |
| Drm.CardInStep | src/resource_manager/drm.rs:10-17 | over every sequence of calls and ioctl failures the kernel's live leases are exactly the one the server knows of, if any |
| Drm.DeadStaysDead | src/resource_manager/drm.rs:140-145 | a lease that was revoked is never live again |
| Drm.GrantSupersedes | src/resource_manager/drm.rs:193-196 | a lease handed out is live, and every lease handed out before it is dead from then on |
| Drm.RevokeKillsIff | src/resource_manager/drm.rs:242-262 | after a revoke nothing is live exactly if nothing was leased or the ioctl succeeded; otherwise nothing changed |
| Drm.GrantSucceedsIff | src/resource_manager/drm.rs:193-240 | a grant hands out an fd exactly if none of its own steps fails; an earlier lease stands in the way only if it cannot be revoked |
| Drm.GrantLeaves | src/resource_manager/drm.rs:196-240 | what a Grant call leaves, handed out or not: nothing changed if the old lease cannot be revoked; otherwise the old lease is dead and the card is leased afresh exactly if probe and lease succeed, also when the fd cannot be duplicated |
| Drm.CallKillsEarlier | src/resource_manager/drm.rs:193-262 | over runs, after any call that can revoke, whether it succeeds or not, every lease handed out before is dead and stays dead |
| Drm.StuckCallChangesNothing | src/resource_manager/drm.rs:203-213 | a call whose revoke fails hands nothing out and leaves the card as it was |
| Wire.Connection.Drain | src/client_handler/wire.rs:30-44 | the buffer grows by exactly the bytes read before the drain ended |
| Wire.Connection.DispatchFrames | src/client_handler/wire.rs:46-71 | the in-place loop is the batch parser |
| Wire.Connection.ProcessWireBytes | src/client_handler/wire.rs:21-74 | one wake-up is the specified one: drain, then parse, or end the connection without parsing when the peer closed or the read failed |
| Wire.ParseMore | src/client_handler/wire.rs:46-73 | more bytes after a parse: it goes on where it stopped, or has failed and looks at none of them |
| Wire.CutMore | src/client_handler/wire.rs:47-57 | bytes behind a complete or malformed frame do not change how it is cut off |
| Wire.PiecesDoNotMatter | src/client_handler/wire.rs:1-4 | however a stream is cut into drains, the requests dispatched, the failure and the leftover of a live connection are those of one batch parse |
| Wire.SentIsDispatched | src/client_handler/wire.rs:18-20 | frames sent are dispatched in order, each once, over any number of wake-ups with any number of reads each, and the beginning of another frame stays buffered |
| Wire.DrainsInOrder | src/client_handler/wire.rs:30-44 | a drain appends the chunks in the order read, up to the first reading that is no data, and looks at nothing behind it |
| Wire.ClosingDropsTheDrain | src/client_handler/wire.rs:32-44 | a wake-up in which the peer closes or the read fails ends the connection and dispatches nothing it read |
| Wire.BadFrameEnds | src/client_handler/wire.rs:51-59 | a header without a length or a payload that does not decode ends the connection after exactly the requests before it, however the bytes arrive |
| Wire.RefusedRequestEnds | src/client_handler/wire.rs:61-70 | a request whose dispatch fails is the last one dispatched, whatever is behind it |

## Left out

- Timing inside a turn: a turn of the engine reads the clock once, where the code reads it again for each deadline.
- Channel liveness is chosen per turn and resource; a Revoke or a re-Grant whose send result the code ignores counts as pushed.
- The bounded capacity of the engine's mailbox and back-pressure on senders.
- The text of deny reasons, logging, policy-name parsing, and the contents of a Broadcast once the engine has taken it.
- In `Daemon` a pass changes the inventory in one step and sends its messages one by one afterwards; client tasks that read the fd table or the list in the middle of a pass are not modelled.
- The second loop of a pass asks one `World` whether a device exists; two entries that share one sysfs device get the same answer within a pass.
- A placeholder key is a constructor of its own, so a real devnode named like one is excluded.
- Inventory.SuspendedPeer: among entries with equal names, which a consistent index does not have, the pass on values takes an arbitrary one.
- Inotify, coalescing, retry counts and polling intervals: a pass may run at any time.
- evdev probing and classification, sysfs and stat calls, opening and ordering of DRM cards, enumeration of the lease objects, fbdev opening: device I/O.
- Debug builds, where the startup counters stop the program instead of wrapping.
- Drm: a lease that the kernel ends by itself, and the order in which a client's Release and the engine's ownership check reach a card.
- Wire: the header and payload formats belong to the protocol crate, which is not part of this model; any header length above zero, header parser and decoder is covered.
- The accept loop, peer credentials, fd passing and the grant-ack timer.
- Display exclusion groups, which the documentation describes as not implemented.
