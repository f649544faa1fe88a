# Verified models of OPPT's state machines

OPPT is a toolkit for planning under uncertainty. This project models the parts of its repository
that are state machines, and proves what they promise in every run. `dafny verify dfyconfig.toml`
checks all of it.

**Callbacks, promises and events** (`docs/html/jquery.js`, the copy of jQuery 1.7.1 that serves the
documentation). A callback list may be changed by the very callbacks it is running. `Callbacks.dfy`
describes such a list as its entries split at the running one; `CallbackLists.dfy` is the list with
the indices of the source, proved to be that. A run is any sequence of operations, where an entry
that has control is ended by an operation of its own (`Return`), so that everything a callback does
re-entrantly comes before it. `Fires.dfy` proves what happens during one fire, `CallbackRuns.dfy`
and `Notifications.dfy` what a list promises over whole runs. `Deferreds.dfy` and
`DeferredObjects.dfy` do the same for `Deferred`, which wires three lists together, with
`LostNotifications.dfy` on what settling does to waiting notifications and `Thens.dfy` on `then`;
`Whens.dfy`, `WhenMaster.dfy` and `WhenObjects.dfy` do it for `when` over any number of Deferreds.
`EventHandlers.dfy` and `EventDispatch.dfy` are the handler array of an event and its dispatch. The
operations on different lists may come in any order. JavaScript allows fewer runs, since nested
calls return in the reverse order of their beginning, so what is proved covers those.

**The viewer** (`src/viewer/RvizInterface.cpp`). Callbacks on two threads push commands into a queue
that the main thread empties; applying a command may run callbacks on the main thread itself.
`CommandQueue.dfy` and `QueueRuns.dfy` interleave the atomic steps of both threads, with each command an
object that is made, handed over and deleted. `Displays.dfy` says what the commands do,
`ViewerState.dfy`, `ResetRuns.dfy`, `AxesRuns.dfy` and `MessageRuns.dfy` what the viewer is therefore
asked for and shows, and `ViewerObjects.dfy` is the sequential code as classes. `ViewerHandoff.dfy` is
the protocol that grants the viewer to one publisher. The assumptions: there is one viewer process;
`/viewerOccupied` starts unset and is written by nobody else; two callbacks of one subscription do not
overlap, as roscpp has it by default, while those of different subscriptions may run on either thread;
steps are sequentially consistent, the reads of the queue's size and of `fixedFrame_` outside of the
lock included. That callbacks of one subscription do not overlap is needed: one marker display and the
exclusive handoff are proved to hold in every run if and only if it is so
(`ResetRuns.OneMarkerIffApart`, `ViewerHandoff.ExclusiveIffApart`). The frame and the frame rate that
rviz begins with are its own, and may be anything.

**The player of logs** (`src/tools/PlayVideo.hpp`). `ParticleLog.dfy` sets the reader of particles
against their writer (`src/oppt/problemEnvironment/ProblemEnvironment.hpp:722-733` and
`src/oppt/robots/RobotState.cpp:71-137`), and `StateLines.dfy` the loading of a state
(`src/oppt/robots/Serializer.cpp:26-63`, `src/oppt/robots/RobotImpl/RobotImplSerializer.cpp:52-137`)
against the same writer. `TextStreams.dfy`, `StateReader.dfy` and `LogReader.dfy` are the reader as
written, `Logs.dfy` what it makes of a whole log, `Playback.dfy` the playback loops, and
`Screenshots.dfy` the file names.

Some results go against what one might expect of the code:

- The particles of a log come back as they were written only if each has its previous state printed
  and none has substates (`ParticleLog.RoundTripExactly`). The repository's own user data prints
  nothing (`src/oppt/opptCore/OpptUserData.hpp:44`, with the line that would do it commented out in
  `src/oppt/robots/RobotState.cpp:131-132`), so a belief that it writes and that is not empty is not
  read back.
- A state is loaded as it was written only if it has no substates (`StateLines.StateRoundTrip`): the
  writer cuts the last entry off each substate that is as long as the state, and behind substates the
  loader does not look for user data. A step without a state leaves an empty line, which the
  player never gets through (`Logs.StepWithoutState`).
- A belief with fewer particles than the player wants, or one in front of the first step, makes the reader
  access a vector out of its bounds (`Logs.TooFewExactly`, `Logs.BeliefFirst`).
- Particles read without a previous state break the playback of the next slice, if there are just as
  many as are wanted and that slice has substates (`Playback.PlaysVisits`).
- Before the first base-frame message the viewer shows rviz's own frame, while `fixedFrame_` is empty
  (`ViewerState.FramesAgree`).
- Skipping on from the last slice makes the playback loop miss its bound
  (`Playback.OverrunExactly`), and file names go out of order after 99999
  (`Screenshots.OrderedExactly`).
- `empty` called during a fire makes the loop read behind the end of the list, if entries were still
  to come and the running one returns before anything is added (`CallbackLists.CallbackList.Empty`).
- Notifications that wait when a Deferred is settled are lost, and no others: a progress handler gets
  all that were issued before if and only if none is waiting (`LostNotifications.WaitingAreLost`, with a
  run that loses one in `LostNotifications.OneIsLost`).
- The notifications of `when` share one array, so that one which has to wait is delivered with the
  values of a later one (`WhenMaster.DeliversLatest`).
- The test for an empty frame does not keep the viewer from being asked for axes without a frame, if
  an empty base frame may be announced besides others (`AxesRuns.AxesNameFrames`).

## Model

| member | source | states |
|---|---|---|
| `CallbackLists.CallbackList.Has` | docs/html/jquery.js:16 | `has`: true exactly when the list is alive and the function is one of its entries |
| `CallbackLists.CallbackList.PushAll` | docs/html/jquery.js:16 | the inner `add`: appends the functions of the nested arguments depth first, leaving out, under "unique", those that are there already |
| `CallbackLists.FlattenNested` | docs/html/jquery.js:16 | a nested array counts as its items in its place, and what is neither a function nor an array counts as nothing |
| `CallbackLists.CallbackList.Add` | docs/html/jquery.js:16 | `add`: new entries extend a running fire, or are run at once with the remembered call, or just wait; the index arithmetic agrees with a list split at the running entry |
| `CallbackLists.CallbackList.Remove` | docs/html/jquery.js:16 | `remove`: every occurrence of every given function goes, on either side of the running entry, and the running entry stays the running one; holds under the early exit for "unique" too |
| `CallbackLists.CallbackList.TakeOut` | docs/html/jquery.js:16 | the inner loop of `remove`: after the splices the bound of the running loop is the length of the list, and its index stands behind the same entries as before |
| `CallbackLists.CallbackList.FireWith` | docs/html/jquery.js:16 | `fireWith`: starts a fire, or queues it behind the running one, or does nothing on a list that is locked or was fired under "once" |
| `CallbackLists.CallbackList.Fire` | docs/html/jquery.js:16 | the inner `fire`: runs from the firing start with the given context and arguments |
| `CallbackLists.CallbackList.Loop` | docs/html/jquery.js:16 | the test of the firing loop: gives control to the next entry, or ends the fire and starts the next waiting one |
| `CallbackLists.CallbackList.Return` | docs/html/jquery.js:16 | an entry returns: the loop goes on with the next entry, or, with `false` under "stopOnFalse", stops and forgets the memory |
| `CallbackLists.CallbackList.Empty` | docs/html/jquery.js:16 | `empty` outside of a fire empties the list; during a fire, if the running entry returns before anything is added, the loop reads behind the end exactly if entries were still to come |
| `CallbackLists.CallbackList.Disable` | docs/html/jquery.js:16 | `disable`: the list, its queue and its memory are gone |
| `CallbackLists.CallbackList.Lock` | docs/html/jquery.js:16 | `lock`: no fire can be queued any more, and a list that remembers no call is disabled |
| `Callbacks.RemovedInv` | docs/html/jquery.js:16 | removing keeps the invariant of the list, the absence of duplicates under "unique" included |
| `Callbacks.AddedInv` | docs/html/jquery.js:16 | so does adding, whether it extends a fire, replays the memory or just appends |
| `Callbacks.FiredInv` | docs/html/jquery.js:16 | so does firing |
| `Callbacks.ReturnedInv` | docs/html/jquery.js:16 | so does the return of an entry |
| `Callbacks.AcceptedOne` | docs/html/jquery.js:16 | without "unique" every function is appended; under "unique" one that is there already is not |
| `Callbacks.AcceptedNew` | docs/html/jquery.js:16 | under "unique" exactly the functions that are new are appended, once each |
| `CallbackRuns.RunInv` | docs/html/jquery.js:16 | the invariant holds after any sequence of re-entrant adds, removes, fires, locks, disables and returns |
| `CallbackRuns.PartsInv` | docs/html/jquery.js:16 | and after any sequence of such runs with `empty` of the idle list in between |
| `CallbackRuns.EmptiedRuns` | docs/html/jquery.js:16 | after `empty` of an idle list nothing that was in it runs unless it is added again, and a list that remembers no call can be filled anew, even a disabled one |
| `CallbackRuns.ExactlyOnce` | docs/html/jquery.js:16 | "once memory": every function nobody removes is invoked exactly once per time it was added, in the order of the adds, with the context and arguments of the first fire; nothing runs before that fire, and later fires add nothing |
| `CallbackRuns.FiredExactly` | docs/html/jquery.js:16 | `fired` of such a list, which looks at the memory only, tells exactly whether a fire was ever asked for |
| `CallbackRuns.LockedUnfired` | docs/html/jquery.js:16 | a "once memory" list locked before its first fire never invokes anything |
| `CallbackRuns.AbsentNeverRuns` | docs/html/jquery.js:16 | a function that is in no part of the list and is not added is never invoked |
| `CallbackRuns.RemovedNeverRuns` | docs/html/jquery.js:16 | after `remove`, at whatever point of a fire, a function is not invoked again unless it is added again |
| `Fires.OneTurnEach` | docs/html/jquery.js:16 | during a fire of a list of any kind, whatever is added or removed: the entries that nobody removes have their turns once each and in order, the ones added follow, and every turn gets this fire's context and arguments |
| `Fires.WholeFire` | docs/html/jquery.js:16 | and from its start: all entries have their turns once each and in order, and every turn gets the context and arguments that were asked for |
| `Fires.FalseEndsFire` | docs/html/jquery.js:16 | `false` under "stopOnFalse" ends the fire without the entries still to come; a "once" list is then dead in every further run, any other goes on with the next waiting fire or has forgotten its call, so that nothing runs before the next fire |
| `Fires.OnceDies` | docs/html/jquery.js:16 | when its fire is over, a "once" list without "memory" is dead in every further run |
| `Notifications.FiresInOrder` | docs/html/jquery.js:16 | on a repeating "memory" list that is never locked, the fires that were started and the ones that wait are together the fires that were issued, in that order |
| `Notifications.HandlerSeesSuffix` | docs/html/jquery.js:16 | a handler added once gets each issued call from the latest one known when it was added, once and in order, and all of them by the time the list is idle |
| `Notifications.Drains` | docs/html/jquery.js:16 | when no further fires are issued, as many returns as there are turns left end the firing |
| `DeferredObjects.DeferredObject.constructor` | docs/html/jquery.js:16 | `Deferred`: three lists, the first two wired to set the state, disable each other and lock the third |
| `DeferredObjects.DeferredObject.Handle` | docs/html/jquery.js:16 | `done` and `fail`: the handlers are added to the right list, and the wiring that gets control runs |
| `DeferredObjects.DeferredObject.HandleProgress` | docs/html/jquery.js:16 | `progress` |
| `DeferredObjects.DeferredObject.IsSettled` | docs/html/jquery.js:16 | `isResolved` and `isRejected`: after any run they answer as `state` does |
| `DeferredObjects.DeferredObject.Then` | docs/html/jquery.js:16 | `then` is `done`, `fail` and `progress` one after the other, with anything that the handlers invoked by one of them do to the Deferred before the next |
| `Thens.ThenIsRun` | docs/html/jquery.js:16 | if these handlers only come back, the lists are at rest again before the next add, and `then` is a function of its arguments |
| `Thens.ThenHandlers` | docs/html/jquery.js:16 | the handlers given to `then` go to the lists that they are meant for, each at its place in the order of the whole run |
| `Thens.ThenSettles` | docs/html/jquery.js:16 | settled after that, a Deferred invokes those of the outcome behind all earlier ones, with that call, and none of the others |
| `DeferredObjects.DeferredObject.Settle` | docs/html/jquery.js:16 | `resolveWith` and `rejectWith`: fires the list and runs its wiring until the first handler from outside has control |
| `DeferredObjects.DeferredObject.Notify` | docs/html/jquery.js:16 | `notifyWith` |
| `DeferredObjects.DeferredObject.Return` | docs/html/jquery.js:16 | a handler of the done or fail list comes back |
| `Deferreds.SettlePending` | docs/html/jquery.js:16 | settling a pending Deferred sets its state, kills the other list, locks the progress list and invokes the handlers in order |
| `Deferreds.DeferredStep` | docs/html/jquery.js:16 | every operation keeps the invariant of the three lists; only settling a pending Deferred changes the state |
| `Deferreds.SettlesOnce` | docs/html/jquery.js:16 | in any re-entrant run the first resolve or reject decides the state; the handlers of that side are invoked exactly once each, in order, with that call, and none of the other side ever is |
| `Deferreds.StateIsFinal` | docs/html/jquery.js:16 | once settled the state never changes |
| `Deferreds.PredicatesAgree` | docs/html/jquery.js:16 | whenever foreign code can look, `isResolved` and `isRejected` hold exactly when `state` says so |
| `Deferreds.NoNotificationAfterSettling` | docs/html/jquery.js:16 | every invocation of a progress handler after settling carries the last notification that had been started by then |
| `LostNotifications.LockedRun` | docs/html/jquery.js:16 | a locked list does what the same list would do unlocked if nobody fired it any more |
| `LostNotifications.WaitingAreLost` | docs/html/jquery.js:16 | of the notifications issued before the Deferred is settled a progress handler gets, from the latest one known when it was added, those that had been started by then, in order and once each, and never the waiting ones; so it gets all of them if and only if none was waiting, which is so whenever no progress handler is running |
| `LostNotifications.LateHandler` | docs/html/jquery.js:16 | a progress handler added after settling gets the last notification that had been started by then, once, and no other |
| `LostNotifications.OneIsLost` | docs/html/jquery.js:16 | a run in which a notification is lost: a progress handler notifies again and then settles the Deferred |
| `Deferreds.AtMostOneInvoked` | docs/html/jquery.js:16 | an operation on one list gives control to at most one handler from outside, and to none of the other list |
| `Whens.WaitsForAll` | docs/html/jquery.js:16 | at any time after `when` with two or more arguments, also when handlers of the master try to settle it again: the counter is the number of inputs still open; the master is resolved exactly when it is zero, and rejected exactly when an input has passed on its rejection, with the call of one that did; when no handler is running, exactly when all inputs are resolved or one is rejected |
| `Whens.ValuesInOrder` | docs/html/jquery.js:16 | the resolved master hands over, in the order of the arguments, the plain values and what each promise was resolved with: its one argument, all of them as an array if there are several, and nothing if there is none |
| `Whens.FailedStaysOpen` | docs/html/jquery.js:16 | after a rejection the counter cannot reach zero |
| `WhenMaster.DeliversLatest` | docs/html/jquery.js:16 | at any time after `when`, an operation gives control to at most one progress handler of the master; it is applied to the shared array, which at the place of each input holds what that input was last notified with (one argument itself, several as an array), whenever the notification of the master was issued |
| `WhenMaster.MasterIsRun` | docs/html/jquery.js:16 | the master is a Deferred after a run of its own, so that all results on Deferreds hold of it; until it is settled it has been notified exactly once for each notification of an input |
| `WhenMaster.MasterInvokesOnce` | docs/html/jquery.js:16 | the handlers added to the master for the outcome it comes to are invoked exactly once each, in order, the done handlers with the values of all inputs, the fail handlers with the call with which one of the inputs was rejected; those for the other outcome never are |
| `WhenObjects.WhenCall.constructor` | docs/html/jquery.js:16 | the shared variables as `when` sets them up |
| `WhenObjects.WhenCall.Done` | docs/html/jquery.js:16 | the done handler of an input stores its argument, or all of them as an array, at its place and nothing elsewhere, counts down and resolves the master at zero |
| `WhenObjects.WhenCall.Fail` | docs/html/jquery.js:16 | the fail handler rejects the master with the same call |
| `WhenObjects.WhenCall.Progress` | docs/html/jquery.js:16 | the progress handler stores its argument, or all of them as an array, in the shared array and notifies the master with that array |
| `WhenObjects.WhenCall.TakePlain` | docs/html/jquery.js:16 | a plain argument is one less to wait for |
| `WhenObjects.WhenCall.Start` | docs/html/jquery.js:16 | with nothing to wait for the master is resolved at once |
| `EventHandlers.HandlerArray.Add` | docs/html/jquery.js:16 | `event.add` keeps the array arranged: a handler with a selector goes behind the others that have one, any other goes to the end |
| `EventHandlers.HandlerArray.Remove` | docs/html/jquery.js:16 | `event.remove`: after the splices the array is the arrangement of the handlers that do not match, and `delegateCount` still counts those with a selector |
| `EventHandlers.RemovedExactly` | docs/html/jquery.js:16 | which handlers that are: all of those, and only those, whose type, guid and namespaces fit the query, and whose selector is the given one, or any at all for `**`, or if the query has none |
| `EventHandlers.Partition` | docs/html/jquery.js:16 | the first `delegateCount` entries are exactly those with a selector, and the array holds every live handler as often as it was added |
| `EventHandlers.RemovedArranged` | docs/html/jquery.js:16 | filtering the array is the same as arranging the handlers that stay |
| `EventDispatch.Collect` | docs/html/jquery.js:16 | the first half of `dispatch` finds, going up from the target, the delegated handlers whose selectors fit, and then all direct ones |
| `EventDispatch.MatchesOf` | docs/html/jquery.js:16 | trying each selector once per element gives the same handlers as trying it for each handler |
| `EventDispatch.Deliver` | docs/html/jquery.js:16 | the second half: the deliveries are the first ones of all possible, up to the first one that an earlier handler prevents, having stopped the event immediately, or its propagation at another element |
| `EventDispatch.Dispatch` | docs/html/jquery.js:16 | both halves together, for any array reached by adds and removes |
| `EventDispatch.DirectOnce` | docs/html/jquery.js:16 | what can be delivered: a delegated handler, as often as it is live, once at each element that fits its selector and nowhere else, and each direct handler as often as it is live, each only if the event is meant for its namespaces |
| `EventDispatch.InOrder` | docs/html/jquery.js:16 | in which order: going up from the target, at each element in the order in which the handlers were added, and the direct ones last, in that order too |
| `Displays.FirstAt` | src/viewer/RvizInterface.cpp:46-62 | removal takes out exactly the first display of that name; those before it and behind it stay, in order |
| `Displays.NoneAt` | src/viewer/RvizInterface.cpp:46-62 | and nothing if there is none |
| `Displays.AddedLast` | src/viewer/RvizInterface.cpp:69-91 | a command that adds a display puts one at the end, with its name and type, its topic and the type of its messages each in its place if both are given, and its frame if it is for axes |
| `Displays.RemoveFirstCount` | src/viewer/RvizInterface.cpp:46-62 | so it takes one away from the number of displays of that name, if there are any, and nothing from that of any other name |
| `Displays.CountApply` | src/viewer/RvizInterface.cpp:246-258 | what one command does to the number of displays of a name |
| `Displays.CountLaw` | src/viewer/RvizInterface.cpp:240-270 | the number of displays of a name after any commands is the larger of the old number plus adds less removes and the best suffix |
| `Displays.LastRate` | src/viewer/RvizInterface.cpp:252-258 | the frame rate is that of the last command that sets one, and is left alone if none does |
| `Displays.BestSuffixIsMaximum` | src/viewer/RvizInterface.cpp:240-270 | the best suffix is the maximum of adds less removes over all suffixes, the empty one included |
| `ViewerObjects.DisplayManager.RemoveDisplay` | src/viewer/RvizInterface.cpp:46-62 | the loop over the display group does that removal |
| `ViewerObjects.DisplayManager.Execute` | src/viewer/RvizInterface.cpp:246-258 | the branches on the tag apply the command |
| `ViewerObjects.CommandQueueOwner.ProcessQueue` | src/viewer/RvizInterface.cpp:240-270 | with commands arriving during any turn, the loop ends after exactly one turn per command, with an empty queue and the commands applied in order of arrival |
| `CommandQueue.InvSafe` | src/viewer/RvizInterface.cpp:240-270 | in a state of the invariant no access goes wrong: no front of an empty queue, no use of a deleted command, no wrong downcast, no second delete, no pop of another pointer |
| `CommandQueue.StepInv` | src/viewer/RvizInterface.cpp:233-270 | every atomic step of either thread is safe and keeps lock, ownership, front and order invariants |
| `QueueRuns.NothingUndefined` | src/viewer/RvizInterface.cpp:233-270 | no interleaving of producers and consumer makes such an access |
| `QueueRuns.FirstInFirstOut` | src/viewer/RvizInterface.cpp:233-270 | in every reachable state the commands applied and then the ones waiting are the commands pushed, in order |
| `QueueRuns.Refines` | src/viewer/RvizInterface.cpp:233-270 | each step is one enqueue, one dequeue or nothing on an atomic queue |
| `QueueRuns.LockDiscipline` | src/viewer/RvizInterface.cpp:233-270 | the lock is never held by both, nor by the consumer while it applies a command or calls back, so a nested push cannot block on it |
| `QueueRuns.NoDeadlock` | src/viewer/RvizInterface.cpp:113-117 | whoever holds the lock can go on, and whoever waits waits for the other thread |
| `QueueRuns.OneOwner` | src/viewer/RvizInterface.cpp:233-270 | every existing command belongs either to the queue or to one producer that has not pushed it |
| `QueueRuns.LoopEnds` | src/viewer/RvizInterface.cpp:242-269 | in every interleaving the loop takes at most ten actions for each command in the queue and each one pushed meanwhile, and two more |
| `QueueRuns.CallsBackInAdds` | src/viewer/RvizInterface.cpp:111-117 | the loop runs callbacks of its own thread only while it adds a display, and in every such one it may |
| `ResetRuns.Drain` | src/viewer/RvizInterface.cpp:242-269 | with no callback under way the loop, left alone, empties the queue |
| `ViewerState.OneMarkerDisplay` | src/viewer/RvizInterface.cpp:382-393 | when resets do not overlap, never more than one marker display, and that one shows the markers' topic with the right type of messages; exactly one whenever everything pushed is applied and no reset is halfway |
| `ResetRuns.OverlappingResets` | src/viewer/RvizInterface.cpp:382-393 | when they may overlap, an interleaving of both threads that ends with two marker displays |
| `ResetRuns.OneMarkerIffApart` | src/viewer/RvizInterface.cpp:382-393 | at most one marker display in every run, if and only if callbacks of one subscription do not overlap |
| `ViewerState.FramesAgree` | src/viewer/RvizInterface.cpp:277-283 | when everything pushed is applied and no base-frame callback is halfway: the shown frame is `fixedFrame_` once a base-frame command has been pushed, and before that the frame rviz began with, while `fixedFrame_` is empty; so they agree exactly in the first case or if rviz began with the empty frame |
| `AxesRuns.AxesNameFrames` | src/viewer/RvizInterface.cpp:300-315 | the callback tests `fixedFrame_` and reads it again: no run asks for axes without a frame if and only if no empty base frame is announced, or none but empty ones |
| `AxesRuns.AxesWithoutFrame` | src/viewer/RvizInterface.cpp:300-315 | otherwise, an interleaving of both threads that does |
| `MessageRuns.FrameShown` | src/viewer/RvizInterface.cpp:277-283 | from rest, a base-frame message and the loop bring the viewer to that frame, and change nothing else |
| `MessageRuns.RateShown` | src/viewer/RvizInterface.cpp:285-289 | a frame-rate message brings it to that rate, a negative one wrapped around to 32 bits |
| `MessageRuns.AxesShown` | src/viewer/RvizInterface.cpp:300-316 | a world-frame message shows axes at the fixed frame if asked to and the frame is not empty, and otherwise takes the first axes away |
| `MessageRuns.ResetShown` | src/viewer/RvizInterface.cpp:382-393 | a reset takes the first marker display away and shows a new one at the end |
| `ViewerHandoff.ExclusiveIffApart` | src/viewer/RvizInterface.cpp:185-197 | grant and alive check never overlap, the viewer is granted again only after its publisher was found missing, and one is found missing only when the check was told that its service is, in every run, if and only if registrations do not overlap |
| `ViewerHandoff.NameIsStable` | src/viewer/RvizInterface.cpp:185-197 | the registered name does not change while there is a service client |
| `ViewerHandoff.RegistrationDecides` | src/viewer/RvizInterface.cpp:185-197 | a registration on its own is refused while somebody has the viewer, and gets it otherwise |
| `ViewerHandoff.StepInv` | src/viewer/RvizInterface.cpp:364-375 | each action of the check and of the registration keeps the handoff invariant; the holder loses the viewer exactly when the check is told that its service is missing |
| `ViewerHandoff.MissingReported` | src/viewer/RvizInterface.cpp:364-375 | in any run the publishers found missing are those of whom the check was told so, in that order |
| `ViewerHandoff.HolderStays` | src/viewer/RvizInterface.cpp:364-375 | as long as it is not told so, whoever has the viewer keeps it |
| `ViewerHandoff.CheckDecides` | src/viewer/RvizInterface.cpp:364-375 | a check on its own leaves everything as it was if the service exists, and frees the viewer otherwise |
| `ParticleLog.RoundTripExactly` | src/tools/PlayVideo.hpp:89-137 | what the simulator writes is read back particle by particle if and only if every particle has its previous state printed and no substates |
| `ParticleLog.GoodParticle` | src/oppt/robots/RobotState.cpp:71-137 | such a particle is read back with its values and its previous state together |
| `ParticleLog.NothingPrinted` | src/tools/PlayVideo.hpp:119-134 | without a printed previous state, what follows is taken for one |
| `ParticleLog.SubStatesPrinted` | src/tools/PlayVideo.hpp:115-134 | with substates the previous state is not looked for, and the rest of the line is left |
| `ParticleLog.Derailed` | src/tools/PlayVideo.hpp:94-137 | and then the following particles do not come back as written |
| `StateLines.VectorBack` | src/oppt/robots/Serializer.cpp:26-63 | the values and the weight of a state are loaded from what was printed |
| `StateLines.WithoutPrefix` | src/oppt/robots/Serializer.cpp:34-37 | and the same without the prefix |
| `StateLines.NullIsUsed` | src/oppt/robots/Serializer.cpp:39-40 | "NULL" gives no state, which the rest of the loading then uses, unless it never ends |
| `StateLines.StateBack` | src/oppt/robots/RobotImpl/RobotImplSerializer.cpp:52-137 | what comes back of a written state: its values and weight; its substates, cut and normalized; and, only if it has none, its user data up to the first word that ends them |
| `StateLines.StateRoundTrip` | src/oppt/robots/RobotImpl/RobotImplSerializer.cpp:52-137 | a state comes back as it was written if and only if it has no substates and its user data do not contain the text that ends them |
| `StateLines.SubStateRoundTrip` | src/oppt/robots/RobotState.cpp:83-95 | without normalization the substates come back whole if and only if each is shorter than the state, or the state is empty |
| `StateLines.CutAtTheEnd` | src/oppt/robots/RobotState.cpp:83-95 | what comes back of any substate are its first entries: all if it is shorter than the state or the state is empty, and else one less than the state has |
| `StateReader.LoadVector` | src/oppt/robots/Serializer.cpp:26-63 | the loops of `VectorSerializer::loadState` |
| `StateReader.ReadSubStates` | src/oppt/robots/RobotImpl/RobotImplSerializer.cpp:67-87 | the loop over the substates |
| `StateReader.ReadUserData` | src/oppt/robots/RobotImpl/RobotImplSerializer.cpp:121-133 | the words handed to the loading of user data |
| `StateReader.LoadState` | src/oppt/robots/RobotImpl/RobotImplSerializer.cpp:52-137 | the loading of a state from any line on which it ends |
| `TextStreams.TextStream.Next` | src/tools/PlayVideo.hpp:96 | `>>` takes the next word across line ends and notices the end of the text |
| `TextStreams.TextStream.Shift` | src/oppt/robots/RobotImpl/RobotImplSerializer.cpp:64-65 | `>>` where the words may have run out: then the string stays as it was |
| `TextStreams.TextStream.ReadLine` | src/tools/PlayVideo.hpp:178-190 | `getline`: the rest of the line; at the end of the text the string stays as it was |
| `TextStreams.EveryLine` | src/tools/PlayVideo.hpp:178-190 | a line without an end is taken too, and the end of the text met |
| `LogReader.ReadValues` | src/tools/PlayVideo.hpp:101-108 | reads numbers up to a word with "w:" |
| `LogReader.ReadComponent` | src/tools/PlayVideo.hpp:101-134 | reads one particle |
| `LogReader.ReadComponents` | src/tools/PlayVideo.hpp:94-137 | reads the particles of a block |
| `LogReader.Shuffle` | src/tools/PlayVideo.hpp:139 | the shuffle permutes, whatever numbers are drawn, and uses up one number for each entry but the first |
| `LogReader.AnyOrder` | src/tools/PlayVideo.hpp:139 | there are numbers for which it brings about any given order of the same particles |
| `LogReader.FoundAnywhere` | src/tools/PlayVideo.hpp:163-169 | a marker counts wherever it is in its line |
| `LogReader.ParseParticles` | src/tools/PlayVideo.hpp:89-146 | exactly `particleSize` particles of the block, each at most as often as it is there; outside of the vector exactly if there are fewer |
| `LogReader.ToMarker` | src/tools/PlayVideo.hpp:162-179 | the inner loop of `parseStates` goes to the next marker or to the end, reading the blocks on its way into the last slice |
| `LogReader.ParseStates` | src/tools/PlayVideo.hpp:154-194 | the slices that the text calls for, each with the state loaded from its line and a selection of its own block; a fault exactly where a vector would be left or a missing state be used |
| `Logs.WholeLog` | src/tools/PlayVideo.hpp:154-194 | a log written with one marker, one state and any further lines and beliefs per step is read as one slice per step, in order, with what comes back of that step's state and its last belief |
| `Logs.StepWithoutState` | src/oppt/problemEnvironment/StepResult.hpp:30-36 | if such a log comes to a step that has no state, the player never gets through it |
| `Logs.StepWithNull` | src/oppt/robots/Serializer.cpp:39-40 | if it comes to a step whose state is "NULL", the player uses a state that is not there |
| `Logs.TooFewExactly` | src/tools/PlayVideo.hpp:139-143 | of a log with readable beliefs of any size: the player reads outside of a vector if and only if some belief has fewer than `particleSize` particles, and gets one slice per step otherwise |
| `Logs.BeliefFirst` | src/tools/PlayVideo.hpp:169-170 | so it does if a belief comes before the first step |
| `Logs.ReadLog` | src/tools/PlayVideo.hpp:323 | reading such a log gives one slice per step, with its state, a selection of its own last belief, and every particle with its previous state |
| `Logs.PlayLog` | src/tools/PlayVideo.hpp:323-324 | playing it never misses a previous state, overruns exactly when it is made to skip at the last step, and without skips shows the frames that the substates of all steps call for |
| `Logs.PassBelief` | src/tools/PlayVideo.hpp:169-178 | a belief of readable particles goes whole into the slice under way and into no other |
| `Playback.PlaySubStates` | src/tools/PlayVideo.hpp:230-254 | the loop over the substates shows all but the last, or the only one, at k / n; it breaks, before showing any, exactly if the slice before has `particleSize` particles and one of them without a previous state |
| `Playback.PlaySlice` | src/tools/PlayVideo.hpp:229-269 | one slice: its substates and then its state, one number each, unless it breaks |
| `Playback.PlayTimeSlices` | src/tools/PlayVideo.hpp:222-277 | the whole loop: its frames and its end, and screenshots numbered 1, 2, 3 and so on modulo the width of the counter |
| `Playback.PlaysVisits` | src/tools/PlayVideo.hpp:229-277 | its frames are those of the slices visited, up to the first one that breaks; it ends with a missing previous state if and only if a visited slice breaks, else behind the slices if and only if it overruns |
| `Playback.NullStateExactly` | src/tools/PlayVideo.hpp:233-242 | it uses a previous state that is not there if and only if a visited slice has substates and the one before it has `particleSize` particles, one of them without |
| `Playback.SliceAccount` | src/tools/PlayVideo.hpp:230-269 | unless the slice breaks: n frames for n substates, n + 1 for 0 or 1; the k-th at k / n in [0, 1); particles move exactly when the slice before has `particleSize` of them, each on the way from its previous state to itself; in the last frame all of the slice before have arrived |
| `Playback.VisitsAreAt` | src/tools/PlayVideo.hpp:229-276 | the slices visited are those at the positions that the answers lead to |
| `Playback.OverrunExactly` | src/tools/PlayVideo.hpp:270-277 | the loop misses its bound exactly when the answers make it skip at the last slice |
| `Playback.NothingSkipped` | src/tools/PlayVideo.hpp:229 | without skips every slice is played once, in order |
| `Playback.OneSkip` | src/tools/PlayVideo.hpp:270-276 | with one skip, the slice behind the one just played is left out and no other |
| `Playback.FramesCounted` | src/tools/PlayVideo.hpp:229-269 | the total number of frames is the sum over the slices played |
| `Playback.NumbersDistinct` | src/tools/PlayVideo.hpp:222-269 | the numbers have no gap as long as the counter does not wrap, and no repetition as long as it has enough values |
| `Screenshots.PaddedValue` | src/tools/PlayVideo.hpp:196-203 | the number can be read back from its padded decimal form |
| `Screenshots.NamesDiffer` | src/tools/PlayVideo.hpp:196-208 | different numbers give different file names |
| `Screenshots.NamesInOrder` | src/tools/PlayVideo.hpp:196-208 | up to 99999 names are ordered as the numbers are |
| `Screenshots.OrderedExactly` | src/tools/PlayVideo.hpp:196-208 | the names of the numbers 0 to last are in order if and only if last is at most 99999 |

## Left out

- Callbacks that throw: the firing loop has no handling for them and the list stays marked as firing.
- `empty` during a fire, beyond saying when the loop reads behind the end of the list; runs have it only on an idle list.
- `pipe`, `always`, `promise` objects as such, and `when` with no or one argument.
- `when` over promises that are not made by `Deferred`.
- WhenObjects.WhenCall.Done: the loop of `when` that attaches handlers to the promises is modelled on values (`Whens.Begin`); the class has the shared variables and the handlers, not the aliasing of one promise given as several arguments.
- CommandQueue.StepInv: the interleaved queue and the handoff are modelled on values, with object identities as numbers; `ViewerObjects` has the sequential code as classes.
- `event.add` and `event.remove` for one type of event on one element: splitting the list of types, mapped and special types and their hooks, handler objects and the browser's own listeners are not modelled; namespaces are sets, as sorting them and the pattern built from them amount to.
- EventDispatch.Dispatch: what handlers do to the event is given by the number of the delivery; bubbling beyond the element, `trigger` and the event object are not modelled.
- The displays of rviz: creating one appends it, taking one out removes the given one and always succeeds; every display is enabled, as no command says otherwise; the properties of axes, messages published and the screenshot commands are not modelled.
- The subscription for the world frame is replaced right after it is made, so that its messages need not arrive; the model allows them to.
- Texts of display names, types and tags are enumerated values, of which the code only tests equality.
- Several viewers on one parameter server, or a `/viewerOccupied` left behind by an earlier process.
- Logs that end inside a block of particles: the word loops never end there; `LogReader` asks that the words suffice.
- Blanks after the last word of a file, which decide whether the stream has noticed its end; the text is taken to end with a word or a line end.
- The numbers in a log are abstract, and with them the precision they are printed with; a word that is not a number is read as 0.
- StateLines.StateBack: the world state of Gazebo, which is written and loaded only while its logging is on, is not modelled; of user data only the words are, not what a plugin makes of them.
- The distribution of the shuffle: any numbers may be drawn.
- LogReader.ParseStates: after a fault the original goes on with undefined contents; the model stops.
- Playback.PlayTimeSlices: times are reals, without rounding; the counter of frames has 32 bits, that of substates is unbounded, as are sizes; sleeping, publishing and the viewer calls are not modelled; after the loop has missed its bound, or a previous state is missing, the model stops.
- The global helpers and macros (`src/oppt/global.hpp`, `src/oppt/defs.hpp`), ShowScene and the main files, and the rest of jquery.js and of the generated documentation would add only easy members.
- The planning solvers and the physics are not part of this model.
