# A verified model of libzmq's in-memory machinery

libzmq moves messages between sockets with a handful of small state machines made of
pointers, counters and swaps. Each one is short; what it guarantees only shows over whole
runs. This project models those machines in Dafny, in the form the C++ has (classes whose
methods update fields, loops with invariants, arrays that are changed in place), and proves
the guarantees.

- **Ownership and termination** (`Ownership*.dfy`, `OwnedObject.dfy`). Objects form a tree and
  exchange `plug`, `own`, `term_req`, `term` and `term_ack` through one FIFO mailbox per
  thread. `OwnershipProtocol` is the whole system as a step function in which every choice of
  schedule is an event; the other modules prove one inductive invariant of it and draw safety, the
  absence of a stuck shutdown, what each event does to whom, and, with a measure, the end of a
  shutdown from it, of the whole tree or of a part. `OwnedObject` is `own_t` as a class, proved to do
  what the protocol's steps say.
- **The subscription multi-trie** (`MTrie*.dfy`). Nodes live in an explicit heap; `add`, `match`
  and both forms of `rm` are proved against a map from prefixes to sets of subscribers.
- **Pipe schedulers** (`PipeArray`, `Dist*`, `Ring*`, `LoadBalancer*`, `FairQueue*`, `Waiting`). One array,
  split by counters, changed by swaps only. Whether a pipe accepts or has a message is a
  parameter of each call, so the theorems hold whatever pipes accept and have.
- **Publishing** (`PubSub`, `SubscriptionWire`). `xpub_t` joins the trie with the distributor, and reads
  the subscriptions that the codec brings.
- **Reference counts** (`Messages`, `MessagePool`, `SharedBuffer`). Contents of messages, and
  receive buffers shared by messages. What a caller must see to is said of its own handles only:
  each answers for a number of references, and whether a content is alive is what is proved.
- **The context** (`Context`, `Inproc`). Slots, the end of the context, and the meeting of
  binding and connecting inproc sockets. Every operation runs under a lock, so each is one
  atomic step and an invariant that all of them keep holds under every interleaving.
- **The codec** (`Wire`, `Encoder`, `Decoder`, `StreamEngine`, `SharedReceive`) and **metadata** (`Metadata`,
  `Mechanism`). Incremental engines and their whole-stream meaning.

Where the code does not keep a promise that its design suggests, the project keeps the code,
shows an input, and proves exactly when the promise is kept:

- A subscription or cancellation whose body has exactly 255 bytes is framed with an eight-byte
  size but without the flag that says so (`src/v2_encoder.cpp:59-74`), so it is not decoded to
  what was sent. Every other message that is not too long survives, and a stream is decoded to
  what was sent exactly if all its messages do (`Wire.RoundTrip`, `Wire.FramesFeed`).
- A pipe that cancels a subscription it does not have makes `xpub_t` report that the topic has
  no subscribers, even if others subscribed to it (`src/xpub.cpp:144-162`). What the user is
  told agrees with the subscriptions for as long as no such event happens
  (`PubSub.StrayCancelMisleads`, `PubSub.CancelAgrees`, `PubSub.ToldIsTrue`).
- When a pipe goes that is neither the first slot nor the one whose turn it is, while the turn is
  with the last active slot, `lb_t` and `fq_t` give the turn to slot 0 in the middle of a message
  (`src/lb.cpp:62-67`, `src/fq.cpp:58-63`). Unless the pipe that goes is the one whose turn it is,
  this is the only case in which the turn changes (`Ring.RemovedKeepsTurn`). Runs are given in which
  `lb_t` then sends a part to a pipe that has no part before it, and `fq_t` fails an assertion
  (`LoadBalancerFailures.MisplacedPartGoesAstray`, `FairQueueFailures.MisplacedAborts`).
- An endpoint that is disconnected is not drained (`src/socket_base.cpp:1283-1288`,
  `src/pipe.cpp:199-204`, `src/pipe.cpp:416-434`). If a message is being read from it, the next call
  fails the assertion of `src/fq.cpp:112`, or, if the pipe is gone by then, reads the first part of
  another message as if it continued this one (`FairQueueFailures.ShutAborts`,
  `FairQueueFailures.GoneMixes`). Messages are read whole for as long as no such event happens, and
  the first one breaks it (`FairQueueRuns.StepExact`, `FairQueueRuns.MessagesAreReadWhole`).
- If the last part of a message finds no room, `lb_t` takes the parts before it back, and the caller
  gets the part back with `EAGAIN` (`src/lb.cpp:98-127`, `src/socket_base.cpp:1337-1347`). A caller
  that repeats it has it sent alone, as a message of its own. Any other part that is repeated is
  dropped (`LoadBalancerRuns.RepeatExact`, `LoadBalancerFailures.RepeatedTailIsAlone`).
- A pipe that refuses a later part stays among the active ones of `lb_t`, since the parts before it
  are taken back and the loop ends (`src/lb.cpp:98-127`). This happens if the high water mark is
  lowered in the middle of a message (`src/socket_base.cpp:1674-1682`, `src/pipe.cpp:236-249`,
  `src/pipe.cpp:562-567`). When the pipe has room again it reports so (`src/pipe.cpp:296-305`), and
  `activated` swaps it with the slot behind the active ones (`src/lb.cpp:71-76`). If all pipes are
  active, the array has no such slot (`LoadBalancerFailures.ActiveIsActivated`); the swap is in
  bounds exactly if there is a pipe that is not active (`RingArray.RingArray.Enter`,
  `LoadBalancerRuns.StepExact`).
- `dist_t` does not take the parts of a message back from a pipe that refuses a later part
  (`src/dist.cpp:214-228`). If the pipe has room again for the next message, it is given that one
  right behind the first parts of the other (`DistRuns.RefusalJoinsMessages`). Pipes are given whole
  messages for as long as none is left out in the middle of one, and the first event that does so
  breaks it (`DistRuns.StepExact`, `DistRuns.MessagesAreGivenWhole`).
- A context that terminates makes a socket for each inproc connection that waits for a bind, and
  asserts that it got one (`src/ctx.cpp:136-146`). If the sockets are used up, the process is aborted
  (`Context.NoSlotToBind`); it is not exactly if there is a free slot for each of these connections
  and the sockets can be constructed (`Context.Ctx.BeginTerminate`).
- The parser of metadata accepts a list that ends in a property cut right after its name or right
  after the length of its value (`src/mechanism.cpp:243-288`); `Metadata.AcceptedExactly` says
  that these and complete lists are all it accepts.
- An object that terminates itself asks its owner, and the owner ignores a request of somebody it does
  not own (`src/own.cpp:82-87`). If the object asks before `launch_child` has sent `own` to the owner,
  the request comes first and is lost: a run is given after which nothing is in flight and the object
  lives on (`OwnershipOrder.LostRequest`). The request will be heard exactly if the object is past
  `launch_child` when it asks (`OwnershipPartial.TerminateDooms`), and then its tree comes to its end
  (`OwnershipPartial.PartialShutdownEnds`).
- The safety of the ownership protocol needs mailboxes to keep their order
  (`OwnershipOrder.OvertakenRequest`).

`dafny verify dfyconfig.toml` checks the whole project.

## Model

| member | source | states |
|---|---|---|
| OwnershipTheorems.StepKeepsInv | src/own.cpp:32-204 | every event in a state with the invariant leads to one with the invariant, or is impossible; it never fails an assertion of the code |
| OwnershipTheorems.RunKeepsInv | src/own.cpp:32-204 | every state of every run has the invariant |
| OwnershipTheorems.RunsAreSafe | src/own.cpp:45-204 | in every state of every run: commands in flight go to objects that exist, a `term` finds an object that is plugged and does not terminate and is the only one, an ack is awaited, parents outlive children, a destroyed object has nothing left; and no next event aborts |
| OwnershipTheorems.NoStuckShutdown | src/own.cpp:100-204 | once an object terminates and nothing is left to happen below it, everything below it and itself is destroyed |
| OwnershipProgress.DeliveryLowers | src/object.cpp:49-153 | every delivery of a command, whatever the receiver chooses, lowers a measure of commands in flight and of what objects may still cause |
| OwnershipProgress.DeliveriesEnd | src/own.cpp:76-204 | in every run there are at most as many deliveries in a row as the measure says |
| OwnershipProgress.DeliveryPossible | src/own.cpp:76-204 | a command that waits can be delivered, without putting a termination off |
| OwnershipProgress.ShutdownEnds | src/own.cpp:100-204 | once an object terminates and nobody below it launches, holds a promise or waits for something outside, delivering commands in any order comes to an end, and when none is left for its tree, all of that is destroyed, whatever happens elsewhere |
| OwnershipPartial.PartialShutdownEnds | src/own.cpp:76-164 | once an object that is not a root and is past `launch_child` terminates itself, and nobody below it launches, holds a promise or waits for something outside, delivering commands in any order comes to an end, and when none is left for its tree and its request was taken, all of that is destroyed |
| OwnershipPartial.TerminateDooms | src/own.cpp:56-137 | after an object that is not a root has terminated itself, it was asked by its owner or will be, exactly if it is past `launch_child` |
| OwnershipPartial.DoomedKept | src/own.cpp:76-116 | no delivery, whatever the receiver chooses, loses such a request |
| OwnershipPartial.OwnedOrAsked | src/own.cpp:76-164 | an owned object stays owned until it is asked to terminate |
| OwnershipEffects.RequestsAreHeard | src/own.cpp:76-98 | in every run, a request of an owned child that is delivered makes its owner, which does not terminate, ask it: exactly one `term` with the owner's linger is in its mailbox, it is not owned any more, and one more ack is awaited; any other request changes nothing |
| OwnershipEffects.RequestHandled | src/own.cpp:76-98 | the same of every state with the invariant, with everything that does not change |
| OwnershipEffects.TermChildHandled | src/own.cpp:71-98 | an owner that terminates a child does the same without a request |
| OwnershipEffects.TermHandled | src/own.cpp:144-164 | an object that is sent `term` terminates: each child gets exactly one `term` with its linger, it owns nobody, and as many more acks are awaited; or the object puts it off and nothing else changes |
| OwnershipEffects.TerminateHandled | src/own.cpp:118-137 | a root begins to terminate with its own linger, any other object sends exactly one request to its owner, and one that terminates does nothing |
| OwnershipEffects.ResumeHandled | src/session_base.cpp:297-300 | a termination that was put off begins, with no linger |
| OwnershipEffects.OwnHandled | src/own.cpp:100-116 | a new child is owned; if its owner terminates, it is sent exactly one `term` without linger and one more ack is awaited |
| OwnershipEffects.CountedHandled | src/object.cpp:49-153 | a command with a sequence number is counted, the acks it brings are awaited, and the object is destroyed, with an ack to its owner, exactly if it is finished by that |
| OwnershipEffects.AckHandled | src/own.cpp:181-204 | an ack that comes is one less to wait for, and the object is destroyed, with an ack to its owner, exactly if it is finished by that |
| OwnershipEffects.OutsideHandled | src/own.cpp:166-179 | acks of one's own are awaited, and come, in the same way |
| OwnershipEffects.PromiseHandled | src/own.cpp:38-43 | a promise raises the sequence number, and the promised command, once sent, is in the mailbox of its receiver |
| OwnershipEffects.PromiseKept | src/own.cpp:38-54 | a promised command that is handled at once is counted, and the object is destroyed exactly if it is finished by that |
| OwnershipEffects.LaunchHandled | src/own.cpp:56-69 | the child starts with one command announced, which is in its mailbox; then exactly one `own` is sent to the parent and announced |
| OwnershipTheorems.DeliveryIsHandled | src/object.cpp:49-153 | in every state of every run, taking a command from a mailbox is exactly what the receiver's `process_command` does, and the assertions it makes hold |
| OwnershipOrder.OvertakenRequest | src/own.cpp:118-137 | a concrete run after which an ack that overtook the request before it would leave that request in flight to a destroyed object |
| OwnershipOrder.LostRequest | src/own.cpp:82-87 | a concrete run in which a child asks to be terminated before it is owned; at its end nothing is in flight, nobody launches, and the child is owned and lives on |
| OwnershipSafety.CheckedKeepsInv | src/own.cpp:186-204 | the check that may destroy an object and ack to its owner keeps the invariant |
| OwnershipRuns.ChildrenFirst | src/own.cpp:186-204 | an owner is destroyed only after all it owns |
| OwnershipRuns.TargetsAlive | src/object.cpp:210-265 | no command is in flight to a destroyed object |
| OwnershipRuns.AncestorsAlive | src/own.cpp:118-137 | while an object exists, so do all above it |
| OwnershipRuns.AckExpected | src/own.cpp:166-184 | whenever an ack is in flight its receiver waits for one |
| OwnershipRuns.TermExpected | src/own.cpp:144-164 | whenever a `term` is in flight its receiver does not terminate yet and has taken no other one |
| OwnershipRuns.HeldAlive | src/own.cpp:38-43 | an object whose sequence number was raised for a command not yet sent exists |
| OwnershipRuns.DeliverOwn | src/own.cpp:100-116 | an `own` command keeps the invariant, also if its receiver terminates already |
| OwnershipRuns.DeliverTermReq | src/own.cpp:76-98 | a `term_req` keeps the invariant, also if the child is not owned any more; what it does is stated by `OwnershipEffects.RequestsAreHeard` |
| OwnershipRuns.DeliverAck | src/own.cpp:171-184 | a `term_ack` keeps the invariant |
| OwnershipRuns.DeliverTerm | src/own.cpp:144-164 | a `term` keeps the invariant, whether it is acted upon at once or put off by a session |
| OwnershipRuns.ResumeKeepsInv | src/session_base.cpp:297-300 | a termination that a session put off keeps the invariant when it goes on |
| OwnershipRuns.DeferKeepsInv | src/session_base.cpp:509-546 | putting a termination off keeps the invariant |
| OwnershipRuns.TerminateKeepsInv | src/own.cpp:118-137 | an object that terminates itself, or asks its owner to do it, keeps the invariant |
| OwnershipRuns.LaunchPlugKeepsInv | src/own.cpp:56-64 | the first half of launching a child keeps the invariant |
| OwnershipRuns.LaunchOwnKeepsInv | src/own.cpp:66-69 | the second half of launching a child keeps the invariant |
| OwnershipRuns.RegisterKeepsInv | src/own.cpp:166-169 | registering acks of one's own keeps the invariant |
| OwnershipRuns.UnregisterKeepsInv | src/own.cpp:171-179 | an ack of one's own that comes in keeps the invariant |
| OwnershipRuns.IncSeqnumKeepsInv | src/own.cpp:38-43 | raising the sequence number of an object keeps the invariant |
| OwnershipProtocol.TermAll | src/own.cpp:150-153 | one `term` for each owned object, with the same linger |
| OwnershipProtocol.PostAll | src/object.cpp:529-532 | sending commands changes no object but for noting who was asked to terminate |
| OwnedObject.Context.SendCommand | src/ctx.cpp:638-641 | the command is appended to the mailbox of its receiver's thread |
| OwnedObject.OwnObject.SetOwner | src/own.cpp:32-36 | the owner is set once |
| OwnedObject.OwnObject.IncSeqnum | src/own.cpp:38-43 | one more command is announced |
| OwnedObject.OwnObject.ProcessSeqnum | src/own.cpp:45-54 | one more command is counted, then the check |
| OwnedObject.OwnObject.LaunchChild | src/own.cpp:56-69 | the child is owned and announced `plug`; `own` is announced to the parent; both are sent in this order |
| OwnedObject.OwnObject.ProcessTermReq | src/own.cpp:76-98 | an owned child of an object that does not terminate is not owned any more, one more ack is awaited, and exactly one `term` with the linger is sent to it; otherwise nothing changes; this is the effect of the protocol's handler |
| OwnedObject.OwnObject.ProcessOwn | src/own.cpp:100-116 | the child is owned, or, if the object terminates, sent one `term` without linger and awaited; this is the effect of the protocol's handler |
| OwnedObject.OwnObject.Terminate | src/own.cpp:118-137 | a root begins to terminate, any other object asks its owner, a terminating one does nothing |
| OwnedObject.OwnObject.SendTerms | src/own.cpp:150-153 | every owned object is sent one `term`, in some order |
| OwnedObject.OwnObject.ProcessTerm | src/own.cpp:144-164 | the effect is that of the protocol's handler for some order of the owned objects |
| OwnedObject.OwnObject.RegisterTermAcks | src/own.cpp:166-169 | so many more acks are awaited |
| OwnedObject.OwnObject.UnregisterTermAck | src/own.cpp:171-179 | one ack less is awaited, then the check |
| OwnedObject.OwnObject.CheckTermAcks | src/own.cpp:186-204 | destroyed, with an ack to the owner, exactly if it terminates, has counted all commands and awaits no ack |
| OwnedObject.OwnObject.ProcessCommand | src/object.cpp:49-153 | every command has the effect of the protocol's handler, followed by counting it if it is one that counts |
| OwnedObject.DispatchIsHandle | src/object.cpp:49-153 | a step of the protocol that delivers a command is that effect applied to the system |
| MTrieNode.Grow | src/generic_mtrie_impl.hpp:78-118 | a node gets room for a child without losing any, in either direction and from every shape |
| MTrieNode.GrowFromOne | src/generic_mtrie_impl.hpp:85-95 | a single child becomes one entry of a table that also covers the new byte |
| MTrieNode.Prune | src/generic_mtrie_impl.hpp:470-536 | exactly the child under one byte is gone and the node has its proper shape again; the assertions of the code hold |
| MTrieNode.PruneLeft | src/generic_mtrie_impl.hpp:499-516 | the table is cut up to its first child that is left |
| MTrieNode.PruneRight | src/generic_mtrie_impl.hpp:517-535 | the table is cut after its last child that is left |
| MTrieNode.Compact | src/generic_mtrie_impl.hpp:327-394 | a table is freed, turned into a single child, or cut to its first and last child, without changing any child |
| MTrieNode.Shrink | src/generic_mtrie_impl.hpp:357-393 | the cut table has the same children and as many |
| MTrie.MTrie.constructor | src/generic_mtrie_impl.hpp:46-53 | no subscriptions |
| MTrie.MTrie.Add | src/generic_mtrie_impl.hpp:70-154 | exactly this entry came, and no topic is without a subscriber; true exactly if the prefix had none; the nodes keep their invariant |
| MTrie.MTrie.Child | src/generic_mtrie_impl.hpp:75-143 | one byte further down there is a node afterwards, and the subscriptions are as before |
| MTrie.MTrie.Match | src/generic_mtrie_impl.hpp:544-584 | called back once for every subscription to a prefix of the data |
| MTrie.VisitsCount | src/generic_mtrie_impl.hpp:544-584 | a subscriber is called back as often as it subscribed to a prefix of the data |
| MTrie.MTrie.Rm | src/generic_mtrie_impl.hpp:403-542 | exactly that entry is gone; the result says whether it was there and whether it was the last; it terminates, and no redundant node is left |
| MTrie.WithoutLoses | src/generic_mtrie_impl.hpp:403-442 | the map that rm is proved against has exactly that entry less, and its result is that of the set |
| MTrie.MTrie.RemoveHere | src/generic_mtrie_impl.hpp:425-442 | the value leaves the set of one node, with the result that is returned |
| MTrie.MTrie.Retire | src/generic_mtrie_impl.hpp:465-538 | a redundant child is deleted, and nothing else changes |
| MTrie.MTrie.Down | src/generic_mtrie_impl.hpp:444-458 | the next node on the way down, or no entry for the prefix |
| MTrieRemoveAll.RmAll | src/generic_mtrie_impl.hpp:156-401 | exactly the entries of this value are gone; called back once for each prefix that had it, or only where it was the last one, and with the right bytes; it terminates, and no redundant node is left |
| MTrieHeap.NodesAreNeeded | src/generic_mtrie_impl.hpp:465-538 | between operations there is a node for exactly the prefixes of the topics that have subscribers, besides the root |
| MTrieRemoveAll.RemoveValue | src/generic_mtrie_impl.hpp:186-195 | the value leaves the set of the node, with a callback exactly if one is due |
| MTrieRemoveAll.AdjustBuffer | src/generic_mtrie_impl.hpp:197-203 | there is room for one more byte and the bytes of the prefix are kept |
| MTrieRemoveAll.PreVisit | src/generic_mtrie_impl.hpp:185-259 | the work before a child keeps the invariant of the walk |
| MTrieRemoveAll.PostOne | src/generic_mtrie_impl.hpp:270-280 | the work after the only child keeps the invariant of the walk |
| MTrieRemoveAll.TrimEntry | src/generic_mtrie_impl.hpp:284-310 | a redundant child of a table goes, and the first and last that stay are kept track of |
| MTrieRemoveAll.Finish | src/generic_mtrie_impl.hpp:324-394 | the end of the work on a table keeps the invariant of the walk |
| MTrieRemoveAll.PostVisit | src/generic_mtrie_impl.hpp:260-397 | the work after a child keeps the invariant of the walk and leaves less to do |
| MTrieRemoveAll.EndOk | src/generic_mtrie_impl.hpp:156-401 | at the end of the walk the trie and the callbacks are as wanted |
| PipeArray.PipeArray.PushBack | src/array.hpp:89-95 | the pipe is at the end and knows its place |
| PipeArray.PipeArray.Erase | src/array.hpp:97-111 | the last pipe takes the place of the one that goes, and every pipe knows its place |
| PipeArray.PipeArray.Swap | src/array.hpp:113-122 | two pipes change places and know it; zones that contain both or neither are as before |
| Dist.Dist.Attach | src/dist.cpp:50-65 | the pipe is eligible, and active exactly if no message is under way |
| Dist.Dist.Match | src/dist.cpp:67-80 | the pipe is matching if it is eligible, whatever swaps that takes |
| Dist.Dist.ReverseMatch | src/dist.cpp:82-96 | exactly the other eligible pipes are matching |
| Dist.Dist.Unmatch | src/dist.cpp:98-101 | no pipe is matching |
| Dist.Dist.PipeTerminated | src/dist.cpp:103-121 | the pipe is in no zone and the others are where they were |
| Dist.Dist.Activate | src/dist.cpp:123-137 | a passive pipe takes part again, at once or from the next message on |
| Dist.Dist.SendToAll | src/dist.cpp:139-143 | all active pipes are offered the part |
| Dist.Dist.SendToMatching | src/dist.cpp:145-160 | the matching pipes that have room each get one copy; the others are passive; the last part makes all eligible pipes active |
| Dist.Dist.Distribute | src/dist.cpp:162-207 | every matching pipe is offered the message exactly once, and the reference count is left as the number of copies that were taken |
| Dist.Dist.OfferAll | src/dist.cpp:190-199 | who takes and who refuses is decided for each matching pipe once, although refusals reorder the array |
| Dist.Dist.Write | src/dist.cpp:214-228 | a refusal moves the pipe behind the eligible ones and leaves the places before it |
| Dist.Dist.Refuse | src/dist.cpp:216-224 | three swaps take the pipe out of all three zones |
| Dist.Dist.CheckHwm | src/dist.cpp:230-237 | true exactly if no matching pipe has reached its limit |
| DistRuns.StepKeepsInv | src/dist.cpp:50-228 | every operation keeps: matching pipes got all parts so far of the message under way |
| DistRuns.NoPipeStartsMidMessage | src/dist.cpp:50-228 | over every run, a pipe that was given a part was given all parts before it, right before it |
| DistRuns.WhoTakesPart | src/dist.cpp:50-160 | over every run, the eligible pipes are exactly those that came or had room again, in the middle of a message or not, after they last refused a part or went; between messages they are all active |
| DistRuns.FirstPartForAll | src/dist.cpp:139-160 | over every run, the first part of a message for all is given to exactly these pipes, as far as they have room |
| DistRuns.WhoCanBeChosen | src/dist.cpp:67-96 | over every run, exactly these pipes can be chosen for a message |
| DistRuns.StepExact | src/dist.cpp:82-228 | after one more event every pipe still has whole messages, but for the one under way, exactly if no pipe that has the first parts is left out |
| DistRuns.MessagesAreGivenWhole | src/dist.cpp:50-228 | over every run, up to the first event that leaves a pipe out in the middle of a message, every pipe was given whole messages; that event breaks it |
| DistRuns.RefusalJoinsMessages | src/dist.cpp:214-228 | a run of five events after which a pipe was given the first part of one message and then another message |
| PubSub.CallsSelect | src/xpub.cpp:285-288 | marking the pipes that the trie calls back for, or the others, selects the eligible pipes that subscribed to a prefix, or those that did not |
| PubSub.Publisher.AttachPipe | src/xpub.cpp:69-97 | the pipe is attached and, if it wants everything, exactly its subscription to the empty topic came; the user is told nothing |
| PubSub.Publisher.ReadSubscription | src/xpub.cpp:150-162 | exactly this subscription came; the user of an XPUB is told, by 1 and the topic, if it is the first one or all are told |
| PubSub.Publisher.ReadCancel | src/xpub.cpp:144-162 | exactly this subscription is gone; the user of an XPUB is told, by 0 and the topic, unless others remain whom it concerns, or always if all are told |
| PubSub.Publisher.ReadMessage | src/xpub.cpp:122-162 | a message whose first byte is 1 subscribes to the rest, one whose first byte is 0 cancels it, and any other changes nothing |
| PubSub.NoticeIsRequest | src/xpub.cpp:122-176 | a notification, sent on to another publisher, is read there as the request it tells of, and nothing else is |
| PubSub.Publisher.PipeTerminated | src/xpub.cpp:265-283 | exactly the subscriptions of the pipe are gone, and it is in no zone; the user of an XPUB is told once of each topic of which it was the last subscriber, or of each of its topics if all are told |
| PubSub.Publisher.Choose | src/xpub.cpp:301-318 | the matching pipes are exactly those selected by the data of the first part |
| PubSub.Publisher.MarkAll | src/xpub.cpp:285-288 | exactly the eligible pipes that were called back for are matching |
| PubSub.Publisher.Send | src/xpub.cpp:296-332 | the first part of a message reaches, one copy each, exactly the pipes that can take messages, have room and subscribed to a prefix of the data, or that did not, if inverted; later parts those that were chosen; or nobody, if dropping is not allowed and one of them is full |
| PubSub.Publisher.Receive | src/xpub.cpp:339-372 | notifications are read in order |
| PubSub.SubscribeAgrees | src/xpub.cpp:150-154 | a subscription never makes the user believe something wrong |
| PubSub.CancelAgrees | src/xpub.cpp:144-149 | a cancellation does, exactly if it is told although the topic has other subscribers |
| PubSub.LeaveAgrees | src/xpub.cpp:274-280 | a pipe that ends does, exactly if all removals are told and a topic of it has other subscribers |
| PubSub.ArriveAgrees | src/xpub.cpp:75-81 | a pipe that gets everything does, exactly if the empty topic had no subscriber |
| PubSub.StrayCancelMisleads | src/xpub.cpp:144-149 | a run of two events after which a topic has a subscriber and the user was told that nobody is left |
| PubSub.ToldIsTrue | src/xpub.cpp:99-197 | over every run, the topics that the user was told of are those with subscribers, up to the first event that misleads, which breaks it |
| SubscriptionWire.RequestArrives | src/v2_encoder.cpp:50-96 | the frame of a subscription or cancellation is decoded to 1 or 0 and the topic, which the publisher reads as that subscription or cancellation |
| SubscriptionWire.RequestIsTold | src/xpub.cpp:122-176 | told as a notification, it counts the topic in or out |
| SubscriptionWire.SubscriptionsArrive | src/v2_encoder.cpp:50-96 | whatever subscriptions and cancellations a subscriber encodes, once the bytes are decoded and taken the pipe is subscribed to exactly the topics for which its last request says so, and no other pipe's subscriptions changed |
| Ring.SeekOk | src/fq.cpp:90-118 | looking for a pipe that is ready keeps the ready ones active, drops only others, and finds one if there is one |
| Ring.SeekOrder | src/fq.cpp:90-118 | the pipes are asked in one fixed order, without gaps: the search stops at the first of that order that is ready, and leaves the order behind it |
| Ring.OrderOfActive | src/fq.cpp:90-118 | that order holds exactly the active pipes, starting with the one whose turn it is |
| Ring.ServedExact | src/fq.cpp:90-118 | a part goes through the first pipe of that order that is ready, exactly those before it stop being active, and the last part passes the turn on |
| Ring.RemovedOk | src/lb.cpp:51-69 | a pipe that goes is gone and no other is; exactly the other active pipes stay active; the turn is with an active slot |
| Ring.RemovedKeepsTurn | src/lb.cpp:60-68 | the turn stays with its pipe exactly unless that pipe goes or is misplaced |
| Ring.DeactivatedDistance | src/fq.cpp:114-117 | taking the pipe out whose turn it is moves no other pipe back in the queue |
| Ring.AdvancedDistance | src/fq.cpp:102-105 | the end of a turn moves every other pipe one place forward |
| Waiting.EveryoneIsSentTo | src/lb.cpp:83-180 | over any calls of `lb_t`: while an active pipe with room waits, fewer complete messages are written to others than there are active pipes, whatever is refused, rolled back or dropped in between |
| Waiting.EveryoneIsReadFrom | src/fq.cpp:83-150 | over any calls of `fq_t`: while an active pipe with something to read waits, fewer complete messages are read from others than there are active pipes |
| Waiting.OneSending | src/lb.cpp:83-180 | one call that does not write to the pipe moves it no further back, and one place forward if it completes a message |
| Waiting.OneReceiving | src/fq.cpp:83-150 | one call that does not read from the pipe moves it no further back, and one place forward if it completes a message |
| RingArray.RingArray.Add | src/fq.cpp:45-50 | a new pipe gets the slot behind the active ones |
| RingArray.RingArray.Enter | src/lb.cpp:71-76 | a pipe changes places with the first one that is not active, which is active from then on; the swap is in bounds exactly if there is one |
| RingArray.RingArray.Remove | src/lb.cpp:51-69 | the pipe goes, and exactly the other active pipes stay active |
| RingArray.RingArray.Deactivate | src/fq.cpp:114-117 | the pipe whose turn it is leaves the active ones |
| RingArray.RingArray.FindReady | src/lb.cpp:167-180 | true exactly if an active pipe is ready; those before it are deactivated |
| LoadBalancer.Lb.Attach | src/lb.cpp:45-49 | exactly the new pipe is active besides those that were, and the turn stays |
| LoadBalancer.Lb.Activated | src/lb.cpp:71-76 | the swap behind the active pipes, and whether it is in bounds; a passive pipe is active again |
| LoadBalancer.Lb.PipeTerminated | src/lb.cpp:51-69 | the pipe is gone, exactly the other active pipes stay active, and if it was getting a message, the rest of that is dropped |
| LoadBalancer.Lb.SendPipe | src/lb.cpp:83-158 | a part is dropped exactly if its message is being dropped, taken back exactly if the pipe of its message has no room, refused exactly if it is a first part and no active pipe has room, and otherwise written: to the pipe of its message, or to the first in turn that has room; and what each case leaves behind |
| LoadBalancer.FateExact | src/lb.cpp:83-158 | the same of the value that the method is proved against, said without the search |
| LoadBalancer.SentExact | src/lb.cpp:83-158 | a written part leaves out exactly the pipes that were asked before, and the last one ends the turn; without a pipe none is active; otherwise no pipe changes |
| LoadBalancer.Lb.Offer | src/lb.cpp:98-135 | a later part is offered to the pipe of the message only, a first one to the active pipes in turn until one has room |
| LoadBalancer.Lb.HasOut | src/lb.cpp:160-180 | true exactly if a message is under way or an active pipe has room |
| Multipart.RollbackOk | src/pipe.cpp:265-276 | taking the parts of an incomplete message back leaves whole messages |
| Multipart.RollbackPrefix | src/pipe.cpp:265-276 | what is complete stays: the parts up to the last one that ends a message |
| LoadBalancerRuns.StepKeepsInv | src/lb.cpp:45-180 | every harmless event is in bounds and keeps: pipes hold whole messages but for the one being written |
| LoadBalancerRuns.StepExact | src/lb.cpp:45-180 | one more event is in bounds and leaves the next part fitting the pipe it goes to exactly if the event is harmless: it does not take the turn from a pipe in the middle of a message, no last part is repeated that was rolled back, and no pipe is activated while all are active |
| LoadBalancerRuns.RepeatExact | src/lb.cpp:98-127 | a part that was rolled back and is repeated is written, and then without its head, exactly if it was the last one |
| LoadBalancerRuns.MessagesStayWhole | src/lb.cpp:45-180 | over every run, with parts repeated or not and any pipe activated: up to the first event that is not harmless each pipe holds whole messages, apart from the one being written to it, and no message is spread over two pipes; that event breaks it or is out of bounds |
| LoadBalancerFailures.RepeatedTailIsAlone | src/lb.cpp:98-127 | a run after which a pipe holds nothing but the last part of a message |
| LoadBalancerFailures.ActiveIsActivated | src/lb.cpp:71-76 | a run after which the only pipe, which is active, is activated, so that the swap is out of bounds |
| LoadBalancerFailures.MisplacedPartGoesAstray | src/lb.cpp:60-68 | a run in which, after a misplacement, the next part goes to another pipe although the right one has room |
| FairQueue.Fq.Attach | src/fq.cpp:45-50 | exactly the new pipe is active besides those that were, and the turn stays |
| FairQueue.Fq.Activated | src/fq.cpp:71-76 | the swap behind the active pipes, and whether it is in bounds; a passive pipe is active again |
| FairQueue.Fq.PipeTerminated | src/fq.cpp:52-69 | the pipe is gone, exactly the other active pipes stay active, and it is not the last one read from |
| FairQueue.Fq.RecvPipe | src/fq.cpp:83-126 | a part is read from the first pipe in turn that has one; nothing is read exactly if no active pipe has anything; the call aborts exactly if a message was begun and the pipe whose turn it is has nothing; the last part ends the turn |
| FairQueue.ReadsExact | src/fq.cpp:83-126 | the same of the value that the method is proved against, said without the search |
| FairQueue.ReceivedExact | src/fq.cpp:83-126 | a part that was read leaves out exactly the pipes that were asked before, and the last one ends the turn and says where the message came from |
| FairQueue.Fq.HasIn | src/fq.cpp:128-150 | true exactly if a message is being read or an active pipe has one |
| FairQueueRuns.StepKeepsInv | src/fq.cpp:45-150 | every harmless event keeps: what is read next continues what was read; and no assertion fails |
| FairQueueRuns.StepExact | src/fq.cpp:45-150 | one more event aborts nothing and leaves the rest of a message that was begun to be read exactly if the event is harmless: the pipe being read from is not shut, does not go and does not lose its turn, and no pipe is activated while all are active |
| FairQueueRuns.HarmShows | src/fq.cpp:52-126 | an event that is not harmless is out of bounds, or the next call fails the assertion or mixes two messages, if any pipe is active |
| FairQueueRuns.MessagesAreReadWhole | src/fq.cpp:45-150 | over every run, up to the first event that is not harmless: the user reads whole messages, each from one pipe; the atomicity assertion holds; what was read from a pipe and what is left of it are what was sent; that event breaks it |
| FairQueueFailures.ShutAborts | src/fq.cpp:108-112 | a run in which the pipe is shut in the middle of a message, after which the next call fails the assertion |
| FairQueueFailures.GoneMixes | src/fq.cpp:52-69 | a run in which the pipe goes in the middle of a message, after which another message is read as its continuation |
| FairQueueFailures.MisplacedAborts | src/fq.cpp:58-63 | a run in which another pipe goes in the middle of a message, after which the next call fails the assertion although the next part is there |
| MessagePool.Pool.CloseMsg | src/msg.cpp:269-330 | the handle, which answers for one reference, goes; the content is released exactly if nothing else refers to it |
| MessagePool.Pool.InitMsg | src/msg.cpp:77-87 | the handle is empty; what it referred to is not touched, and what it answered for is leaked |
| MessagePool.Pool.InitLarge | src/msg.cpp:89-122 | a new content with one handle that answers for one reference |
| MessagePool.Pool.CopyMsg | src/msg.cpp:353-389 | both handles refer to the content, with one more reference; whoever sent or distributes the content may still be at it |
| MessagePool.Pool.MoveMsg | src/msg.cpp:332-351 | what the source answered for goes over to the other handle |
| MessagePool.Pool.AddReferences | src/msg.cpp:588-609 | the handle answers for so many more references |
| MessagePool.Pool.RemoveReferences | src/msg.cpp:611-653 | so many are taken back of those the handle answers for; true exactly if none was to be taken or more exist |
| MessagePool.Pool.TakeCopy | src/dist.cpp:214-228 | a plain copy answers for one of the references of the source |
| Messages.CloseOk | src/msg.cpp:269-330 | closing keeps the counts right |
| Messages.CloseIs | src/msg.cpp:269-330 | the handle is closed, and no other handle and no content of another changes |
| Messages.InitContentIs | src/msg.cpp:89-122 | the handle has the new content and answers for one reference; no other handle or content changes |
| Messages.CopyOk | src/msg.cpp:353-389 | copying keeps the counts right if the source answers for the content, shared or not, and the destination for one reference |
| Messages.CopyIs | src/msg.cpp:353-389 | whatever its type, the copy is of the type and content of the source, which stays what it is, and no other handle changes |
| Messages.MoveOk | src/msg.cpp:332-351 | moving keeps the counts right and passes on what the source answers for |
| Messages.MoveIs | src/msg.cpp:332-351 | the destination is what the source was, the source is empty, and no other handle changes |
| Messages.AddRefsOk | src/msg.cpp:588-609 | added references are counted, whether the content was shared or not |
| Messages.AddRefsIs | src/msg.cpp:588-609 | the message stays what it is and answers for so many more references, if it has a content |
| Messages.RmRefsOk | src/msg.cpp:611-653 | references taken back are counted |
| Messages.RmRefsIs | src/msg.cpp:611-653 | a message that is shared stays what it is and answers for so many fewer references; any other is closed |
| Messages.PlainCopyOk | src/dist.cpp:214-228 | a copy of the bytes of a handle keeps the counts right |
| Messages.PlainCopyIs | src/dist.cpp:214-228 | both handles are what the source was, and answer together for what it answered for; no other handle changes |
| Messages.AnswersLives | src/msg.cpp:269-389 | a handle that answers for a content finds it alive |
| Messages.HandedCounts | src/dist.cpp:162-207 | after a message was handed out, each taker answers for one reference, no other handle is touched, nothing is leaked, and the content is released exactly if nobody took it and nobody else had it |
| Messages.HandedCopies | src/dist.cpp:162-207 | whatever its type, every taker has the message, an empty one is left, and no other handle changes |
| Messages.RunsStayValid | src/msg.cpp:269-389 | every state of every run of the operations, interleaved in any way and restricted only in what each caller does with its own handles, has the counts right |
| Messages.NoDanglingUse | src/msg.cpp:269-389 | over every such run, whatever a handle that answers for a content points to was not released |
| Messages.ReleasedExactlyOnce | src/msg.cpp:269-389 | over every such run a content is released, and its free function called, at most once, and exactly when no handle answers for it and no reference was leaked; until then the counter in use is the number of references |
| Messages.NeverTouchedAgain | src/msg.cpp:269-389 | over every such run, a content that was released is never counted, released or used again |
| Messages.NothingLeaks | src/msg.cpp:77-87 | references are leaked only by initialising a handle over that still answers for some; without that, a content is released exactly when its last handle goes |
| SharedBuffer.Allocator.constructor | src/decoder_allocators.cpp:35-43 | no buffer, and as many slots as messages of the least size need |
| SharedBuffer.Allocator.Allocate | src/decoder_allocators.cpp:60-99 | a buffer that no message lies in: the old one exactly if all its messages are gone, and otherwise a new one; nothing is freed |
| SharedBuffer.Allocator.Deallocate | src/decoder_allocators.cpp:101-108 | the buffer is freed exactly if no message lies in it |
| SharedBuffer.Allocator.NewMessage | src/v2_decoder.cpp:123-138 | the message gets a slot that exists and that no other message in the buffer has, and holds the buffer |
| SharedBuffer.Allocator.CallDecRef | src/decoder_allocators.cpp:129-140 | the buffer is freed exactly if the allocator and all messages have let go of it |
| SharedBuffer.SlotIsThere | src/decoder_allocators.cpp:41 | messages that do not share bytes never need more slots than there are |
| SharedBuffer.MessageGoes | src/decoder_allocators.cpp:129-140 | the counts stay right when a message goes, and the buffer stays exactly if somebody holds it |
| SharedReceive.LayAll | src/v2_decoder.cpp:116-138 | the bodies that the decoder makes of a buffer, in order, are messages with a slot each and no byte in common |
| SharedReceive.ReceiveShared | src/stream_engine_base.cpp:274-312 | one event with shared buffers: what was decoded is what feeding the bytes gives, the buffer was one that no message lay in, and all bodies in it are messages that hold it |
| Context.Ctx.Start | src/ctx.cpp:379-440 | every socket slot is listed as free once |
| Context.Ctx.CreateSocket | src/ctx.cpp:452-493 | a socket with a slot of its own, or the error that applies and no change to sockets and slots |
| Context.Ctx.DestroySocket | src/ctx.cpp:495-511 | its slot is free again; the last one to go while terminating stops the reaper |
| Context.Ctx.Shutdown | src/ctx.cpp:208-229 | the first call interrupts all sockets, or stops the reaper if there are none |
| Context.Ctx.BeginTerminate | src/ctx.cpp:129-183 | aborted exactly if there are fewer free slots, or sockets that can be constructed, than connections that wait; otherwise these are bound, the first call interrupts all sockets or stops the reaper, and a repeated call does not |
| Context.Ctx.BindPending | src/ctx.cpp:136-146 | a socket for every connection that waits, exactly if there are enough, and no reaper is stopped before |
| Context.NoSlotToBind | src/ctx.cpp:136-146 | a context whose only socket waits for a bind is aborted when it terminates |
| Context.Ctx.Finished | src/ctx.cpp:180-190 | if the reaper was told to stop, it was told once, while terminating, and no socket and no waiting connection is left |
| Context.TakeSlot | src/ctx.cpp:474-489 | slots stay shared out when one is taken |
| Context.FreeSlot | src/ctx.cpp:499-505 | slots stay shared out when one is given back |
| Inproc.Rendezvous.RegisterEndpoint | src/ctx.cpp:664-677 | the address is bound exactly if it was not |
| Inproc.Rendezvous.UnregisterEndpoint | src/ctx.cpp:679-694 | the address is free exactly if this socket had bound it |
| Inproc.Rendezvous.UnregisterEndpoints | src/ctx.cpp:696-712 | all addresses of the socket are free and no other is |
| Inproc.Rendezvous.FindEndpoint | src/ctx.cpp:714-733 | the bound socket, with its sequence number raised |
| Inproc.Rendezvous.SendBind | src/socket_base.cpp:925-931 | the pipe is on its way to the socket that was found |
| Inproc.Rendezvous.PendConnection | src/ctx.cpp:735-756 | on the list, or connected if the address was bound meanwhile |
| Inproc.Rendezvous.ConnectPending | src/ctx.cpp:758-772 | exactly those who waited for the address are connected, each to the binder, and exactly they are off the list |
| Inproc.Rendezvous.ConnectInprocSockets | src/ctx.cpp:774-842 | one attempt is connected for the first time, and the sequence numbers account for the command sent |
| Inproc.Rendezvous.Process | src/object.cpp:49-153 | a command that arrives is counted and completes its connection |
| Inproc.Moves | src/ctx.cpp:714-842 | what is due to each socket changes by what one attempt's step says |
| Inproc.Quiet | src/own.cpp:186-192 | a socket that has processed all that was sent has no connection that waits |
| Inproc.NothingIsLost | src/ctx.cpp:664-824 | when nobody is in the middle of anything, every attempt was connected exactly once or waits for an address that is not bound |
| Wire.GetPutUint | src/wire.hpp:78-100 | a number that fits is read back |
| Wire.EightBytes | src/wire.hpp:78-100 | the eight bytes of a number are its digits, the most significant one first |
| Wire.HeaderIs | src/v2_encoder.cpp:50-89 | the bytes of every header: 1, 2 and 4 for more, large and command, a size in one byte or in eight in network byte order, and 1 for a subscription or 0 for a cancellation |
| Wire.FrameBytes | src/v2_encoder.cpp:50-96 | every frame is such a header and the body |
| Wire.FeedAppend | src/decoder.hpp:100-148 | a stream fed in two pieces gives what it gives in one |
| Wire.FeedCompletes | src/decoder.hpp:124-145 | the bytes that complete what is waited for lead to the next step, however they come |
| Wire.FrameFeeds | src/v2_decoder.cpp:62-167 | a frame is decoded to the message it stands for |
| Wire.AnyFrame | src/v2_decoder.cpp:62-167 | any flags byte, size and body that arrive, also such as this encoder does not write, are one message with that body and the flags' bits, exactly if the body is not over the limit; otherwise nothing is decoded |
| Wire.FlagsAreBits | src/v2_decoder.cpp:62-78 | the three lowest bits of any flags byte are read as more, large and command |
| Wire.MislabelledFeeds | src/v2_encoder.cpp:59-74 | a subscription of 255 bytes is decoded to an empty message first |
| Wire.TooLongFeeds | src/v2_decoder.cpp:97-109 | a message over the limit is refused and nothing is decoded |
| Wire.RoundTrip | src/v2_encoder.cpp:50-96 | a message is decoded to itself, with 1 or 0 in front of a topic that is subscribed to or cancelled, exactly if it is not over the limit and not a subscription or cancellation of 255 bytes |
| Wire.FramesFeed | src/v2_decoder.cpp:62-167 | the frames of many messages are decoded to these messages in order exactly if every one of them survives |
| Decoder.Decoder.GetBuffer | src/decoder.hpp:72-92 | bytes are read where they belong, and as many as are missing, exactly if these would fill the buffer |
| Decoder.Decoder.Decode | src/decoder.hpp:100-148 | whatever the chunk, and whether its bytes are copied or in place, the result is that of feeding the bytes it used one by one, up to the end of a message |
| Decoder.Decoder.Take | src/decoder.hpp:125-135 | the bytes are where they belong and the chunk is not changed |
| Decoder.Decoder.RunSteps | src/decoder.hpp:136-144 | steps run until bytes are missing, a message is complete, or an error |
| Decoder.Decoder.ReadFlags | src/v2_decoder.cpp:62-78 | the flags decide how long the size is |
| Decoder.Decoder.ReadSize | src/v2_decoder.cpp:94-159 | a size over the limit is refused; otherwise the body goes to a part of the buffer, behind all bodies before it, or to memory of its own |
| Encoder.Encoder.PutHeader | src/v2_encoder.cpp:50-89 | the bytes of the header, as `Wire.HeaderIs` spells them out for all flags, sizes and kinds |
| Encoder.Encoder.LoadMsg | src/encoder.hpp:129-134 | the whole frame of the message is to be handed out |
| Encoder.Encoder.Encode | src/encoder.hpp:74-127 | the batch is the next piece of the frame, in whatever room and whether copied or handed out in place; no bytes mean that no message is in progress; a message still in progress means that the room was used up |
| Encoder.Encoder.CopyOut | src/encoder.hpp:117-122 | as much as there is and as fits is copied behind what is there |
| StreamEngine.InEvent | src/stream_engine_base.cpp:299-312 | all messages of the chunk, in order, up to an error, whether the chunk is in a buffer or in place in a message that was begun |
| StreamEngine.Receive | src/stream_engine_base.cpp:274-312 | asking for room, reading as many bytes as fit and decoding them gives what feeding these bytes one by one gives; the bodies made of the buffer follow each other in it, and there are none if the bytes were read in place |
| StreamEngine.ReceiveAll | src/stream_engine_base.cpp:274-312 | any number of such events gives what feeding all bytes that arrived gives, whatever the size of the buffers |
| StreamEngine.ChunksDoNotMatter | src/decoder.hpp:100-148 | however a stream is cut into chunks, the same comes of it |
| StreamEngine.Delivery | src/stream_engine_base.cpp:274-364 | the batches of any run of events, written and cut anywhere: what was decoded is the beginning of what was sent, and all of it if all arrived |
| StreamEngine.OutEvent | src/stream_engine_base.cpp:343-364 | the batch, what the encoder has left and the messages that wait are together what there was to send; the assertions of the loop hold |
| StreamEngine.SendAll | src/stream_engine_base.cpp:343-364 | over any number of events with messages arriving in between, the batches are together the beginning of the frames of all messages, and all of them once nothing waits; a batch that does not fill the buffer leaves nothing unsent of what arrived |
| Metadata.FrontWritten | src/mechanism.cpp:138-158 | the property that was written in front is read first |
| Metadata.ParseWritten | src/mechanism.cpp:237-290 | any list is read back, whatever follows it |
| Metadata.ParseIsWritten | src/mechanism.cpp:237-290 | any bytes are the list that is read from them and a rest, and the rest decides on acceptance |
| Metadata.AcceptedExactly | src/mechanism.cpp:237-290 | a list is read from bytes, and they are accepted, exactly if they are that list and nothing or a property cut at one of two places |
| Metadata.ToleratedAreCut | src/mechanism.cpp:243-288 | the rests that are accepted are nothing, a property cut after its name, or one cut after the length of its value |
| Metadata.WrittenBytes | src/mechanism.cpp:138-158 | the bytes of a property: its name with a length of one byte, its value with a length of four in network byte order |
| Metadata.RoundTrip | src/mechanism.cpp:138-158 | what was written is read back |
| Mechanism.AddProperty | src/mechanism.cpp:138-158 | the bytes of the property, and as many as announced |
| Mechanism.AddBasicProperties | src/mechanism.cpp:168-197 | the bytes of all basic properties in order, and as many as announced |
| Mechanism.PropertiesAre | src/mechanism.cpp:168-197 | the socket type comes first, then the identity if there is one, then the names and values that the application added, in its order |
| Mechanism.NamesSpelled | src/mechanism.cpp:165-166 | the names of these two are `Socket-Type` and `Identity` |
| Mechanism.BasicPropertiesLen | src/mechanism.cpp:199-218 | the total length of the basic properties |
| Mechanism.MakeCommand | src/mechanism.cpp:220-235 | the command is the prefix and the basic properties, with no byte to spare |
| Mechanism.ReadProperty | src/mechanism.cpp:244-265 | one property, or where the length checks stop |
| Mechanism.Mechanism.ParseMetadata | src/mechanism.cpp:237-290 | zero exactly if no property is refused and the bytes are accepted; of the properties before the first refused one, the last identity is the routing id if identities are recorded, each new name has the first value that came, and nothing else is touched |
| Mechanism.NotedIsLearned | src/mechanism.cpp:267-283 | noting properties one by one, up to the first that is refused, is learning them: the last identity and the first value of each new name |
| Mechanism.MetadataArrives | src/mechanism.cpp:168-197 | what a socket writes of itself is accepted by its peer and noted: its identity is the routing id, if these are recorded and the application added none of its own, and its socket type, its identity and each property of the application are known by name |

## Left out

- OwnedObject.OwnObject.IncSeqnum: counters are unbounded, while the number of commands sent is a 32-bit counter in the code.
- OwnershipTheorems.RunsAreSafe: commands to pipes, engines and the reaper are not modelled; pipes appear as acks from outside the tree.
- OwnershipProgress.ShutdownEnds: says that deliveries end, not that threads go on delivering.
- OwnershipPartial.PartialShutdownEnds: says that deliveries end, not that threads go on delivering.
- Dist.Dist.Activate: requires a passive pipe; the code does not test it, but `src/pipe.cpp:301-304` reports only pipes that have refused a message.
- PubSub.Publisher.AttachPipe: welcome messages, and the subscriptions that wait in the pipe already, are not modelled.
- PubSub.Publisher.ReadMessage: the option that only looks at first parts, and the passing on of user messages sent upstream, are not modelled; requests that come as commands of ZMTP 3.1 are calls of the two methods below.
- PubSub.Publisher.ReadSubscription: manual mode is not modelled.
- PubSub.Publisher.PipeTerminated: manual mode is not modelled.
- PubSub.Publisher.Choose: the pipe that manual mode sends to is not modelled.
- PubSub.Publisher.Receive: flags and metadata of notifications are not modelled.
- PubSub.Publisher.ReadCancel: manual mode is not modelled.
- Messages.ReleasedExactlyOnce: metadata and long groups of messages are not modelled; `add_refs` does not count long groups. Each operation is one step.
- StreamEngine.Receive: with zero-copy, requires a buffer of more than eight bytes. A draft option allows fewer (`src/options.cpp:790-795`); then bytes are read into the scratch buffer, and the zero-copy test of `src/v2_decoder.cpp:117-119` subtracts pointers into different objects, which has no meaning to model. Without zero-copy any buffer is modelled.
- Decoder.Decoder.Decode: the buffer given to it is one that the message in progress does not lie in, which `SharedBuffer.Allocator.Allocate` sees to.
- SharedReceive.ReceiveShared: messages are entered with the allocator after the chunk is decoded, not between its bodies; those that go meanwhile change no position.
- Encoder.Encoder.LoadMsg: the body has fewer than 2^64 - 1 bytes, as any body in memory.
- Context.Ctx.BeginTerminate: forked processes are not modelled.
- Context.Ctx.Start: the failing starts and the threads themselves are not modelled.
- Inproc.Rendezvous.ConnectInprocSockets: routing ids, high water marks and hello messages of the two sockets are not modelled.
- Mechanism.Mechanism.ParseMetadata: whether a socket type fits and whether a property is accepted are parameters.
- Allocation failures, logging, timers, polling and operating-system input and output.
- Security mechanisms and their handshakes, other transports, and the socket types that only pass calls on.
- Weak memory: every atomic operation is one step.
