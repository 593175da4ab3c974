# Verified model of Mercy

Mercy lets processes share memory. A manager process hands out blocks named by packed 128-bit ids;
clients build reference-counted handles, vectors and watched state on top of them. This project
models the parts of Mercy in which correctness depends on several functions or several processes,
and proves what they promise. One module per file:

- `Bits`, `AllocMask` - the three-level bitmap over 65536 ids (src/header.rs), refined to a plain set.
- `Blocks` - the manager's block table: live blocks, free list, high-water mark, retry loop against
  the exclusive name space of the operating system, worker slots (src/pal/posix/server.rs).
- `References` - every owner of a reference in any number of processes, together with that block
  table; each operation is one step (src/sync.rs, src/context.rs, src/pal/posix/server.rs).
- `Handles`, `HandleSteps` - the `Arc` and `Weak` objects of one process, and the proof that each
  operation on them, and on the manager's worker slots, is a step of `References`.
- `FineRelease` - the release protocol of one object at the grain of single atomic instructions.
- `FineHandles` - the operations on handles as uninterrupted runs of those instructions.
- `Locks` - the manager's locks, its handler threads, the workers they spawn, and the wait for them.
- `Guards` - which tables a handler changes, and the locks it holds meanwhile.
- `AllocIds` - the 128-bit layout, both encoders and all decoders.
- `XpcTypes`, `XpcCodec`, `XpcRoundTrip` - the serde codec for XPC objects as functions, and its round
  trip (src/pal/apple/xpc.rs).
- `XpcWire` - what an XPC object says: the exact form of what is written, and of what is read.
- `XpcHeap`, `XpcOwnership`, `XpcSerialize`, `XpcDeserialize`, `XpcLifecycle` - the same codec on a heap
  of retained and released objects, with its loops, and its ownership balance.
- `Utf8`, `Framing` - lossy UTF-8 decoding and the newline framing of both ends of a connection.
- `Replies` - requests, forwarded messages, broadcasts and reply closures among any number of clients,
  whose sockets are read in the order in which they were written.
- `Recorder` - the recorder's queue, its thread and the thread that ends the recording.
- `Listeners` - the listener registry of watched state while allocation ids change.
- `GrowVec` - the shared vector, its growth and its block.

How the pieces fit: a block id in `Blocks`, `References` and `Handles` stands for the packed id;
`AllocIds` proves that no id is changed by packing, crossing the wire and unpacking. Shared-memory
creation fails exactly when the name exists, or for a reason given as the parameter `fault`. Random
numbers, bytes read, and the order in which dictionaries are walked are parameters.

Where the code falls short of what its documentation or tests suggest, the model follows the code:

- The counts of an object can be freed under a live weak handle when a handle is downgraded while a
  weak drop stands between its decrement and its load. `FineRelease.LoudIsUnsafe` continues any such
  downgrade to the failure, and `FineRelease.LoudExample` gives one; `FineRelease.QuietOutlives` shows
  that without one it cannot happen.
- Without one the counts can still be freed twice: exactly when the last strong drop, from its decrement
  to its load, overlaps the last weak drop, and exactly then an instruction uses the counts after they
  were freed (`FineRelease.FreedTwiceIff`, with a run in `FineRelease.TwiceExample`).
- The handler that spawns a worker waits for it to register, without end if the worker never comes, or
  comes and is gone before the handler looks; otherwise every message can be served (`Locks.AllServed`).
- `handle_free_message` pushes an id even when it is not live; the accounts survive a free exactly when
  the id is live (`Blocks.FreeConserves`). No reply names a live block all the same (`Blocks.NoDoubleGrant`).
- The server decodes each read by itself, so a read that ends inside a character spoils it:
  `Framing.ServerSeesStream` says exactly when the text survives.
- An option whose payload is encoded as null comes back as `None` (`XpcRoundTrip.NullOptionLost`,
  `XpcRoundTrip.RoundTripExact`). A failing `to_xpc` leaks every container that was open
  (`XpcSerialize.ToXpc` says exactly when nothing is left behind, `XpcOwnership.LeakExample` names a value).
- A client only checks its own closures for a new id. A closure can then run on another request's reply
  exactly when, as the request is sent, a message with its id is under way that can become a reply at
  this client before the client's own, or the request's own answer will be broadcast and can reach
  another client that keeps a closure under the id before the reply that closure waits for
  (`Replies.MeetExact`; `Replies.OwnCheckNotEnough` is a run that gets there). Closures of the kinds
  without a reply stay until the client closes (`Replies.SilentKept`); such a closure makes later ids
  dangerous only for the answers that are broadcast (`Replies.KeptHarmless`).
- A vector whose size does not fit in 32 bits asks for a block of the size cut to 32 bits. If nothing is
  left of the size the manager refuses; otherwise, and exactly then, the push writes past its block
  (`GrowVec.Vec.Push`, `GrowVec.OverrunExample`). A vector made by `Vec::new` can come to that exactly
  when the size of its elements is not a power of two (`GrowVec.SomeOverrunIff`).
- `State::set` passes `()` to the listeners, which ignore it, although the documentation of
  `add_listener_callback` and the test `state_callback_test` expect a call (`Listeners.StepHeard`).

## Model

| member | source | states |
|---|---|---|
| AllocMask.MLAllocMask.FindAvailableId | src/header.rs:59-81 | the least id outside the reserved set, None only when all 65536 ids are reserved |
| AllocMask.MLAllocMask.ReserveId | src/header.rs:83-98 | adds exactly one id to the reserved set and keeps all three levels consistent |
| AllocMask.MLAllocMask.FreeId | src/header.rs:100-112 | removes exactly one id from the reserved set, reserved before or not, and keeps the levels consistent |
| AllocMask.ReserveKeeps | src/header.rs:83-98 | however far a full word is carried up, a summary bit is set iff the word below is full |
| AllocMask.FreeKeeps | src/header.rs:100-112 | clearing all three levels at once keeps every summary bit exact |
| AllocMask.DescentFinds | src/header.rs:59-81 | the first clear bit of each level never leads into a full word and ends at the least free id |
| AllocMask.TakeAll | src/header.rs:59-98 | find and reserve from any mask yields exactly the free ids, ascending, 65536 minus the reserved ones |
| AllocMask.FreeThenTake | src/header.rs:115-142 | from a full mask exactly the freed ids come back, ascending, whatever the order and repetitions of freeing |
| AllocMask.AscendingUnique | src/header.rs:115-142 | an ascending list is determined by its elements, so the two above fix the ids returned one by one |
| Blocks.AttemptsBounded | src/pal/posix/server.rs:278-305 | the retry loop makes at most free-list length plus remaining mark attempts, in any state |
| Blocks.AllocSafe | src/pal/posix/server.rs:278-309 | a granted id is neither live nor an existing name, and no live block is touched on any outcome |
| Blocks.AllocFirstFit | src/pal/posix/server.rs:278-305 | every id passed over had its name taken; the free list loses a prefix only |
| Blocks.AllocAnswer | src/pal/posix/server.rs:278-305 | the answer is the first id, on the free list from its head and then from the mark on, whose name is not taken, granted or failed to create; overflow if and only if there is none below 65535; the ids before it, and no others, are given up, one attempt each |
| Blocks.GrantsInOrder | src/pal/posix/server.rs:278-305 | a new server grants 0 to 65534 in this order, and then overflows |
| Blocks.FreedReturn | src/pal/posix/server.rs:263-336 | live blocks that are freed onto an empty free list are granted again in the order in which they were freed |
| Blocks.AllocConserves | src/pal/posix/server.rs:278-309 | ids below the mark stay the disjoint union of live, free (each once) and abandoned ids |
| Blocks.FreeConserves | src/pal/posix/server.rs:328-336 | a free keeps that partition if and only if it names a live block |
| Blocks.ReleasesRefine | src/pal/posix/server.rs:232-261 | the server's decrement_rc and the client's decrement_strong_count have the same effect, that of one abstract release |
| Blocks.ReleaseConserves | src/pal/posix/server.rs:232-261 | the server's release keeps the partition of all ids, whether the data block is still live or not |
| Blocks.NewObjectLeaves | src/sync.rs:42-66 | a new object is two new blocks; when the second allocation fails the first block stays live |
| Blocks.NoDoubleGrant | src/pal/posix/server.rs:278-336 | after any messages, double frees and stray writes included, no reply names a live block |
| Blocks.Server.HandleAlloc | src/pal/posix/server.rs:263-326 | the retry loop computes the specified outcome and table |
| Blocks.Server.HandleFree | src/pal/posix/server.rs:328-336 | the whole new table after a free message |
| Blocks.Server.DecrementRc | src/pal/posix/server.rs:232-261 | the whole new table after the server's release; zero and unknown ids change nothing |
| Blocks.Server.HandleSetWorkerState | src/pal/posix/server.rs:502-517 | the slot takes the new id and the reference it held before is released; unknown workers change nothing |
| Blocks.Server.Disconnect | src/pal/posix/server.rs:148-155 | the worker goes and the reference in its slot is released |
| Handles.Arc.New | src/sync.rs:42-66 | two blocks, the counts starting at one and zero; what is left when an allocation fails |
| Handles.Arc.DecrementStrongCount | src/sync.rs:110-127 | the client's release step, and which ids of the handle are zeroed |
| Handles.Arc.CloneFrom | src/sync.rs:168-185 | the old reference is given up before the source is counted; the source's counts are still live then, even on the same object, because it is an owner of its own |
| Handles.Arc.AllocIdOf | src/sync.rs:130-137 | the id handed out carries one reference of its own |
| Handles.Arc.FromId | src/sync.rs:68-81 | a counted handle whose data block is the one the counts speak of |
| Handles.Arc.Downgrade | src/sync.rs:85-90 | one weak reference more, on the same blocks |
| Handles.Weak.Upgrade | src/sync.rs:263-276 | a strong handle iff the count is not zero |
| Handles.Weak.DecrementWeakCount | src/sync.rs:290-306 | one weak reference less, and when the counts go with it |
| References.StepKeeps | src/sync.rs:42-306 | every operation of any process, publishing and disconnecting included, keeps the whole accounting |
| References.Conservation | src/sync.rs:42-137 | in every run count = strong handles + unconsumed published ids + worker slots, and weaks = weak handles |
| References.Lifetimes | src/sync.rs:110-127 | in every run a counts block is live iff somebody owns a reference, its data block while somebody owns a strong one, shared with no other object |
| References.FreedExactlyOnce | src/sync.rs:290-306 | in every run each object's data and counts blocks return to the free list exactly once, and not before their last owner is gone |
| References.NothingLeaks | src/pal/posix/server.rs:245-258 | without owners left every id is free, abandoned or not part of a counted object |
| References.LegalSteps | src/context.rs:266-287 | no operation its owners may ask for is ever stuck: handles and ids never dangle |
| HandleSteps.NewStep | src/sync.rs:42-66 | making an Arc is one step of the world, whatever of it fails, and there is a handle exactly if the step makes a reference |
| HandleSteps.CloneStep | src/sync.rs:153-166 | cloning a handle is one step, and both handles are then on the books |
| HandleSteps.CloneFromStep | src/sync.rs:168-185 | clone_from is one step: the handle has become a second owner of the source's object |
| HandleSteps.DowngradeStep | src/sync.rs:85-90 | downgrading is one step |
| HandleSteps.UpgradeStep | src/sync.rs:263-276 | upgrading is one step, and gives a handle exactly if the count is not zero and the step makes a reference |
| HandleSteps.DropStep | src/sync.rs:110-127 | dropping an Arc is one step, with all it frees |
| HandleSteps.DropWeakStep | src/sync.rs:290-306 | dropping a Weak is one step, with all it frees |
| HandleSteps.AllocIdStep | src/sync.rs:130-137 | handing out an id is one step, and the id carries a reference |
| HandleSteps.FromIdStep | src/sync.rs:68-81 | making a handle from an id on its way is one step |
| HandleSteps.SetStateStep | src/pal/posix/server.rs:502-517 | publishing a state is one step: the id's reference passes to the slot and the one before is released |
| HandleSteps.GetStateStep | src/context.rs:266-287 | getting a worker's state and making a handle from it is one step, and gives a handle exactly if the slot is held |
| HandleSteps.RegisterStep | src/pal/posix/server.rs:98-102 | registering is one step; what a slot held is lost, not released |
| HandleSteps.DisconnectStep | src/pal/posix/server.rs:148-155 | disconnecting is one step that releases what the slot held |
| FineRelease.NoLeak | src/sync.rs:110-127 | under any interleaving of single instructions: data freed exactly once, counts at least once, neither under a strong handle |
| FineRelease.QuietOutlives | src/sync.rs:290-306 | without a downgrade inside a weak drop, the counts outlive every weak handle and are freed at most twice |
| FineRelease.FreedTwiceIff | src/sync.rs:110-127 | in such a run, at its end, the counts were freed twice iff the last strong and the last weak drop overlapped, else once; and just then some instruction used them after they were freed |
| FineRelease.TwiceExample | src/sync.rs:290-306 | a run in which they overlap and the counts are freed twice |
| FineRelease.LoudExample | src/sync.rs:85-90 | a run of two steps after which a downgrade leads, three steps later, to counts freed under a live weak handle |
| FineRelease.LoudIsUnsafe | src/sync.rs:290-306 | any downgrade inside a weak drop can be continued to counts freed under a live weak handle |
| FineHandles.Refines | src/sync.rs:85-306 | the instructions of clone, downgrade, upgrade and the two drops, uninterrupted, make the counts, the frees in their order and the handles that the operations make on the block table |
| FineHandles.RunRefines | src/sync.rs:85-306 | any operations one after the other are a quiet run of single instructions, and the table shows the object in the end |
| FineHandles.RunFrees | src/sync.rs:110-127 | when they leave no handle, both blocks have been given back, each once |
| FineHandles.NewStands | src/sync.rs:42-66 | the object that a run of instructions starts from is the one that a new Arc makes |
| FineHandles.CloneRefines | src/sync.rs:153-166 | `clone` is its one instruction, and makes a strong handle |
| FineHandles.DowngradeRefines | src/sync.rs:85-90 | `downgrade` is its one instruction, and makes a weak handle |
| FineHandles.UpgradeRefines | src/sync.rs:263-276 | `upgrade` returns a handle exactly if the instruction makes one, which is if there is a strong handle |
| FineHandles.DropRefines | src/sync.rs:110-127 | dropping an Arc is the run of its instructions, with the same frees in the same order |
| FineHandles.DropWeakRefines | src/sync.rs:290-306 | dropping a Weak is the run of its instructions, with the same free |
| Locks.HandlerOrdered | src/pal/posix/server.rs:268-270 | every handler, decrement_rc under WORKERS included, takes the locks in one order |
| Locks.NoDeadlock | src/pal/posix/server.rs:502-517 | for any clients, messages and schedule, some unfinished thread can go on: neither the locks nor the processes to be started are waited for in a circle |
| Locks.AllServed | src/pal/posix/server.rs:361-392 | from every reachable state all messages can still be served if and only if every worker some handler spawns and waits for connects, and none of them disconnects |
| Locks.LeavesTooSoon | src/pal/posix/server.rs:148-155 | otherwise a run, spawning before connecting, after which a handler waits for a worker that has come and gone |
| Locks.StuckMeansServed | src/pal/posix/server.rs:143-230 | a run that cannot go on has served every message and holds no lock |
| Locks.RunLength | src/pal/posix/server.rs:382-384 | a run is as long as what it has done, and two steps longer for every look for a worker that is not there |
| Locks.Exclusive | src/pal/posix/server.rs:328-330 | no lock is ever held by two threads |
| Guards.HoldsItsTables | src/pal/posix/server.rs:263-540 | each handler takes the locks of the tables it uses and no others, and at one moment holds them all |
| Guards.ChangesUnderLocks | src/pal/posix/server.rs:232-336 | whatever alloc, free and the releases change in the block table, at one moment its locks are all held |
| AllocIds.PackDecodes | src/pal/posix/server.rs:307-318 | family, size, block and tag come out of the packed id, negative family hashes included |
| AllocIds.Layout | src/pal/posix/server.rs:307-307 | the fields stand one after the other in 16, 8, 4 and 4 hexadecimal digits |
| AllocIds.SplitJoin | src/pal/posix/mod.rs:494-505 | splitting any id for the wire and joining it again loses nothing |
| AllocIds.EncodersAgree | mercy-server-XPC/MercyServerXPC/MercyServerXPC.m:44-51 | the two managers build the same two words |
| AllocIds.PackedNonzero | src/alloc.rs:93-114 | a packed id is zero only when all its fields are; len answers exactly the nonzero size |
| AllocIds.RoundTrip | src/alloc.rs:47-91 | what reaches the client, and comes back to the manager, decodes to what was packed |
| AllocIds.XpcRoundTrip | mercy-server-XPC/MercyServerXPC/MercyServerXPC.m:24-51 | an id of the XPC manager is the one the POSIX manager would pack, and survives joining and splitting |
| XpcRoundTrip.RoundTrip | src/pal/apple/xpc.rs:979-988 | decoding an encoded value of any type gives it back with options of null collapsed, in any dictionary order |
| XpcRoundTrip.RoundTripExact | src/pal/apple/xpc.rs:129-460 | encoding succeeds iff there is no NUL; the value comes back unchanged iff no option holds a null |
| XpcRoundTrip.EncodeSucceeds | src/pal/apple/xpc.rs:188-191 | the one cause of failure of the encoder |
| XpcRoundTrip.OrderIndependent | src/pal/apple/xpc.rs:820-900 | decoding any object, encoded here or not, does not depend on the order of dictionary keys, errors included |
| XpcRoundTrip.NullOptionLost | src/pal/apple/xpc.rs:198-208 | `Some(())` comes back as `None` |
| XpcWire.EncodedSays | src/pal/apple/xpc.rs:129-460 | what is written for a value has the one strict form: scalars of their own type, arrays of the length of the tuple, dictionaries with exactly the fields, a unit variant its name, any other a dictionary of one key |
| XpcWire.SaysEncoded | src/pal/apple/xpc.rs:129-460 | an object of strict form is written for the value it says, which is of the type |
| XpcWire.WireExact | src/pal/apple/xpc.rs:129-460 | so the objects of strict form are exactly those written for the values of a type |
| XpcWire.WrittenAgain | src/pal/apple/xpc.rs:979-988 | reading what was written and writing it again gives the same object |
| XpcWire.DecodeSays | src/pal/apple/xpc.rs:492-973 | for any object: the value read is the one it says, in the strict form or with what the deserializer puts up with (any unit, longer arrays, bytes as a tuple of numbers, unknown keys, absent optional fields, a unit variant as a key), and there is an error just when it says none |
| XpcHeap.Runtime.Release | src/pal/apple/xpc.rs:60-76 | giving back a reference keeps every count equal to slots plus owned references, through any cascade of destruction |
| XpcSerialize.ToXpc | src/pal/apple/xpc.rs:129-299 | on success one more owned reference, the root, which denotes the encoding; everything created is part of it and held once; on failure nothing is left behind iff no container was open |
| XpcOwnership.LeakExample | src/pal/apple/xpc.rs:305-348 | a list of one string with a NUL is a value whose encoding fails with a container open |
| XpcSerialize.FillArray | src/pal/apple/xpc.rs:305-348 | the same for sequences and tuples: each element is held by its slot alone |
| XpcSerialize.FillStruct | src/pal/apple/xpc.rs:413-431 | the same for structs |
| XpcSerialize.FillMap | src/pal/apple/xpc.rs:380-411 | the same for maps, whose keys become objects for a moment |
| XpcSerialize.EndVariant | src/pal/apple/xpc.rs:350-373 | the payload of a variant ends up held by the dictionary alone; what a NUL in the name leaks |
| XpcDeserialize.FromXpc | src/pal/apple/xpc.rs:466-489 | the result is the decoding of the denoted object, and no object and no reference count is changed, on success or error |
| XpcDeserialize.FromElements | src/pal/apple/xpc.rs:782-814 | the same for the element loop |
| XpcDeserialize.FromEntries | src/pal/apple/xpc.rs:820-900 | the same for the key loop, whatever order the runtime keeps the keys in |
| XpcDeserialize.FromFields | src/pal/apple/xpc.rs:820-900 | the same for structs, unknown keys skipped |
| XpcDeserialize.FromEnum | src/pal/apple/xpc.rs:906-973 | the same for enums, from a string or a one-key dictionary |
| XpcDeserialize.Ignore | src/pal/apple/xpc.rs:741-756 | skipping any object leaves every count as it was |
| XpcLifecycle.DropTree | src/pal/apple/xpc.rs:60-76 | dropping the root of a built tree destroys exactly that tree |
| XpcLifecycle.Roundtrip | src/pal/apple/xpc.rs:979-988 | serialize, deserialize, drop: succeeds iff no NUL, returns the value iff no option of null, and leaves the runtime as it was |
| Utf8.LossyEncode | src/pal/posix/mod.rs:259-259 | decoding an encoded text gives the text |
| Utf8.FirstExact | src/pal/posix/server.rs:158 | each step of the lossy decoding takes the longest beginning of a character, gives the character if it is whole, and U+FFFD else |
| Utf8.CutExact | src/pal/posix/server.rs:158 | decoding two pieces apart equals decoding the whole iff the cut is at a character boundary |
| Utf8.EncodedBoundary | src/pal/posix/server.rs:158 | in encoded text the boundaries are exactly where no continuation byte follows |
| Framing.LinesAppend | src/pal/posix/mod.rs:247-263 | lines so far, then lines of the tail with what arrives next, are the lines of the whole |
| Framing.LinesWhole | src/pal/posix/mod.rs:257-258 | lines and tail together are the stream; the tail has no newline |
| Framing.Client.Receive | src/pal/posix/mod.rs:252-263 | one read delivers exactly the non-blank lines it completes and keeps the tail |
| Framing.Client.HandleMessages | src/pal/posix/mod.rs:242-306 | for any cutting into reads: the non-blank lines of the whole stream up to the first empty read, and its tail |
| Framing.Server.HandleMessages | src/pal/posix/server.rs:143-166 | the lines served, up to the end of the stream or a line that shuts the server down; where no read cuts a character, those are the lines of the client's loop |
| Framing.ServerSeesStream | src/pal/posix/server.rs:158 | the pieces decoded apart are the text of the stream iff no read cuts a character |
| Framing.CutCharacterSpoiled | src/pal/posix/server.rs:158 | a two-byte character read in two pieces becomes two replacement characters |
| Framing.SentDelivered | src/pal/posix/mod.rs:234-237 | any one-line messages sent arrive trimmed, without the blank ones, in order, and nothing stays pending |
| Framing.DeliverUnchanged | src/pal/posix/mod.rs:259-263 | messages arrive as sent iff none is blank or padded |
| Framing.MessagesArrive | src/pal/posix/mod.rs:242-263 | any cutting of the stream of such messages delivers those messages, at the server where no character is cut |
| Framing.BracesArrive | src/pal/posix/mod.rs:242-263 | one-line messages that begin and end with a brace arrive as they were sent, however the stream is cut |
| Framing.BlanksTrimmed | src/pal/posix/mod.rs:259-263 | spaces, tabs and carriage returns around such a message are trimmed, and lines of them alone come to nothing |
| Framing.EndOfStream | src/pal/posix/server.rs:146-155 | what would come after an empty read is not read |
| Replies.StepKeeps | src/pal/posix/server.rs:394-436 | every step of client, server and worker, for any request that cannot meet another, keeps each request as exactly one of: one live message, answered once, dropped, and no message able to run the closure of another |
| Replies.Correlation | src/pal/posix/mod.rs:277-285 | in every run of requests that cannot meet a closure runs at most once, at its own client, on the reply to its own request; the closures an open client keeps are those of its unanswered requests |
| Replies.MeetExact | src/pal/posix/mod.rs:199-208 | in any state of such a run a request can meet another if and only if, once it is sent, connections accepted and messages read in the order of their sockets can make a closure run on a reply that is not its own |
| Replies.MeetingGoesWrong | src/pal/posix/server.rs:416-436 | the steps that make it go wrong, from any such state |
| Replies.Quiescent | src/pal/posix/mod.rs:210-240 | with nothing under way the closures left are exactly those of the dropped requests of open clients, all silent kinds among them |
| Replies.SilentKept | src/pal/posix/mod.rs:526-534 | the closure of a free, a state message or a shutdown is kept exactly until its client closes |
| Replies.ManagerAnswers | src/pal/posix/server.rs:263-540 | with nothing under way the closure of every alloc, map, new worker, get state and mutex request of an open client has run exactly once, and every free, state message and shutdown has been dropped |
| Replies.AllAnswered | src/pal/posix/server.rs:394-436 | so have those of the messages to workers, if no one closes, workers answer and are there, and no two connections announce one id |
| Replies.RegisteredExact | src/pal/posix/server.rs:90-155 | in every run the registry knows, of the connections that announced one worker id, at most the last, and not even that one once any of them has been found closed |
| Replies.KeptHarmless | src/pal/posix/mod.rs:199-208 | with no message of that id under way only a broadcast answer can go wrong, at an open, registered client that keeps a closure under the id |
| Replies.OwnCheckNotEnough | src/pal/posix/mod.rs:199-208 | a run, from the start, after which the client's own check lets a request through whose closure then runs on another's reply |
| Replies.LiveCopies | src/pal/posix/server.rs:416-436 | of a broadcast exactly one copy counts, if its client is still registered |
| Replies.Client.NewId | src/pal/posix/mod.rs:199-208 | the first number drawn that has no closure |
| Replies.Client.SendWrapped | src/pal/posix/mod.rs:210-240 | the closure is kept under the id that is sent, the first drawn that had none |
| Replies.Client.HandleReply | src/pal/posix/mod.rs:277-285 | a reply takes out the one closure it names; a second reply finds none |
| Replies.ClientSteps | src/pal/posix/mod.rs:199-285 | these methods take the steps of the model |
| Recorder.StepKeeps | src/rec.rs:81-146 | every step keeps recorded updates plus snapshots in hand equal to the modified snapshots sent up to the last drain |
| Recorder.EndExact | src/rec.rs:101-118 | whenever end_recording has returned each id has one update per modified snapshot sent up to the last drain, in order |
| Recorder.NothingLost | src/rec.rs:101-118 | with no one sending meanwhile, that is every modified snapshot sent and nothing else |
| Recorder.EndProgresses | src/rec.rs:85-97 | once the flag is cleared no step of another thread holds the queue thread back, and each of its own brings it nearer to stopping |
| Recorder.EndReturns | src/rec.rs:85-118 | from any state in which end_recording waits or flushes, the two threads alone bring it to its end |
| Recorder.RecordsMeanwhile | src/rec.rs:85-97 | while the flag is set, the queue thread alone brings every modified snapshot sent so far into the updates, in order |
| Recorder.RecorderInner.ProcessQueue | src/rec.rs:121-146 | the loop appends to each id's list the updates of the queued snapshots, in order, and empties the queue |
| Recorder.WatchGuard.Drop | src/rec.rs:443-467 | the snapshot sent is modified iff mutable access was taken, from the data at the start to the data now |
| Recorder.WatchOnce | src/rec.rs:443-535 | a guard leaves one update however often it is written through, none if it is not |
| Listeners.State.Set | src/rec.rs:225-279 | the registry and the calls after `set` |
| Listeners.State.SetValue | src/rec.rs:304-362 | the registry and the calls after `set_value` |
| Listeners.State.AddListener | src/rec.rs:366-381 | the callback is added behind those the state has |
| Listeners.ListenersFollow | src/rec.rs:185-279 | through any changes and reuse of ids a state's listeners are those added to it, and its pointer is known |
| Listeners.StepHeard | src/rec.rs:347-381 | `set_value` runs every added closure in order on the new value; `set` runs none; a guard runs those of the state that has its id now |
| Listeners.NothingLeftBehind | src/rec.rs:257-265 | in every run the registry entries without a state are those of dropped states; a state that changes its id leaves none |
| Listeners.DroppedStillHeard | src/rec.rs:443-467 | the listeners of a dropped state are still run by a guard on the id it had |
| GrowVec.RunExact | src/vec.rs:60-102 | any pushes and pops on a new vector: contents and results of the pops are those of the plain sequence, elements moved = capacity - 1, capacity a power of two below twice the pushes |
| GrowVec.FewMoves | src/vec.rs:60-92 | fewer than two moves a push |
| GrowVec.LastInFirstOut | src/vec.rs:60-102 | whatever is pushed and popped again after a push, the pop that comes next returns what that push put in, and leaves what was there before |
| GrowVec.ManyExact | src/vec.rs:43-190 | in any run of making, pushing, popping, cloning and dropping over any number of vectors, each has its plain elements and every pop returns what they say; elements moved plus the capacity it started with is its capacity, which stays below twice its starting elements and pushes |
| GrowVec.OverrunIff | src/vec.rs:60-75 | the block a full vector grows into, if there is one, is too small for one more element iff its size does not fit in 32 bits |
| GrowVec.NewNeverOverruns | src/vec.rs:38-75 | no run of pushes and pops on a new vector whose element size is a power of two comes to a push that writes past its block |
| GrowVec.SomeOverrunIff | src/vec.rs:60-75 | some capacity a new vector reaches leads to a write past the block iff the element size is not a power of two |
| GrowVec.OverrunExample | src/vec.rs:60-75 | twelve-byte elements and a capacity of 2^28: growing asks for 6 * 2^30 bytes and gets 2^31 |
| GrowVec.RoomIff | src/vec.rs:43-48 | the size cut to 32 bits has room for the capacity iff the bytes fit in 32 bits |
| GrowVec.Vec.WithCapacity | src/vec.rs:43-58 | an empty vector in a block of its own, sound iff the bytes fit in 32 bits; none iff the manager is full or nothing is left of the size |
| GrowVec.Vec.Push | src/vec.rs:60-92 | the abstract push, in the old block or a new one replacing it; refused, with nothing changed, iff it has to grow and the manager is full or the size is cut to zero; it writes past the block iff it grows into a block of a size that does not fit in 32 bits |
| GrowVec.Vec.Pop | src/vec.rs:94-102 | the abstract pop, None on an empty vector |
| GrowVec.Vec.Clone | src/vec.rs:161-190 | equal contents in a block that was not there before; the original is untouched |
| GrowVec.Vec.Drop | src/vec.rs:21-36 | every element destroyed once, in order, and the one block given back |
| GrowVec.Process.Push | src/vec.rs:60-92 | among any vectors, only the one pushed to changes, refused or overrun exactly as above, and each still has exactly one block of its own |
| GrowVec.Process.Clone | src/vec.rs:161-190 | one vector more, with the same elements and a block of its own; the others are untouched |
| GrowVec.Process.Drop | src/vec.rs:21-36 | a dropped vector takes its own block and no other |

## Left out

- References.Next: the load and the add of `upgrade`, and `get_worker_state` followed by `from_id`, are one step each; a client's frees belong to the step of its drop. `FineRelease` takes the drops apart.
- References.IsRun: runs in which an object never has 2^32 owners of one kind; beyond that the 32-bit counters wrap and the law fails.
- References.LegalSteps: when a worker registers again over a full slot, the id held there stays unconsumed for ever, as in the code.
- FineRelease.NoLeak: sequentially consistent, and `upgrade` is one step; relaxed memory orders are not modelled.
- FineHandles.Refines: for counts below 2^32, where the 32-bit counters do not wrap.
- Blocks.AllocAnswer: for free lists of ids that were handed out; a free message that names an id above the mark is outside of it.
- Blocks.Server.HandleAlloc: `u16` addition is checked; the overflow is an outcome where the program panics.
- Locks.NoDeadlock: every handler terminates between its lock operations; lock poisoning and panics are not modelled.
- Locks.AllServed: a worker gets an id above that of the client it is spawned for, as NEXT_WORKER_ID counts up from one, and a client disconnects only in the end. A spawn that fails, and the end of the accepting loop at a shutdown, are not modelled; connections are registered in any order.
- XpcRoundTrip.RoundTrip: types are finite, so recursive types are not covered; map keys are strings; floating-point values are reals, and `f32` is not modelled; integers of 128 bits are not supported by the codec.
- XpcRoundTrip.RoundTripExact: the same types as XpcRoundTrip.RoundTrip.
- XpcCodec.Decode: error texts are not modelled, only whether there is an error.
- XpcSerialize.ToXpc: for values of some type, so struct fields have distinct names.
- Framing.Server.HandleMessages: parsing and dispatch of a line are not modelled; which lines shut the server down is a parameter.
- Replies.Correlation: each socket is read in the order of writing, whole messages at a time; writes of two threads that mix inside one message, replies that fail to parse, timeouts, handlers that panic and the end of the server after a shutdown are not modelled.
- Recorder.EndExact: for unchanged allocation ids and one queue thread at a time; a second begin_recording before the end starts a thread that nobody joins. A diff is represented by the two byte strings it is computed from.
- Listeners.ListenersFollow: for states that do not share an allocation id; clones of a state, and an inner type of `()`, are not modelled.
- GrowVec.Vec.Push: nothing is said about the memory after a write past the block. Element sizes are positive, and freeing is immediate. A size cut to zero is refused, as both managers do: mercy-server-XPC/MercyServerXPC/MercyServerXPC.m:60 says so; the POSIX manager leaves it to the operating system's shared memory.
- `src/string.rs` and `src/boxed.rs`: one block each, read and written as the vector's.
- The inter-process `Mutex`: every process locks a copy of its own, so there is no exclusion to prove.
- `src/mapping`, `src/error.rs`, `src/worker.rs`, `src/macros`, the context registry and builder: wrappers, formatting, process globals.
- Sockets, process spawning, memory mapping, the JSON text and the diff algorithm: libraries; a message is a line, an update the pair of byte strings it is computed from.
- Stale client mapping caches after another process has freed a block.
