# Flocksy, verified

Flocksy keeps directories ("boxes") on several nodes in step. Nodes that run it repeat a
three-digit status in their heartbeats; a node with a new or changed file announces it,
waits until every other node has answered, hands the file out while everyone else sends fake
data, and ends the session once everyone has said that it has everything. This project models
that protocol, the hash trees over a directory, and the file transfer, and proves what they
guarantee.

`dafny verify dfyconfig.toml` checks the whole project.

## How the model is laid out

- `Fsm` holds the generated decision tables as five separate functions. `Boxoffice` is one step of
  the boxoffice on values (`Process`), split into the stages of `processEvent`. `Service` is the
  boxoffice as an object with fields, loops over its subscribers and logs of what it sent;
  `ProcessEvent` is proved to do exactly what `Process` says.
- `Stages`, `Steps`, `Counting`, `Queues` and `Orders` say what one step can do; `Runs` proves the
  properties of one node over every sequence of messages.
- `ByNumber` is an index of the state machine by status, in the numbers of the header, with which the tables and
  the named constants are shown to agree. `Exact` states one whole step with it, without the stages of `Process`:
  the final status, the outcome, the next state, the flags, the orders and the heartbeat.
- `Flock` is a system of any number of nodes: each runs the boxoffice step, a heartbeater that repeats
  the status it took up last and lags behind, and a dispatcher. Ordered pairs of nodes are joined by
  FIFO channels that may lose messages. One node (the lead) gets file events while it is ready.
  `Roles` lists the transitions of a leading and of a following node, `Invariant` states the inductive
  invariant for the lead and one following node with the two channels between them; `LeadProof`,
  `FollowProof`, `Channels` and `Safety` prove that every move keeps it. `Commit`, `History`, `Alignment`,
  `EarlyStop`, `Copies` and `Changes` draw the conclusions over whole runs; `Overtaking`, `TwoFiles` and `OldNote`
  build the runs in which alignment is lost, a 155 comes early, a copy is not exact, and a change has no effect.
- `Hashes`, `Merkle`, `HashTree`, `TreeDiff`: digests, the recursive tree, the flat tree object, and the
  comparison of trees.
- `FileStore`, `Transfer`, `Content`, `Codec`, `Streams`, `Dispatcher`: file contents, packages, what a
  receiver ends up with, the metadata record on the wire, and the dispatcher's clock work.

## Assumptions

- Honest peers: a node hears only statuses that nodes advertise, file data (200) and fake data (210);
  132 and 156 come from its own dispatcher, file events from its own boxes. The results about the table,
  the advertised status, the conservation of the queues and the notices to the dispatcher hold without this.
- In a flock one node leads: the others get file events only while they are not ready. File events are 300 and
  320; no box sends 304 or 324 (`Runs` allows these too). Every node is
  subscribed to every other one, and `replied` starts out false (`include/constants.hpp:90` leaves it
  uninitialised).
- Session numbers and the fields of a node from `stored` on are history. No step reads them; `History` ties
  `stored` and `applied` to the moves of the run, and `Alignment.NoStaleExact` ties `ended`.
- A file that fits one packet is read with exactly the size that was announced. One that shrinks in between
  makes the dispatcher read on for ever; nothing is claimed of it.
- The clock and the random number are part of the message that is processed. A step that would throw
  or is undefined is the outcome `Fault`; a return value of 1 is `Rejected`, after which a node of a
  flock processes nothing more.
- The hash function is a parameter. Results that need it to be free of collisions ask this only of the
  texts that are hashed for the two trees at hand.

## Where the code differs from what it is meant to do

- `src/boxoffice.cpp:531` and `:717` cut 32 bytes off a record that starts with a 64-byte hash. `Codec.CutExact`
  states when the record comes back nevertheless, and `Codec.CutKindless` what comes back for any path of at
  most 96 characters: a file of another name, no mode, and kind 0, which `src/file.cpp:166-206` refuses unless a
  file of that name exists. So as written the kept record of such a file cannot be opened, in the lead's dispatcher
  or at a receiver. The protocol model follows the intent, that the record survives, and its results about data
  (`Commit.DataCommit`, `Copies.CopyExact`) speak of that.
- `src/boxoffice.cpp:772` looks for a file object by address, right after creating it. The search never
  succeeds, so in the announcing state a file event becomes 301 and queues nothing; the model does the same.
- `src/dispatcher.cpp:140` adds up `data_size` over the packets, and from the second packet on the message
  lacks its header (`src/dispatcher.cpp:177`). `Transfer.LoopExact` shows that the loop is right for files of
  one packet and no others. In a flock nothing is assumed about the packets of a longer file.
- `file_metadata_written_` is not cleared by 120. A node that receives new files one session after the other
  resizes only the first: in `TwoFiles.CopyCanFail` a shorter second file keeps the tail of the first one.
  `Copies.CopyExact` states exactly when the copy is what was sent, in every run. Nor is the note cleared by 164:
  a change announced by 164 alone can be without effect (`OldNote.ChangeCanFail`), exactly as `Changes.ChangeExact`
  says; one announced by 160 and sent with 170 always takes effect (`Changes.ChangeTakesEffect`).
- `std::unique` in `src/hash_tree.cpp:23` compares pointers: equal hashes in different objects both stay.
- Table rows that pair an event with a status of another event (320 with a new-file event, 100 with
  "node only sends heartbeats", 172 with "all files") can never be taken; `Steps.DeadRows` lists them all. So 410
  is only ever passed on (`Steps.PassedOn`). The table has no row for another metadata change after the first one
  either: two changes of metadata in a row end in a step that is rejected, and the lead stops
  (`Queues.RoundRejected`).
- A following node advertises 155 and 150 to its peers too, and they act on it. One that is still on its way
  from an earlier session ends the current session of its receiver (`Overtaking.AlignmentCanFail`), which then
  advertises 155 before the lead does (`TwoFiles.EarlyStopHappens`). With two nodes neither can happen; with more,
  phase alignment holds exactly while no node that has all data, or all metadata, was handed a 155, or 150, of
  another session (`Alignment.AlignedExactly`), and a 155 comes early exactly after such a 155
  (`EarlyStop.EarlyStopExact`). The commit results are not affected.
- The top hash does not tell trees of different depth apart, and `getChangedHashes` does not compare depths:
  `Merkle.SameTop` and `TreeDiff.RootCheckExact` state exactly which trees it confuses.

## Model

| member | source | states |
|---|---|---|
| `Commit.RunHolds` | src/boxoffice.cpp:353-840 | the inductive invariant of a flock of any size holds in every state of every run, for every interleaving and every loss of messages |
| `Commit.DataCommit` | src/boxoffice.cpp:438-455 | while the lead ends a transfer, every other node is in the same session and has processed its last data packet; for a file of one packet its copy starts with exactly the bytes the lead read (taking the record to survive src/boxoffice.cpp:531, as intended) |
| `Copies.CopyExact` | src/boxoffice.cpp:508-549 | in every run, for a file of one packet, and taking the record to survive the cut as intended: the copy is exactly what was sent if and only if, at the move that read the record, the file was to be resized or had no longer version |
| `TwoFiles.CopyCanFail` | src/boxoffice.cpp:521-524 | a run of three nodes and two files in which the condition fails and the copy keeps an old tail |
| `History.EveryoneStored` | src/boxoffice.cpp:791-828 | when the lead ends a transfer, for every other node there is an earlier move of the run that delivered a data packet with more = 0 to it, in this session |
| `Commit.MetadataCommit` | src/boxoffice.cpp:458-487 | the lead leaves the metadata phase for ready only after every other node has handled the lead's own 170 record of this session |
| `History.EveryoneApplied` | src/boxoffice.cpp:558-589 | the same on the run itself: an earlier move delivered that record to the node in its receiving state |
| `Changes.ChangeTakesEffect` | src/boxoffice.cpp:558-589 | when the lead is ready again after a change sent with 170, every other node's file is gone or of the record's size |
| `Changes.ChangeExact` | src/boxoffice.cpp:592-629 | when the lead leaves either metadata phase, to be ready or for a new file, every other node has read the record of this session, and its file is as the record says if and only if the record was applicable at that move: a deletion, no record noted before, or the right size already |
| `OldNote.ChangeCanFail` | src/boxoffice.cpp:605-615 | a run of three nodes in which everyone has handled a 174 record and the file is not as it says |
| `Commit.EndedEverywhere` | src/boxoffice.cpp:438-487 | every session the lead has ever ended was completed by every other node, with the lead's record |
| `Alignment.PhaseAlignment` | include/flock_fsm.h:2373-2390 | while the lead hands out a file every other node is in its session, acknowledging, promoting, sending fake data or done, unless an earlier move of the run was stale: a 155, or 150, of another session for a node that has all data, or all metadata |
| `Alignment.AlignedExactly` | include/flock_fsm.h:2541-2562 | alignment of the whole flock if and only if no earlier move was stale in this session |
| `Alignment.FallsOutOfLine` | include/flock_fsm.h:2803-2828 | a step of a following node loses alignment if and only if the message it takes is stale for the state it is in before the step |
| `Alignment.EndedExactly` | src/boxoffice.cpp:592-664 | the record of ended sessions grows exactly by that condition on the node and the message |
| `Alignment.NoStaleExact` | src/boxoffice.cpp:592-664 | over a run, nothing is recorded for a session if and only if no move was stale in it |
| `EarlyStop.NoEarlyStop` | include/flock_fsm.h:2625-2646 | before the lead ends a session no node advertises, and no channel holds, a 155 of it, unless a node with all its data took a 155 of another session |
| `EarlyStop.EarlyStopExact` | src/boxoffice.cpp:649-664 | as long as the lead has not ended a session, some node has advertised a 155 of it if and only if some node with all its data has taken a 155 of another session |
| `EarlyStop.TwoNodesSilent` | src/boxoffice.cpp:649-664 | with two nodes there is never an early 155 |
| `TwoFiles.EarlyStopHappens` | src/boxoffice.cpp:649-664 | a run of three nodes in which a late 155 of the first session makes a node advertise 155 of the second one while the lead is sending |
| `Alignment.TwoNodesAligned` | include/flock_fsm.h:2373-2390 | with two nodes alignment holds in every run without condition |
| `Overtaking.AlignmentCanFail` | src/boxoffice.cpp:636-646 | a run of three nodes in which a late 150 of the first session takes a node out of the second one |
| `Roles.LeadSteps` | src/boxoffice.cpp:353-840 | every step of a leading node is one of five kinds of transition, with what it advertises, counts and tells the dispatcher |
| `Roles.FollowSteps` | src/boxoffice.cpp:353-840 | every step of a following node is one of seven kinds of transition, with what it advertises and writes |
| `Runs.NeverNull` | include/flock_fsm.h:2271-2936 | for any messages, the state is never the null state |
| `Runs.TableFollowed` | src/boxoffice.cpp:833-840 | every state change follows an accepted row of the table for the status after all rewrites and the event of that status |
| `Runs.ExitAbsorbs` | include/flock_fsm.h:271-935 | the exit state is never left |
| `Runs.RolesSeparated` | include/flock_fsm.h:2271-2936 | between a sender-role and a receiver-role state, in either order, the node has been ready |
| `Runs.DataAfterMetadata` | include/flock_fsm.h:2271-2936 | a data state is reached only after a metadata state of the same role since the node was last ready |
| `Runs.AdvertFits` | src/boxoffice.cpp:855-858 | the status last sent to the heartbeaters always lies in the set that belongs to the state, and stays what it was on exit |
| `Runs.Quorum` | src/boxoffice.cpp:376-455 | whenever a sending node takes a round to be over, each subscriber has sent the awaited reply in this very state and its flag was not reset since; afterwards no flag is set |
| `Runs.NeedsQuorum` | src/boxoffice.cpp:376-487 | the moves of a sending node that need everyone happen only at the end of such a round |
| `Runs.QueuesConserve` | src/boxoffice.cpp:731-786 | for both queues, what was sent followed by what waits is everything reported, in order; what counts as reported is said in numbers of statuses and states and a path of at most 128 characters, not by the table |
| `Runs.QueuesNeverRunDry` | src/boxoffice.cpp:886-909 | a step fails exactly on a record of a deleted file or on data without a record; never on an empty queue |
| `Runs.StartAsAdvertised` | src/boxoffice.cpp:676-722 | the file and start given to the dispatcher are the ones advertised with 130 in the same step, and the head of the queue |
| `Runs.StopAsAdvertised` | src/boxoffice.cpp:910-934 | a stop that was not passed on from a heartbeat is the one advertised with 155 in the same step, and no node enters the stop phase without having given one |
| `Runs.PretendOnce` | src/boxoffice.cpp:508-549 | two 130 notices have an accepted 120 or 124, or a 174 handled with more to come, in between |
| `Runs.StopOnce` | src/boxoffice.cpp:649-664 | two 155 notices, from either code path, have a 100 taken while ready in between |
| `Steps.StepTaken` | src/boxoffice.cpp:833-840 | for any state and message: a state change follows a row, and carries one heartbeat that fits the new state |
| `Steps.RoleEdges` | include/flock_fsm.h:2271-2936 | which roles and phases the rows of the table connect |
| `Steps.AdvertRow` | include/flock_fsm.h:1604-2269 | on every accepted row that changes the state, action, advertised status and new state agree |
| `Steps.AdvertsAreHeartbeats` | include/flock_fsm.h:937-1603 | whatever a row advertises is a heartbeat status to the peers |
| `Steps.DeadRows` | include/flock_fsm.h:271-935 | exactly which rows pair a status with an event that is not its own |
| `Steps.PassedOn` | include/flock_fsm.h:1604-2269 | 410 is advertised only on receiving it |
| `ByNumber.TakenExactly` | include/flock_fsm.h:271-935 | for each status by number, exactly the states in which it is taken |
| `ByNumber.LeadsExactly` | include/flock_fsm.h:2271-2936 | and exactly where it leads from each |
| `ByNumber.ActsExactly` | include/flock_fsm.h:937-1603 | and exactly which action goes with it |
| `ByNumber.SaysExactly` | include/flock_fsm.h:1604-2269 | and exactly what is advertised when the state changes |
| `ByNumber.RepeatsExactly` | include/flock_fsm.h:1604-2269 | and what stands in the table when it does not |
| `ByNumber.KindsExactly` | include/flock_fsm.h:157-269 | which statuses are heartbeats, new files, metadata changes and data |
| `Exact.StepExact` | src/boxoffice.cpp:353-846 | for an honest message: exactly what becomes of the status, how the step ends, which state it leads to, and what it advertises |
| `Exact.FlagsExact` | src/boxoffice.cpp:376-487 | exactly the reply flags after a step |
| `Exact.OrdersExact` | src/boxoffice.cpp:649-722 | exactly what the dispatcher is told: the start with its status, time and file, the fake traffic, and the stop, whenever they are due |
| `Exact.BeatExact` | src/boxoffice.cpp:882-936 | exactly which file and which deadline go with a heartbeat |
| `Exact.NotesExact` | src/boxoffice.cpp:490-585 | exactly what is noted after a step: the dispatcher told, a record written, the record kept, the sender's clock offset |
| `Exact.TimersExact` | src/boxoffice.cpp:694-703 | exactly the deadline that is kept and whether a stop was given |
| `Runs.Begins` | include/boxoffice.hpp:52-60 | how a fresh boxoffice starts |
| `Exact.RunExact` | src/boxoffice.cpp:323-351 | all of this for every step of every run |
| `Counting.FlagStep` | src/boxoffice.cpp:782-785 | in a sender-role state a set flag was set in the same state before, or by this message being the awaited reply |
| `Counting.ConcludingStep` | src/boxoffice.cpp:376-487 | rewriting a reply needs every other flag, and clears them all |
| `Queues.QueueStep` | src/boxoffice.cpp:731-786 | one step appends to its queue exactly the file of a 300 or 304 in states 1 and 3 to 27, or of a 320 or 324 in states 1 and 3 to 14, with a path of at most 128 characters, and takes off exactly what it advertises |
| `Queues.FaultStep` | src/boxoffice.cpp:676-722 | when one step fails, exactly |
| `Queues.RoundRejected` | src/boxoffice.cpp:458-487 | the last 141 of a round with more to come is rejected if and only if metadata is queued or nothing is |
| `Orders.OrderStep` | src/boxoffice.cpp:910-934 | a step gives the dispatcher at most one order, and which flag held it back before and after |
| `Orders.ClearStep` | src/boxoffice.cpp:490-495 | an accepted 120 or 124, a 174 handled with more to come, and a 100 do let the next notice through |
| `Service.BoxOffice.ProcessEvent` | src/boxoffice.cpp:353-846 | the object with its fields and loops does, for every state and message, exactly what `Boxoffice.Process` does to its value, including everything it sends |
| `Service.BoxOffice.RunRouter` | src/boxoffice.cpp:323-351 | what the object goes through over a list of messages is a run of the specification, up to the first message that does not return 0 |
| `Service.BoxOffice.NoteReply` | src/boxoffice.cpp:376-487 | the two loops over the subscribers count and clear the replies as specified |
| `Service.BoxOffice.AllReplied` | src/boxoffice.cpp:379-382 | the search with early exit finds out whether every flag is set |
| `Service.BoxOffice.PrepareHeartbeatMessage` | src/boxoffice.cpp:882-936 | the file or stop time that goes with a heartbeat, and what it takes from the queues |
| `Service.BoxOffice.UpdateTimestamp` | src/boxoffice.cpp:947-968 | the sender's clock offset is refreshed and an unknown sender added |
| `Merkle.Binding` | src/hash_tree.cpp:96-106 | with distinct leaves and the same number of levels, equal top hashes mean equal leaves, also across different leaf counts and doubled nodes |
| `Merkle.SameTop` | src/hash_tree.cpp:96-115 | for any two depths: equal top hashes if and only if the leaves of the tree of fewer levels are the level of the other one at that height |
| `Merkle.DepthMatters` | src/hash_tree.cpp:109-115 | so any two leaves have the same top hash as the single leaf that is the hash of both |
| `Merkle.LevelSize` | src/hash_tree.cpp:47-82 | level k holds n / 2^k nodes rounded up, and is the pairwise hash of the one below |
| `Merkle.FlatTree` | src/hash_tree.cpp:42-86 | the vector holds the leaves and above them level by level, each half as long, nodes that are the hash of the hexadecimal forms of the two nodes below, or of the last one twice |
| `Merkle.ThreeLeaves` | src/hash_tree.cpp:72-76 | the top hash over three leaves, with the third one doubled, written out |
| `Merkle.DepthLeast` | src/hash_tree.cpp:26-40 | the number of levels above the leaves is the least d with 2^d >= n, and the last level is the top hash |
| `HashTree.Depth` | src/hash_tree.cpp:26-40 | the depth loop terminates with that d |
| `HashTree.AddLevel` | src/hash_tree.cpp:58-80 | the inner loop appends exactly the next level, with every index in range |
| `HashTree.Build` | src/hash_tree.cpp:42-86 | the flat vector is the concatenation of the levels of the recursive tree, with their lengths beside it; and, without naming that tree, every node of it is the hash of the right two nodes, or of the last one doubled |
| `HashTree.HashTree.MakeHashTree` | src/hash_tree.cpp:15-86 | the object holds the tree over the given hashes, sorted and without neighbours that are the same object |
| `HashTree.UniqueKeeps` | src/hash_tree.cpp:21-24 | distinct objects all stay, whatever their values |
| `HashTree.UniqueMeans` | src/hash_tree.cpp:21-24 | no object is lost, and none stands beside itself |
| `TreeDiff.Canonical` | src/hash_tree.cpp:21-24 | for distinct objects the tree depends only on the values, not on their order |
| `TreeDiff.GetChangedHashes` | src/hash_tree.cpp:117-150 | true exactly when the top hashes differ, and then the sorted duplicate-free symmetric difference of the leaves |
| `TreeDiff.DifferenceMeans` | src/hash_tree.cpp:141-145 | the merge of two sorted lists keeps exactly the values on one side only, in order |
| `TreeDiff.RootCheckExact` | src/hash_tree.cpp:109-115 | with duplicate-free leaves the top hashes agree if and only if the difference is empty or the leaves of one tree are an inner level of the other; at equal depth only the former |
| `Hashes.LessTotal` | include/hash.hpp:62-85 | byte comparison is total and agrees with equality |
| `Hashes.LessTransitive` | include/hash.hpp:62-65 | and transitive |
| `Hashes.LessMeans` | include/hash.hpp:62-65 | the first byte that differs decides |
| `Hashes.HexFaithful` | src/hash.cpp:52-64 | the hexadecimal form is injective and keeps the order |
| `Hashes.PairFaithful` | src/hash_tree.cpp:67-69 | two concatenated digests can be told apart again |
| `Hashes.GetString` | src/hash.cpp:52-64 | the loop over the bytes gives two lower-case hexadecimal digits a byte, the high one first, character by character |
| `Transfer.CopyFile` | src/file.cpp:286-345 | reading package after package and storing each with its own size and offset into a file of the right length reproduces it, in max(1, size / 4096 rounded up) reads |
| `Transfer.PacketLoop` | src/dispatcher.cpp:139-180 | the packets of the dispatcher's loop as written: right offsets and data, sizes added up, a header on the first one only |
| `Transfer.LoopExact` | src/dispatcher.cpp:139-180 | every packet has a header and as much data as it claims if and only if the file fits into one |
| `Transfer.File.ReadFileData` | src/file.cpp:286-315 | what one read yields, and whether there is more |
| `Transfer.File.StoreFileData` | src/file.cpp:323-345 | what one write leaves in the file |
| `Transfer.WholeFile` | src/file.cpp:323-345 | a file in one packet replaces the content exactly if the file was not longer before |
| `FileStore.WrittenAt` | src/file.cpp:332-342 | byte by byte what a write at an offset leaves: the data, the old content elsewhere, zero in a gap |
| `FileStore.ResizedAt` | src/file.cpp:255-263 | byte by byte what a resize leaves: the old content, then zero |
| `Content.SessionContent` | src/boxoffice.cpp:508-549 | from record to data, with any other messages in between: exactly the sent bytes if and only if the file was to be resized or had no longer version |
| `Content.MetadataContent` | src/boxoffice.cpp:558-629 | one metadata record removes the file or keeps its bytes and adds zeros; it gets the size of the record if and only if none was written since the last reset or the size is right already; no other file changes |
| `Content.PacketContent` | src/boxoffice.cpp:791-828 | byte by byte what one data packet leaves in the file, in any state that takes one |
| `Content.DiskUntouched` | src/boxoffice.cpp:353-846 | no message but a record or data changes any file |
| `Content.RecordTakesEffect` | src/boxoffice.cpp:558-589 | over any run, for any messages, a 170 record read in the receiving state leaves the file gone or of its size |
| `Content.WrittenExact` | src/boxoffice.cpp:388-583 | exactly which messages make the next record be resized again |
| `Content.WrittenRun` | src/boxoffice.cpp:388-583 | over a run without these, no further record is resized |
| `Codec.RoundTripExact` | src/file.cpp:369-463 | for permission modes a record is restored if and only if the high byte of the mode is not white space |
| `Codec.RoundTrip` | src/file.cpp:406-463 | then all fields come back and all bytes are consumed, but for eight zero bytes after a record that is not of a regular file |
| `Codec.DeletedExact` | src/file.cpp:377-428 | a deletion notice is recognised exactly when white space or the end of the stream follows |
| `Codec.Layout` | src/file.cpp:369-404 | the bytes written, literally: 128 of path, then the text IN_DELETE, or mode, type, time and size with the most significant byte first, and no size for anything but type 2 |
| `Codec.ReadsDeletion` | src/file.cpp:417-428 | those nine bytes are read as a deletion before white space or the end |
| `Codec.ReadsFields` | src/file.cpp:430-463 | the bytes of another record are read as those numbers |
| `Codec.HalfHash` | src/boxoffice.cpp:531-531 | after cutting 32 bytes the path that is read is half of the hash and a cut path; it is the right one if and only if the path is that half four times over |
| `Codec.CutExact` | src/boxoffice.cpp:531-531 | the whole record comes back after the cut if and only if, besides, that half goes on like the fields of the record, white space aside |
| `Codec.CutKindless` | src/boxoffice.cpp:717-717 | for a path of at most 96 characters the rest always parses, as a file of kind 0 without mode that is not deleted |
| `Streams.OutStream.WriteFile` | src/file.cpp:369-404 | the stream gets the hash and then exactly the encoded record |
| `Streams.InStream.ReadFile` | src/file.cpp:406-463 | reading through the stream, with its position and token look-ahead, is the decoding function |
| `Dispatcher.Dispatcher.SynchronizingStop` | src/dispatcher.cpp:230-276 | the loop stops at the first silent poll at which a stop is due, under wrapping subtraction |
| `Dispatcher.Dispatcher.Session` | src/dispatcher.cpp:92-96 | a session ends at the first poll that is an interrupt, or silent while a stop of this or an earlier session is due; so no later than a silent poll at most 1000000 ms after a stop time delivered in it |
| `Dispatcher.StopSafe` | src/dispatcher.cpp:230-276 | with realistic clocks, and whatever earlier sessions left behind, that is exactly a silent poll after a 155 delivered in this session, from its stop time on and within the window |
| `Dispatcher.DueMeans` | src/dispatcher.cpp:259-259 | what the unsigned test means for any two times: up to 1000000 ms after, or a wrap |
| `Dispatcher.DeliveredLast` | src/dispatcher.cpp:245-252 | the stop time in force is the one delivered last |
| `Dispatcher.StaleStop` | src/dispatcher.cpp:252-259 | exactly when a stop left over from before ends a session in which none was delivered |
| `Dispatcher.SkewExact` | src/boxoffice.cpp:960-964 | the 16-bit clock offset is exact if and only if the difference fits |
| `Dispatcher.SkewWraps` | src/boxoffice.cpp:960-964 | otherwise it is the number of 16 bits that agrees modulo 65536 |
| `Dispatcher.StartWindow` | src/boxoffice.cpp:694-703 | the start that a step hands to the dispatcher lies in [now + 3000 - skew, now + 5999 - skew], with the skew of the reply that ends the round |
| `Dispatcher.StopWindow` | src/boxoffice.cpp:911-919 | the stop time lies in [now + 1000, now + 1999] |
| `Dispatcher.WaitBounded` | src/dispatcher.cpp:92-99 | the dispatcher's subtraction does not wrap if and only if the start is not past; with skew plus elapsed time of at most 3000 ms it never wraps, and the wait is bounded |

## Left out

- Sockets, threads, polling and shutdown: messages are values in channels.
- The byte framing of heartbeats between heartbeater, publisher and subscriber.
- Liveness, and two nodes that announce at the same time: only safety with one lead is claimed.
- The stop time across nodes: a following node's own 155 carries none, so the times need not agree.
- Files of more than one packet in a flock: `DataCommit` says of them only that the last packet was processed, because the dispatcher's loop does not send them properly.
- Copies.CopyExact: the 32-byte cut of the kept record (`src/boxoffice.cpp:531`) is not part of the flock, where the record survives as intended; what the cut does is in `Codec`.
- Commit.DataCommit: the same, and the copy is shown to start with the sent bytes, not to equal them, because a longer old version keeps its tail; `Copies.CopyExact` has the exact condition.
- Several boxes: the model has one, so the hash of the box is not part of a step.
- Directories and other files that are not regular in a flock, permissions and times: a record has a path, a size and a deletion mark; all fields are in `Codec`.
- Codec.RoundTripExact: modes above 0xFFF are not covered, since permissions have twelve bits.
- HashTree.Depth: sizes are unbounded, so the overflow of the 32-bit counters for very many files is not modelled.
- HashTree.DropRepeats: neighbours are compared by object identity given as a number; memory management is not modelled.
- Making a tree from its own nodes, the inverted inline comparison of trees in the header, and the watching of directories.
- Service.BoxOffice.ProcessEvent: where the program would be undefined or throw, the method returns `Fault`.
- Configuration, keys, authentication, and the hash function itself.
