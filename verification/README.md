# Verification of the data transfer prototype

This project models the core of the prototype in Dafny and proves what it promises: a file that is sent in blocks arrives
byte for byte or the transfer does not end well; a relay never mixes up sessions; channels on one connection stay in
order; and the formats underneath can be read back.

`dafny verify dfyconfig.toml` checks the whole project.

## How the model is built

**Block transfer.** `Blocks` is the block arithmetic in 64-bit words. `BlockReader` and `BlockWriter` specify the reader
with its redo queue and the writer with its flags as functions on values; `Storage` has the buffer, the reader and the
writer as objects that are updated in place, proved against these functions. `Transfer` specifies the sender and the
receiver one call at a time; `Endpoints` has them as objects. `SenderRuns` and `ReceiverRuns` look at one side against
any peer. `Link` composes both sides over two FIFO channels under the discipline of the read-write loop: a side stops
when its protocol is done or a call returns an error, the receiver writes whenever it can, the sender may read or write.
A block on the wire may be corrupted at any time as long as its checksum shows it. `LinkSafety` is about every
interleaving, `LinkFailures` about exactly when a step fails, `LinkTermination` about how long a run can be,
`LinkWitnesses` about runs that fail, `LinkCleanRuns` about every interleaving without corruption, `LinkLockStep` about
every pattern of corruption when each message is drained before the next one is sent.

**Automata.** `Automaton` has the transition tables, their compilation into nested maps, and what a transition does;
`Client` has the shared state cell, the state handle and the protocol client as objects. `TransferTables` writes down the
tables of the sender and the receiver and proves that they mean the functions of `Transfer`; `TransferClients` runs
clients that are compiled from them.

**Relay.** `RelayTables` has the session identifiers and the two tables of the session loop, as values and as an object.
`RelayFlow` is one relay: the chunks it has read and how much of each it has written. `Relay` is the server as a state
machine over the steps of its goroutines, `RelaySafety` what holds in every state it can reach, and `RelayProgress` that
sessions can be set up from every such state.

**Sessions and framing.** `Mux` has the channel identifiers and the broker; `Session` two sessions on the ends of one
connection as a state machine; `SessionSafety` what holds in every state they can reach; `SessionProgress` that channels
can be opened and used. `Packet` is the length-prefixed format and `Payload` the size bound for channel messages.

`Runs` and `Counting` hold runs of state machines and counting in sequences.

Checksums, the writer factory of the receiver and the decoding of payloads are function parameters, so the results hold
for all of them. Where a proof needs the factory to return storage of the size it was asked for, that is the predicate
`Honest`.

## What turned out differently than one might expect

- When messages are pipelined, a corrupted block may end the transfer although it could be repaired. There are four
  guards that do it, and no others (`LinkFailures.FailsIff`): the end is announced while a block is missing
  (`LinkWitnesses.HastyEnd`), a block is sent that is written already (`LinkWitnesses.BlockAgain`), a block is asked for
  that is queued or acknowledged already (`LinkWitnesses.DuplicateRedo`, `LinkWitnesses.RedoForAcked`), and the end is
  confirmed while the sender is sending again (`LinkWitnesses.EndTooEarly`). Most of them come from the receiver asking
  for a corrupted block twice, the second time as part of a gap. This is why the guarantee of delivery in spite of
  corruption is about lock-step runs, while safety, freedom from deadlock and termination are about all runs.
- The two relays of a session share one error variable, so that one can clear the error of the other: then bytes are
  skipped (`RelayProgress.SharedErrorSkips`). Bytes never change their order or their session, and none are skipped
  exactly if no write takes a byte behind a short one (`RelaySafety.BytesStayInSession`, `RelayFlow.PrefixIff`).
- An accepted channel may still lose its first messages, although the protocol file promises that they will reach the
  peer (`proto/session/session.proto`, message `Accept`): at the accepting end (`SessionProgress.AcceptedDataLost`) and
  at the opening end (`SessionProgress.AcceptorDataLost`). `SessionSafety.NothingLostIff` says exactly when nothing is
  lost, and `SessionSafety.SafeOnceHeard` from when on an end can rely on it.
- An index whose offset wraps around overruns the flags of the writer (`BlockWriter.PanicIff`, `ReceiverRuns.ReadKeeps`),
  an index past the last block those of the sender (`SenderRuns.ReadKeeps`). No other message of a peer overruns the
  flags of either side; that a header can name more blocks or bytes than can be allocated is not modelled.
- The end of a file is missed exactly when the offset after its last block wraps (`Blocks.EndSeenIff`).
- `CanWrite` may be true with nothing to write where a table has a key without transitions (`Client.Client.CanWrite`);
  the tables of the transfer have no such key.

## Model

| member | source | states |
|---|---|---|
| `Blocks.NoWrap` | lib/session/transfer/block/block.go:10-19 | Up to and including the index after the last block, no offset wraps around in 64 bits, for every size below 2^63 and for every size with size + block size at most 2^64. |
| `Blocks.InFileIff` | lib/session/transfer/block/block.go:10-19 | As long as the product fits in a word, an index is below the block count if and only if its offset lies in the file. |
| `Blocks.BlockRange` | lib/session/transfer/block/block.go:10-33 | For every 64-bit size and block size: each block is non-empty, ends where the next one starts or at the end of the file, and only the last one may be short. |
| `Blocks.RangesDisjoint` | lib/session/transfer/block/block.go:17-33 | Two different blocks never overlap. |
| `Blocks.IndexOwnsByte` | lib/session/transfer/block/block.go:21-33 | `Index` sends every byte of the file to the block whose range holds it. |
| `Blocks.IndexOfOffset` | lib/session/transfer/block/block.go:17-25 | `Index` undoes `Offset` on every block of the file. |
| `Blocks.AmountsTile` | lib/session/transfer/block/block.go:10-33 | The amounts of the first k blocks add up to k block sizes, and all of them to the size. |
| `Blocks.EndSeenIff` | lib/session/transfer/block/reader.go:65-68 | On full 64-bit inputs the end of the file is recognised if and only if the offset after the last block fits in a word. |
| `Blocks.EndMissed` | lib/session/transfer/block/block.go:17-19 | A size and block size for which it is not: the offset after the last block is 0 again. |
| `Blocks.RangesDetermine` | lib/session/transfer/block/block.go:27-33 | Two files of one size that agree on every block range are equal. |
| `BlockReader.DoneIff` | lib/session/transfer/block/reader.go:65-68 | `IsDone` holds if and only if nothing is queued again and all blocks were served, that is, the work list is empty. |
| `BlockReader.NextServesHead` | lib/session/transfer/block/reader.go:74-96 | `NextBlock` serves exactly the head of the work list (redos first, in order, then fresh blocks), with the file's own bytes and checksum, and reports the end only when the list is empty. |
| `BlockReader.RedoQueuesOnce` | lib/session/transfer/block/reader.go:98-112 | For every index, also one whose offset wraps: a redo is accepted if and only if the block was served and is not queued; it goes behind the earlier redos and before every fresh block; each refusal has its exact cause and changes nothing. |
| `BlockReader.RunConserves` | lib/session/transfer/block/reader.go:74-112 | Over every sequence of calls with any indices: what was served and what is left is, counted per index, what was to be served at first plus the accepted redos; the state stays valid and every served block is the file's slice. |
| `BlockReader.DoneServedAll` | lib/session/transfer/block/reader.go:65-112 | From a fresh reader, once it is done every index was served exactly once plus once per accepted redo. |
| `BlockWriter.NewWriterValid` | lib/session/transfer/block/writer.go:31-39 | A new writer satisfies the writer's invariant and is done only for an empty file. |
| `BlockWriter.DoneIff` | lib/session/transfer/block/writer.go:57-59 | `IsDone` holds if and only if every block is flagged as written. |
| `BlockWriter.WriteEffect` | lib/session/transfer/block/writer.go:61-99 | For every index: a block is written if and only if it exists, is new, has the right length and carries its checksum; then its range holds its data and every other range is untouched; otherwise nothing changes. |
| `BlockWriter.PanicIff` | lib/session/transfer/block/writer.go:83-93 | The flags are overrun if and only if an index past the last block has an offset that wraps back into the file and data of the length expected there. |
| `BlockWriter.PanicReached` | lib/session/transfer/block/writer.go:83-93 | An index for which that happens. |
| `BlockWriter.RunAccounted` | lib/session/transfer/block/writer.go:57-99 | Over every sequence of blocks, good and bad: the count is the number of flags, the flags are the accepted blocks, each accepted once, each range holds its accepted data or the storage as it was. |
| `BlockWriter.AnyOrder` | lib/session/transfer/block/writer.go:61-77 | The reader's blocks in any order and with any repetitions: a range holds the file's bytes if its block was offered and the storage's otherwise. |
| `BlockWriter.DoneIsCopy` | lib/session/transfer/block/writer.go:57-77 | Then the writer is done if and only if every index was offered, done means that the output is the file, and the output is the file if and only if the storage already agreed on every block that was not offered. |
| `Storage.Buffer.Read` | lib/util/buffer/buffer.go:24-33 | Copies what fits from the cursor, leaves the rest of the target and the cursor alone, and reports the end if and only if it was short. |
| `Storage.Buffer.Write` | lib/util/buffer/buffer.go:35-47 | Overwrites exactly the range at the cursor, or nothing once the buffer is closed. |
| `Storage.Buffer.Seek` | lib/util/buffer/buffer.go:49-58 | Moves the cursor unless the buffer is closed. |
| `Storage.Reader.constructor` | lib/session/transfer/block/reader.go:39-47 | A new reader, with a size of its own that need not be the length of the source, is the fresh reader state. |
| `Storage.Reader.ReadBlock` | lib/session/transfer/block/reader.go:114-164 | Seeking and reading give the file's slice for the index with its checksum if and only if the source is open and has all of these bytes; otherwise the error says which of the two it is. |
| `Storage.Reader.NextBlock` | lib/session/transfer/block/reader.go:74-96 | As long as the head of the work list can be read the object does what the reader's specification says; otherwise it returns the error and stays where it was. |
| `Storage.Reader.RedoBlock` | lib/session/transfer/block/reader.go:98-112 | For every index, the search loop and the append do what the reader's specification says. |
| `Storage.Writer.constructor` | lib/session/transfer/block/writer.go:31-39 | A new writer, with a size of its own that need not be the length of the storage, is the fresh writer state. |
| `Storage.Writer.CheckBlock` | lib/session/transfer/block/writer.go:83-99 | The checks, in the order of the code, give the specified status. |
| `Storage.Writer.WriteBlock` | lib/session/transfer/block/writer.go:61-77 | Checking, seeking, writing in place and counting do what the writer's specification says and touch nothing behind the given size; a closed storage changes nothing. |
| `Storage.CopyAll` | lib/session/transfer/integration_test.go:31-45 | Reading every block of a given size and writing it ends with the writer done, the output equal to the input up to that size, and the rest of the storage untouched. |
| `SenderRuns.NewSenderInv` | lib/session/transfer/sender.go:40-49 | A new sender satisfies the sender's invariant. |
| `SenderRuns.WriteKeeps` | lib/session/transfer/sender.go:61-131 | While the invariant holds, a sender in a writable state always has a message, never panics for lack of data, and keeps the invariant; in any other state it refuses and stays as it is. |
| `SenderRuns.ReadKeeps` | lib/session/transfer/sender.go:132-291 | A read panics if and only if it names a block that does not exist in a state that takes such messages; every accepted message keeps the invariant. |
| `SenderRuns.AnyReceiver` | lib/session/transfer/sender.go:56-293 | Against any receiver that names existing blocks only, in every run: no panic; until an error is returned `receivedCount` is the number of acknowledged blocks, there is data in exactly the sending states, and done means that every block is acknowledged. |
| `SenderRuns.PanicReached` | lib/session/transfer/sender.go:143-158 | A run in which an index past the last block reaches the panic. |
| `ReceiverRuns.WriteKeeps` | lib/session/transfer/receiver.go:71-126 | While the invariant holds, a receiver in a writable state always has a message, also in `handleBlock`, whose redo list is never empty when it is there. |
| `ReceiverRuns.HeaderKeeps` | lib/session/transfer/receiver.go:128-149 | An accepted header leads to a fresh writer; no header panics. |
| `ReceiverRuns.BlockKeeps` | lib/session/transfer/receiver.go:150-195 | Everything below `nextBlockIndex` is written, so the panic about a block that was already written is dead; a block panics if and only if its index is past the last block and its offset wraps back into the file with data of the length expected there; an accepted block keeps the invariant. |
| `ReceiverRuns.ReadKeeps` | lib/session/transfer/receiver.go:127-202 | A read panics if and only if it is such a block while a block is awaited; every accepted message keeps the invariant. |
| `ReceiverRuns.DataSentIff` | lib/session/transfer/receiver.go:196-201 | Between blocks, `DataSent` is accepted if and only if no block is missing. |
| `ReceiverRuns.AnySender` | lib/session/transfer/receiver.go:65-205 | Against any message sequence, in every run: there is a panic if and only if such a block arrives while a block is awaited; until an error is returned the invariant holds and the writer accounts for exactly the accepted blocks. |
| `ReceiverRuns.FinishedWroteAll` | lib/session/transfer/receiver.go:81-126 | Against any message sequence, done without an error means that every block was accepted exactly once with a matching checksum and holds its data. |
| `ReceiverRuns.HastyDataSent` | lib/session/transfer/receiver.go:170-201 | A message sequence in which `DataSent` right behind a corrupted block ends in an error, although the receiver has just asked for the block again. |
| `Endpoints.Sender.constructor` | lib/session/transfer/sender.go:40-49 | A new sender object is the specified start state. |
| `Endpoints.Sender.WriteMessage` | lib/session/transfer/sender.go:61-131 | The object does what the sender's write function says and keeps its invariant; a source that cannot be read changes nothing. |
| `Endpoints.Sender.ReadMessage` | lib/session/transfer/sender.go:132-291 | The object does what the sender's read function says and keeps its invariant while no error is returned. |
| `Endpoints.Sender.Requeue` | lib/session/transfer/sender.go:196-271 | A redo request does what the specification says, refusals included. |
| `Endpoints.Receiver.constructor` | lib/session/transfer/receiver.go:52-63 | A new receiver object is the specified start state. |
| `Endpoints.Receiver.WriteMessage` | lib/session/transfer/receiver.go:71-126 | The object does what the receiver's write function says and keeps its invariant. |
| `Endpoints.Receiver.ReadMessage` | lib/session/transfer/receiver.go:127-202 | The object does what the receiver's read function says and keeps its invariant while no error is returned. |
| `Endpoints.Receiver.Accept` | lib/session/transfer/receiver.go:128-149 | The header checks in order, and a writer over the storage that the factory made. |
| `Endpoints.Receiver.Take` | lib/session/transfer/receiver.go:150-195 | Writing a block, or asking for it or for the gap before it, loop included, does what the specification says. |
| `LinkSafety.EveryRun` | lib/protocol/loop.go:50-88 | The invariant of the composed system holds after every run of sender and receiver over two FIFO channels, each following the read-write loop, with any detected corruption. |
| `LinkSafety.SafeTransfer` | lib/session/transfer/sender.go:143-282 | In every interleaving, with any corruption that the checksum shows, also after a side has returned an error: nobody panics; every acknowledgement, recorded or in flight, is for a written block; each block is acknowledged at most once in the whole run; a side that is done without an error means that the output equals the input byte for byte. |
| `LinkSafety.DataSentIff` | lib/session/transfer/receiver.go:196-201 | In every run, `DataSent` is taken if and only if no block is missing when it is read. |
| `LinkFailures.EverySoundRun` | lib/session/transfer/sender.go:132-291 | In every run messages arrive in the order of the protocol (header first, acknowledgement before anything else, ends last) and name only blocks that were sent, on top of the invariant above. |
| `LinkFailures.FailsIff` | lib/session/transfer/receiver.go:150-201 | In every run and for every step, exactly when a call returns an error: writing never does; the receiver does if and only if it cannot get a storage, is sent a block that it has written, or is told the end while a block is missing; the sender if and only if it is asked again for a block that is acknowledged or queued, or is told the end while it does not wait for it. |
| `LinkFailures.NeverStuck` | lib/protocol/loop.go:50-88 | In every run, until a side has returned an error or both are done, some step other than a corruption is enabled. |
| `LinkTermination.EveryRunEnds` | lib/protocol/loop.go:50-88 | Every run over n blocks with c corruptions has at most 6n^2 + 2n + 16 + 6c steps of the two sides; when neither side can move any more, one has returned an error or both are done and the file is delivered. |
| `LinkWitnesses.DuplicateRedo` | lib/session/transfer/receiver.go:180-190 | For every file of at least two blocks, a run in which one corrupted block makes the sender fail before any `DataSent` is written: the block is asked for again, and once more as the gap before the next one. |
| `LinkWitnesses.HastyEnd` | lib/session/transfer/sender.go:115-131 | For every file of one block, a run in which `DataSent` overtakes the repair of the corrupted block. |
| `LinkWitnesses.BlockAgain` | lib/session/transfer/receiver.go:150-169 | For every file of at least two blocks, a run in which the receiver is sent a block that it has written, and fails. |
| `LinkWitnesses.EndTooEarly` | lib/session/transfer/sender.go:273-291 | For every file of two blocks, a run in which the receiver is done and has the file, while the sender fails on the message that says so. |
| `LinkWitnesses.RedoForAcked` | lib/session/transfer/sender.go:196-271 | For every file of at least three blocks, a run in which the sender is asked again for a block that was acknowledged, and fails. |
| `LinkCleanRuns.StateIsTally` | lib/session/transfer/receiver.go:71-202 | Without corruption the whole state after any schedule is determined by how often each side has written and read. |
| `LinkCleanRuns.NoErrors` | lib/protocol/loop.go:50-88 | Without corruption no schedule returns an error or panics, and every step lowers the measure (messages to send twice, messages in flight once) by one, from 4(n+2) down to at least 0. |
| `LinkCleanRuns.NoDeadlock` | lib/protocol/loop.go:50-88 | Without corruption some step is enabled until both sides are done. |
| `LinkCleanRuns.CompleteRun` | lib/session/transfer/sender.go:61-131 | A run without corruption is complete if and only if it took 4(n+2) steps; then it carried exactly n+2 given messages in each direction, in a given order, left nothing in flight and delivered the file. |
| `LinkLockStep.EveryTidyRun` | lib/session/transfer/receiver.go:81-107 | In lock-step, after any pattern of corruption, the run is at one of twelve kinds of spots that fix the whole state. |
| `LinkLockStep.CanMove` | lib/protocol/loop.go:50-88 | At every spot but the last some step of the lock-step schedule is enabled. |
| `LinkLockStep.LockStepDelivers` | lib/session/transfer/sender.go:196-245 | In lock-step, whatever blocks are corrupted, also the last one: no call fails, the run is complete if and only if it took 4(n+2+c) steps for c corruptions, never more; then the output is the input, with exactly one extra block and one redo request per corruption. |
| `Automaton.CompileTransition` | lib/automaton/transition.go:20-45 | A transition is compiled into one entry for each of its triggering states; it is refused only for a flaw of its own or because the table is ambiguous. |
| `Automaton.CompileKey` | lib/automaton/automaton.go:44-70 | The transitions under a key are compiled if and only if they are well-formed and unambiguous; an error names a flaw that is there. |
| `Automaton.Compile` | lib/automaton/automaton.go:42-78 | Compilation succeeds if and only if the table is well-formed, in whatever order the keys are visited; the maps hold exactly what the table declares; an error names a flaw that is there. |
| `Automaton.OneFires` | lib/automaton/automaton.go:61-66 | In a well-formed table a state triggers at most one transition under a key. |
| `Automaton.CompiledMeansTable` | lib/automaton/automaton.go:80-90 | The compiled maps and the direct reading of the table give the same outcome for every key, state, data and input, errors and panics included. |
| `Automaton.RunsAgree` | lib/automaton/automaton.go:80-90 | The same over every run: states, data, outputs and errors all agree. |
| `Automaton.WhereItLeads` | lib/automaton/transition.go:43-59 | A transition that fires leads to `To` if that is given, to a member of `Ok` if `Ok` is given and no error is returned, and otherwise leaves the state. |
| `Automaton.CallsEffect` | lib/automaton/state.go:65-141 | Whatever a handler calls on its state handle, the state is changed at most once and then to an allowed target. |
| `Client.StateHandle.Set` | lib/automaton/state.go:65-71 | Sets the shared state once and only to a target; otherwise the specified panic, and nothing changes. |
| `Client.StateHandle.Is` | lib/automaton/state.go:81-90 | Answers about a possible state that was not changed yet; otherwise the specified panic. |
| `Client.Invoke` | lib/automaton/transition.go:43-59 | The compiled closure, on the shared cell and a state handle, has the outcome that the specification gives. |
| `Client.NewClient` | lib/protocol/client.go:89-119 | A client is built if and only if both states are given, both tables are well-formed and every write key is a state; it then follows the two tables. |
| `Client.Client.WriteMessage` | lib/protocol/client.go:123-135 | Through the compiled maps, the client does what reading the write table directly says, a handler that leaves no message included. |
| `Client.Client.ReadMessage` | lib/protocol/client.go:139-149 | Through the compiled maps, the client does what reading the read table directly says. |
| `Client.Client.CanWrite` | lib/protocol/client.go:152-155 | If it is false there is nothing to write; if it is true there is nothing to write only where the key has no transition. |
| `Client.Client.MustWrite` | lib/protocol/client.go:159-161 | True if and only if the client writes first and can write; while it is true a client whose tables keep the promise of `WriteFirst` would refuse every message. |
| `Client.NothingToWriteIff` | lib/protocol/client.go:123-135 | Nothing to write is reported if and only if the state is no key or its key has no transition. |
| `Client.UnexpectedIff` | lib/protocol/client.go:139-149 | A message is unexpected if and only if no transition under its type is triggered by the state. |
| `TransferTables.SenderWritesMean` | lib/session/transfer/sender.go:61-131 | The sender's write table, read through the client, is the sender's write function, for every state. |
| `TransferTables.SenderReadsMean` | lib/session/transfer/sender.go:132-291 | The sender's read table, read through the client, is the sender's read function, for every state and message. |
| `TransferTables.SenderWritesCompile` | lib/session/transfer/sender.go:61-131 | The sender's write table is well-formed, and wherever it can write there is a transition. |
| `TransferTables.SenderReadsCompile` | lib/session/transfer/sender.go:132-291 | The sender's read table is well-formed. |
| `TransferTables.ReceiverWritesMean` | lib/session/transfer/receiver.go:71-126 | The receiver's write table, read through the client, is the receiver's write function, for every state. |
| `TransferTables.ReceiverReadsMean` | lib/session/transfer/receiver.go:127-202 | The receiver's read table, read through the client, is the receiver's read function, for every state and message. |
| `TransferTables.ReceiverTablesCompile` | lib/session/transfer/receiver.go:65-205 | The receiver's tables are well-formed, and wherever it can write there is a transition. |
| `TransferTables.ReceiverWritesFirst` | lib/protocol/definition.go:13-20 | The receiver keeps the promise of `WriteFirst`: in a state that triggers a write it refuses every message. |
| `TransferClients.RunSender` | lib/session/transfer/sender.go:51-293 | A client compiled from the sender's tables gives, for every run of reads and writes, exactly the outputs of the sender of `Transfer`. |
| `TransferClients.RunReceiver` | lib/session/transfer/receiver.go:52-205 | A client compiled from the receiver's tables gives, for every run of reads and writes, exactly the outputs of the receiver of `Transfer`. |
| `RelayTables.IdentifierIff` | lib/relay/protocol_server.go:38-45 | Two pairs of identities share a session identifier if and only if they run together to the same bytes. |
| `RelayTables.IdentifierInjective` | lib/relay/protocol_server.go:38-45 | With second identities of one length the identifier is injective, whatever the first ones are. |
| `RelayTables.IdentifierOrdered` | lib/relay/protocol_server.go:36-45 | For identities of one length the order matters: swapping gives the same identifier only for equal ones. |
| `RelayTables.IdentifierShared` | lib/relay/protocol_server.go:38-45 | Without a fixed length two different pairs share an identifier. |
| `RelayTables.KeysAreDisjointUnion` | lib/relay/protocol_server.go:171-243 | In a consistent state the key table is the disjoint union of the two keys of each session. |
| `RelayTables.OpenKeeps` | lib/relay/protocol_server.go:176-200 | Opening a session with fresh keys keeps the tables consistent, also when the session exists. |
| `RelayTables.AcceptKeeps` | lib/relay/protocol_server.go:201-221 | Accepting keeps the tables consistent. |
| `RelayTables.AcceptIff` | lib/relay/protocol_server.go:201-221 | An accept succeeds if and only if there is an open session of that initiator whose target is the accepting client and that was not accepted before. |
| `RelayTables.DeleteKeeps` | lib/relay/protocol_server.go:222-230 | Deleting a session removes exactly its two keys and keeps the tables consistent. |
| `RelayTables.SessionTable.NewSession` | lib/relay/protocol_server.go:176-200 | The update in place does what the specification says and keeps the tables consistent. |
| `RelayTables.SessionTable.Accept` | lib/relay/protocol_server.go:201-221 | The update in place does what the specification says and keeps the tables consistent. |
| `RelayTables.SessionTable.Delete` | lib/relay/protocol_server.go:222-230 | Panics if and only if there is no such session; otherwise removes it with its keys, one after the other. |
| `RelayTables.SessionTable.Channel` | lib/relay/protocol_server.go:231-238 | A key leads to the side of the session that has it, and to nothing if and only if no session has it. |
| `RelayFlow.OriginsExact` | lib/relay/protocol_server.go:401-426 | Each byte that a relay has written is the byte that it read at its origin, and origins only increase. |
| `RelayFlow.PrefixIff` | lib/relay/protocol_server.go:401-426 | The origins are 0, 1, 2 and so on without a gap if and only if no write takes a byte behind one that was short. |
| `RelayFlow.QuitsPrefix` | lib/relay/protocol_server.go:401-426 | In that case the bytes written are a prefix of the bytes read. |
| `RelayFlow.CopyLoop` | lib/relay/protocol_server.go:401-426 | The loop with its one buffer, whatever the shared error is when it looks: it reads and writes what its turns move up to the first one that ends it, and writes a prefix of what it reads unless a write goes on behind a short one. |
| `RelaySafety.EveryRun` | lib/relay/protocol_server.go:128-442 | The invariant of the server holds after every interleaving of clients, tables, session handlers, connections and relays, where the two relays of a session write and check one shared error. |
| `RelaySafety.KeyTableExact` | lib/relay/protocol_server.go:171-243 | In every reachable state the key table is the disjoint union of the two keys of each live session, each key leads to its own session, and each session to a handler that has not deleted it. |
| `RelaySafety.DeletesNeverPanic` | lib/relay/protocol_server.go:245-251 | In every reachable state and after every further step: both panics about deleting what does not exist are dead; at most one handler that has not deleted its session per identifier, at most one client that has not left per identity. |
| `RelaySafety.BytesStayInSession` | lib/relay/protocol_server.go:361-442 | In every run, a connection through which a byte has passed sits in a session that its own target accepted exactly once, with the connection of the other key opposite; what was written to each are bytes read from the other, in order, each chunk from its start; they are the first bytes read, without a gap, if and only if no write takes a byte behind a short one; no other connection with either key has passed a byte. |
| `RelaySafety.RelaysAreAccepted` | lib/relay/protocol_server.go:393-431 | In every reachable state a relay starts only after both keys have connected and the target has accepted once, so it always has both connections; the two keys were told to clients with the identities of the initiator and of the target. |
| `RelayProgress.SessionsWork` | lib/relay/protocol_server.go:292-442 | From every reachable state, two clients that are being served and have no session can set one up with fresh keys, connect with both keys and send a chunk each way; each side then has what the other one sent. |
| `RelayProgress.SharedErrorSkips` | lib/relay/protocol_server.go:382-431 | From every reachable state in which a session can be set up, a run in which what was written to a connection is no prefix of what was read from the other one: one relay clears the error of the other. |
| `Mux.SameIdIff` | lib/session/channel.go:72-90 | Two made identifiers coincide if and only if the same side made them a multiple of 2^63 calls apart. |
| `Mux.ZeroIdIff` | lib/session/channel.go:72-90 | Zero is made only by the side that did not initiate, at the end of a turn of the counter. |
| `Mux.ChannelFactory.constructor` | lib/session/channel.go:72-81 | The counter starts at the first identifier of its side. |
| `Mux.ChannelFactory.CreateChannelHandle` | lib/session/channel.go:83-90 | After k calls the next one gives the k-th identifier, in 64-bit arithmetic. |
| `Mux.BrokerLoop.OnRegister` | lib/session/session.go:206-210 | Keeps the order of every channel: what was read and what is queued are, in order, the decodable messages for it since it was registered. Panics if and only if the channel exists; otherwise the channel gets every message from here on. |
| `Mux.BrokerLoop.OnData` | lib/session/session.go:211-231 | Keeps the same order on every channel for any message, also one that cannot be decoded or is for no channel. |
| `Mux.BrokerLoop.OnRead` | lib/session/session.go:366-373 | Returns the next of these messages and keeps the same order on every channel. |
| `Mux.OpenAnswersWait` | lib/session/session.go:165-185 | An open message for a new channel goes to the task that waits and leaves the broker as it was before the wait. |
| `Mux.AcceptAnswersWait` | lib/session/session.go:186-205 | An accept message goes to the task that waits for its channel and leaves the broker as it was before the wait. |
| `Mux.ChannelQueue.Handler` | lib/session/session.go:328-351 | In every run of the loop, what the readers get followed by what is left in the queue is what was queued followed by what came in. |
| `SessionSafety.EveryRun` | lib/session/session.go:119-313 | The invariant of two connected sessions holds after every interleaving of openers, acceptors, readers, writers and the ordered connection. |
| `SessionSafety.NoIdPanics` | lib/session/session.go:186-210 | In every run before the counters wrap around, the three panics about identifiers are dead, and no identifier is zero, repeated or made by both ends. |
| `SessionSafety.ChannelIsFifo` | lib/session/session.go:206-231 | In every run, what the reads of a channel have returned followed by its queue are exactly, in order, the decodable messages for it that were processed since it was registered. |
| `SessionSafety.NothingLostIff` | lib/session/session.go:211-231 | What the peer has written for a channel is delivered, queued or still to come without loss if and only if no decodable message for it was processed before it was registered. |
| `SessionSafety.SafeOnceHeard` | lib/session/session.go:206-231 | Once an end has a message on a channel, queued or delivered, nothing that it writes from then on is lost: at every later time it is, in order and in full, at the end of what the other end has read, queued and still to process. |
| `SessionSafety.NothingIgnored` | lib/session/session.go:172-205 | In every run, an open message that is processed goes to the task that waits for one, if any, and an accept message releases the opener that sent the open message: neither is ever ignored as being about an open channel or one that nobody waits for. |
| `SessionProgress.ChannelsWork` | lib/session/session.go:246-313 | From every reachable state in which nothing is left to process and nobody waits, either end can open a channel that the other one accepts, and a message written on it is read at the other end. |
| `SessionProgress.AcceptedDataLost` | lib/session/session.go:298-310 | From every reachable state in which nothing is left to process and nobody waits, a run in which the message that the opening end writes on its accepted channel is lost, because the accept is written before the channel is registered. |
| `SessionProgress.AcceptorDataLost` | lib/session/session.go:246-275 | The same for the message that the accepting end writes on its registered channel: the opening end processes it between the accept message and its own registration. |
| `Packet.LengthRoundTrip` | lib/packet/length.go:29-43 | Decoding the length bytes gives the length. |
| `Packet.DecodeIff` | lib/packet/packet.go:38-53 | `Decode` gives a packet if and only if the bytes are its frame. |
| `Packet.DecodeFromIff` | lib/packet/packet.go:56-69 | `DecodeFrom` gives a packet and leaves a rest if and only if the stream is the packet's frame followed by that rest. |
| `Packet.TruncatedFails` | lib/packet/packet.go:38-69 | A frame that is cut short anywhere is never taken for a packet. |
| `Packet.SequenceRoundTrip` | lib/packet/packet.go:90-109 | Reading as many packets as were written gives them back and leaves whatever follows; the bytes written are as many as the sizes add up to. |
| `Packet.TruncatedSequence` | lib/packet/packet.go:56-69 | A written list that is cut short anywhere cannot be read in full. |
| `Packet.FramesInjective` | lib/packet/packet.go:90-100 | Two lists are written the same if and only if they are equal. |
| `Packet.WriteTo` | lib/packet/packet.go:23-35 | Succeeds if and only if the packet is at most 65535 bytes and the writer takes all; then the frame was written and counted; on an error the count leaves out a header that was written in part. |
| `Packet.WriteSequence` | lib/packet/packet.go:90-100 | Succeeds if and only if every packet fits and there is room for all; then exactly their frames were written and counted. |
| `Packet.Source.DecodePacket` | lib/packet/packet.go:56-69 | Reading header and data from a stream does what the specification says, a stream that ends too early included. |
| `Payload.VarintSizeIff` | lib/session/channel.go:41-62 | A base-128 varint takes at most k bytes if and only if the number is below 128 to the k. |
| `Payload.PayloadMaxSizeIs` | lib/session/channel.go:41-62 | The computed maximum is 65494 bytes. |
| `Payload.AdmittedFits` | lib/session/channel.go:165-182 | Every admitted payload, for any channel and any message type that is not negative, gives a message that fits the encrypted limit and a packet; the limit is met if and only if the payload, the channel and the type are all of the largest kind. |
| `Payload.BoundIsTight` | lib/secure/conn.go:13-21 | One byte more does not fit with the largest fields. |
| `Payload.NegativeTypeFitsIff` | lib/session/channel.go:165-182 | With a negative message type an admitted payload fits if and only if payload and channel field together take at most 65500 bytes. |

## Left out

- Abort: `Abort` is not implemented in the source and `sendAbort` is never entered; its transitions are in the tables.
- The loop in lib/protocol/loop.go is modelled as when each side may write or read, not as a loop with channels.
- The clients of the relay (lib/relay/client.go, protocol_client.go, protocol_client_session.go) and its TCP and TLS
  listener: socket plumbing.
- Closing the relay or a session, and closing a channel: a run that stops early is a run of the model, so what is proved
  covers them, but that things are closed is not stated.
- Removal of relay sessions that fail before both sides have connected: the source never deletes them.
- Files in a transfer are not empty (the sender panics on an empty one) and smaller than 2^63 bytes (an offset becomes
  signed when seeking); the block arithmetic itself is about all 64-bit sizes.
- Relay keys are assumed to be fresh; random numbers, timeouts as durations, and logging are not modelled.
- Local discovery (lib/local, lib/beacon, lib/network), devices, commands and containers: sockets, timers and tooling.
- Encryption and handshakes (lib/secure, lib/device): only the size constants are used.
- Protobuf encoding of messages: messages are values, and for the payload bound only encoded sizes are modelled.
- The client table of the relay (lib/relay/protocol_server.go:128-169) is a map in the state machine, without an object
  of its own.
- One protocol on all channels: an open message is routed by a constant that is the identifier of the only protocol
  (lib/session/session.go:147), so the table of waiting tasks has one place.
- Two tasks that wait for a channel at the same time make the broker panic; the model stops there, and no claim is made.
- SessionSafety.NoIdPanics: stated before the counters wrap around; after that identifiers repeat, as `Mux.SameIdIff`
  says.
- LinkLockStep.LockStepDelivers: not stated for pipelined runs with corruption, which may end in an error; exactly when
  is `LinkFailures.FailsIff`.
- Allocation: a header with a huge size panics when the flags or the storage are allocated
  (lib/session/transfer/block/writer.go:31-39, cmd/receive/main.go:82); sequences in the model have no bound.
- The shared error of two relays is read and written in single steps; the source has a data race there
  (lib/relay/protocol_server.go:415-416).
- RelayFlow.PrefixIff: about where bytes come from; bytes with gaps may still happen to look like a prefix.
- Storage.Reader.ReadBlock: not stated where an offset lies behind the end of the source, which panics; `NextBlock` never
  gets there.
- Storage.Writer.WriteBlock: not stated where the flags are overrun (`BlockWriter.PanicIff`) or a block does not fit the
  storage; both panic.
- Storage.Buffer.Read: copies are modelled for a target that is not the buffer's own data.
