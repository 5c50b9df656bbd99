# Verified model of libext-go

libext-go is the two ends of an extension protocol. The hub sends numbered commands to an extension over
a stream and matches replies to them; the extension executes the commands and streams output back. This
project models the concurrent parts of both ends and the wire format in Dafny and proves what they promise
over every run.

`dafny verify dfyconfig.toml` checks the whole project.

## How the code is modelled

Concurrent code is a step system: a state, a set of actions, `Enabled(s, a)` saying when an action can
happen and `Do(s, a)` saying what it does. One action is one atomic operation of the Go code: a
compare-and-swap, a `sync.Map` operation, a channel operation, a locked section or a queue operation. A run
is any sequence of enabled actions, for any number of goroutines in any order, and theorems speak about every
run or every reachable state. Go panics (closing a closed channel, sending on one) are part of the state, so
"no panic" is a theorem. Each action is defined field by field (what it does to the goroutine, to the table,
to the queue), which is also how the proofs are organised.

Sequential code that updates an object is a class whose methods are proved against a function of the old
state: the routing table, the buffer pool, encoder and decoder, the peripheral handler.

| file | part of the system |
|---|---|
| `Messages.dfy` | commands, messages, keys |
| `WaitValue.dfy`, `SpinLock.dfy` | the wait value of a pending command: spin lock, closed flag, one-slot channel |
| `Correlator.dfy`, `CorrelatorSafety.dfy` | a hub session: callers, timer, receiver, encoder |
| `NoLostWaiter.dfy`, `DeservedTimeout.dfy`, `Scenarios.dfy` | when a waiter can be lost, and when it can be told "timeout" too early |
| `CallOutcomes.dfy`, `Cancellation.dfy` | what each `sendCmd` call comes to; the end of a session |
| `Wedge.dfy`, `WedgeFree.dfy` | when a session hangs with its receiver holding a wait value |
| `ClientPump.dfy`, `EndToEnd.dfy`, `Correlation.dfy`, `KeyClash.dfy` | client, controller and hub together; when replies are matched correctly |
| `Registration.dfy` | extension names of one manager |
| `Router.dfy` | `Handle` and the routing of new connections |
| `StreamOutput.dfy` | sequence numbers and reassembly of command output |
| `Uvarint.dfy`, `BufferPool.dfy`, `PoolUsers.dfy`, `Framing.dfy` | wire format and recycled buffers |
| `Controller.dfy` | controller sessions, channel bundles and the sends through them |
| `PacketDemux.dfy`, `PacketLoop.dfy` | per-address demultiplexing of datagrams, with their pooled buffers |
| `Peripherals.dfy`, `PeripheralRace.dfy` | the peripheral table |

## Results that hold only under a condition

Some properties are false of the code in general. Each is proved as an equivalence: it holds in every run if
and only if a condition on its inputs or its surroundings holds, with explicit runs for the other direction.

- A caller blocked on its reply can count on its table entry and its timeout if and only if no two awaiting
  commands of the session share `(id, seq)`. Cleanup goes by key: a caller that timed out removes the timeout
  and the entry of a later caller with the same key.
- A caller is told "timeout" only after its own timeout expired, or in a cancelled session, under exactly the
  same condition. An expired timeout is looked up by key some time later and can hit a later caller.
- `sendCmd` returns the handler's answer to its own command if and only if the key of every awaiting command
  differs from `(0, 0)`, which pongs carry, and from the key of every other command that is not a ping.
- A live session hangs, with the receive loop waiting for room in a reply channel and the caller's cleanup
  waiting for the lock the receive loop holds, until it is cancelled. This can happen if and only if the key of
  some awaiting command can be received three times; with the keys of the previous item it cannot happen.
- The controller never closes a channel twice or sends on a closed one if and only if its surroundings keep four
  rules: no handler uses the send function of a session once a refresh has offered the next bundle, no refresh
  offers a bundle while a session is at work, every reply marshals, and the context is not cancelled. A refresh
  while a session handles a command is enough on its own: the session's reply then meets a closed channel. Behind
  this are three finer results over every run: a panic always comes from a send that came after its bundle was
  closed or from a failed session whose bundle was replaced; a send that came in time is safe whatever happens
  later; and a failed session is harmless exactly when the controller was closed before the bundle was replaced.
- The sequence numbers drawn in a run are distinct if and only if at most 2^64 were drawn, and a run that
  draws more is constructed.
- A run of interleaved connects to peripherals panics if and only if a call whose `Connect` yielded nil found its
  id taken and went on to close: a loser of the race closes what it got, also when that is nothing.

## Assumptions about code outside the repository

- Timeout queue: an offered key stays queued until it expires, is removed or the queue is cleared; an offer
  can fail only after cancellation; an expired key is taken once. Expiry is a step that can happen at any time.
- `sync.Map.Range` during cancellation visits every key that stays in the table, and perhaps keys stored meanwhile.
- Pipes: a write to a closed pipe fails; closing twice is harmless. Readers deliver any chunks or stop.
- The connections of one session are FIFO byte streams, so whole messages arrive in order.
- `binary.ReadUvarint` behaves as in Go 1.15, the version in `go.mod`: a size cut short by the end of the
  stream is reported as `io.EOF`.
- Message bodies are an abstract pair of marshal and unmarshal functions; round trips assume they are inverses.

## Model

| member | source | states |
|---|---|---|
| `SpinLock.SpinLockSafety` | server/extension_util.go:46-77 | For any number of threads in `send` and `close`, in every interleaving of their atomic steps: at most one is in the critical section, whoever is about to release holds the lock, nothing panics, the channel is closed at most once with no send after it, the waiter receives what was sent, in order; a finished `close` has closed the channel and a finished `send` has sent, unless the channel was closed or the session cancelled |
| `CorrelatorSafety.NoPanicAndExclusion` | server/extension.go:187-304 | In every reachable state of a session no channel operation has panicked and at most one of caller, timer and receiver is inside a wait value |
| `CorrelatorSafety.TableOwnership` | server/extension.go:186-208 | Also with reused keys: every table entry is the wait value of an in-flight awaiting call with that key; the table is empty when no call is in flight |
| `CorrelatorSafety.DuplicateIsHarmless` | server/extension.go:196-200 | A rejected duplicate changes no entry, no timeout and no other call, and never owns an entry |
| `CallOutcomes.DuplicateIsRejected` | server/extension.go:196-200 | In every run, a call that found its id and sequence number taken when it came to store is being turned away or has ended as a duplicate, its command was never written and it never offered a timeout; a call ends as a duplicate only if it found them taken |
| `CallOutcomes.DuplicateReturns` | server/extension.go:196-200 | For any two awaiting calls with one id and sequence number there is a run in which the second ends as a duplicate |
| `CallOutcomes.ResultTellsWritten` | server/extension.go:209-231 | A call ends without a reply exactly when it does not wait and its command was written; with a reply or a timeout only when it waits and was written; as a duplicate only when it was not written; cancelled only in a cancelled session |
| `Cancellation.NothingAfterCancel` | server/extension.go:314-334 | Every message decoded after the cancellation is dropped, neither delivered nor handled out of band |
| `Cancellation.SweepTellsEveryone` | server/extension.go:252-260 | With unique awaiting keys, whoever had a table entry when the sweep of a cancelled session began has a closed channel when it is over |
| `Cancellation.ReceiverStopsIff` | server/extension.go:314-334 | The receive loop has stopped exactly when decoding ended or it found the session cancelled with a message in hand |
| `Cancellation.TimerStopsIff` | server/extension.go:233-260 | The timer goroutine has stopped exactly when its sweep was over, and the queue is empty then |
| `CorrelatorSafety.Disposition` | server/extension.go:285-334 | Decoded messages are, in order, the settled ones plus the one in hand; each has one fate: out of band when no table entry had its key at the lookup, delivered to a waiter whose command has its id and sequence number, dropped at a closed waiter, or dropped on cancellation |
| `CorrelatorSafety.FirstDeliveryIsReturned` | server/extension.go:216-228 | A finished wait returns the first message ever delivered to it; a timeout means nothing was delivered; a buffered reply beats the timeout unless the session is cancelled |
| `NoLostWaiter.UniqueKeysSuffice` | server/extension.go:187-281 | With unique awaiting keys, in every reachable live state a caller blocked on an open empty channel has its table entry and a timeout that is queued, expired or being handled |
| `NoLostWaiter.LiveWaiterIsFound` | server/extension.go:285-304 | With unique awaiting keys, the lookup of a reply whose caller waits on an open channel finds exactly that caller, never goes out of band |
| `NoLostWaiter.ReplyGoesToItsCaller` | server/extension.go:285-334 | In every continuation of the run after such a lookup, the reply is being sent to that caller, or its next fate in the log is delivery there, or a drop because that wait value was closed or the session cancelled |
| `NoLostWaiter.ReuseLosesWaiter` | server/extension.go:202-207 | For any two awaiting calls with one key there is a run of a live session that leaves the second blocked with no entry and no timeout |
| `NoLostWaiter.NoLostWaiterIffUniqueKeys` | server/extension.go:187-281 | No reachable state loses a waiter if and only if awaiting keys are unique |
| `DeservedTimeout.UniqueKeysDeserve` | server/extension.go:201-268 | With unique awaiting keys a call ends in a timeout only if a timeout with its key expired after it offered its own, or the session was cancelled |
| `DeservedTimeout.ReuseTimesOutEarly` | server/extension.go:262-268 | For any two awaiting calls with one key there is a run of a live session in which the second is told "timeout" although only the timeout of the first expired |
| `DeservedTimeout.DeservedIffUniqueKeys` | server/extension.go:201-281 | In every reachable state all timeouts are deserved if and only if awaiting keys are unique |
| `Wedge.WedgedForGood` | server/extension_util.go:46-69 | Once the receive loop waits for room in the reply channel of a call that has left its wait, then in every continuation without cancellation it still does, the call has not returned and nothing more is received |
| `Wedge.WedgeTakesThree` | server/extension.go:216-304 | In that state at least three messages with the key of the call were received: one taken, one buffered, one in hand |
| `Wedge.WedgeIff` | server/extension_util.go:59-69 | For any bound on how often each key is received, a run within the bound reaches that state if and only if the bound of some awaiting key is at least three |
| `ClientPump.PumpSafety` | client.go:146-210 | Commands handed on are an in-order prefix of the decoded non-ping commands, short of at most one; pongs never outnumber pings; both channels are closed at most once, after their last send, and are closed once the reader is gone |
| `ClientPump.MessagesInOrder` | client.go:176-210 | The messages written are, in order, a prefix of those the controller put into the message channel; what is missing is in the hands of the writer, in the channel, or at most one was lost by a writer that failed |
| `ClientPump.EndsForAReason` | client.go:146-210 | The reader leaves exactly when decoding fails or it is cancelled with something in hand; the writer exactly when encoding fails or it is told to stop by cancellation or a closed channel; each channel is closed exactly when its owner closed it |
| `Correlation.ExecutedInOrder` | controller.go:110-132 | Answered commands are, in order, a prefix of the non-ping commands written by the hub, each call's at most once |
| `Correlation.AnswersAccounted` | controller.go:90-131 | Every answer of the handler is sent once or dropped once, unless the controller still has it in hand; it is dropped only when the message channel was closed or the pump cancelled |
| `Correlation.GoodKeysSuffice` | server/extension.go:187-231 | With good keys, in every run of hub, client and controller each reply `sendCmd` returns is the handler's answer to that same call |
| `KeyClash.PongClash` | client.go:157-166 | For any awaiting command with key (0, 0) there is a run in which it returns a keepalive pong that no command asked for |
| `KeyClash.AnswerClash` | server/extension.go:285-304 | For any awaiting command that shares its key with another non-ping command there is a run in which it returns the answer to the other |
| `KeyClash.CorrelatedIffWellKeyed` | server/extension.go:187-304 | Every reply in every run answers its own command if and only if the keys are good |
| `WedgeFree.GoodKeysArriveOnce` | client.go:154-210 | With good keys, in every run of hub, client and controller at most one message with the key of an awaiting command reaches the hub |
| `WedgeFree.GoodKeysDoNotWedge` | server/extension_util.go:59-69 | With good keys, no run of hub, client and controller reaches the hanging state |
| `Registration.RegistrationExclusive` | server/extension.go:126-153 | In every interleaving of `HandleStream` calls at most one session per name is live and the registered set is exactly the names of live sessions |
| `Registration.RejectedIffIncumbent` | server/extension.go:130-140 | A registration is rejected exactly when the name has a live session, which stays live and registered |
| `Router.EffectiveIsPrefix` | server/server.go:170-178 | The names that take effect are the prefix before the first empty name |
| `Router.Server.InstallNames` | server/server.go:170-178 | The loop installs the manager under exactly the effective names and leaves all else |
| `Router.Server.CollectKind` | server/server.go:182-192 | Collects exactly the keys of the kind |
| `Router.Server.RemoveAll` | server/server.go:194-196 | Removes exactly the given keys |
| `Router.Server.InstallWildcard` | server/server.go:180-202 | Erases every name of the kind, installs its wildcard, leaves other kinds alone |
| `Router.Server.Handle` | server/server.go:165-203 | The table stays what replaying the history of `Handle` calls gives, with this call added, for named, partly empty and wildcard calls |
| `Router.Server.HandleNewConn` | server/server.go:212-231 | With any `Handle` calls of others between its two locked lookups, a new connection goes to the manager that the history prescribes at some instant of the call: the latest call naming it after the last wildcard of its kind, else that wildcard, else none |
| `Router.RoutingHistory` | server/server.go:165-231 | After any history of `Handle` calls an extension is routed to the latest call naming it after the kind's last wildcard, otherwise to that wildcard, otherwise nowhere |
| `Router.LinearizableRouting` | server/server.go:212-231 | With any `Handle` calls between the two locked lookups, the outcome is that of one atomic lookup at some instant between them |
| `Router.EndsDoNotSuffice` | server/server.go:212-231 | That instant can be strictly inside: a history where neither end gives the outcome |
| `StreamOutput.TicketCounter` | extruntime/handler_stream.go:219-226 | In every run of any number of threads, the terminal draw included, the i-th successful `nextSeq` returned i modulo 2^64 |
| `StreamOutput.DrawLoop` | extruntime/handler_stream.go:219-226 | A thread inside the loop: its guess is the loaded value plus its failures and has not overtaken the counter, no draw since its load is its own, it failed at most once for each of them, and the number it leaves with is the one recorded for it |
| `StreamOutput.TicketsDistinctIff` | extruntime/handler_stream.go:219-226 | The numbers drawn in a run are pairwise distinct if and only if at most 2^64 were drawn |
| `StreamOutput.WrapRepeats` | extruntime/handler_stream.go:219-226 | For any set of uploaders that is not empty there is a run that draws 2^64 + 1 numbers and repeats the first |
| `StreamOutput.Reassembly` | extruntime/handler_stream.go:149-183 | For every interleaving of the uploaders, sorting the wire by ack and keeping one kind gives that stream's sent chunks in read order, which miss at most the last chunk read; every payload has memory of its own, so reuse of the read buffer does not change it |
| `StreamOutput.CompleteStream` | extruntime/handler_stream.go:46-79 | When all sends succeeded the data acks are exactly 0..n-1; the terminal message comes after all uploaders stopped, has ack n and sorts last; it is an error report with the marshalled error if the command failed, and an empty data message if not |
| `StreamOutput.StoppedIff` | extruntime/handler_stream.go:149-183 | An uploader has stopped exactly when its reading ended or a send failed |
| `Uvarint.EncodedLength` | codec/gogoprotobuf/codec.go:112-113 | Ten bytes hold the varint of every uint64 |
| `Uvarint.PutUvarint` | codec/gogoprotobuf/codec.go:112-114 | Fills the front of the buffer with the varint and returns its length |
| `Uvarint.SizeRoundTrip` | codec/gogoprotobuf/codec.go:139-145 | Reading a written size gives it back and leaves what follows |
| `Uvarint.CutSizeEnds` | codec/gogoprotobuf/codec.go:139-145 | A size cut at any byte reads as the end of the stream, never as another size |
| `Uvarint.VarintValue` | codec/gogoprotobuf/codec.go:139-145 | Every varint of up to ten bytes, shortest or not, reads as its groups of seven bits, least significant first |
| `BufferPool.Grown` | codec/bytes_buf.go:34-39 | The resized buffer has the requested size, starts with the old contents and continues with zeros |
| `BufferPool.BytesPool.Get` | codec/bytes_buf.go:21-29 | Any free buffer or a new one, at least 32 bytes, no longer free |
| `BufferPool.BytesPool.GetBytesBuf` | codec/bytes_buf.go:28-40 | At least the requested size and 32 bytes, held by nobody else; a negative size is allowed |
| `BufferPool.BytesPool.PutBytesBuf` | codec/bytes_buf.go:42-44 | Whatever is put becomes free; the pool stays in order if and only if the buffer was not free already and has at least 32 bytes |
| `PoolUsers.PoolDiscipline` | codec/bytes_buf.go:21-44 | Over every history of concurrent `Encode` and `Decode` calls and datagram loops, each with its own program counter: no buffer has two holders, none is free twice or free while held, none is shorter than 32 bytes, each holder has its size, and every get but the one in use had exactly one put |
| `Framing.Encoder.WriteSize` | codec/gogoprotobuf/codec.go:112-119 | Writes the size as a varint, or a beginning of it, through a pooled buffer that is put back on both paths |
| `Framing.Encoder.Encode` | codec/gogoprotobuf/codec.go:95-127 | Succeeds exactly when marshalling and both writes do, and then the frame is on the wire; otherwise a beginning of the frame, wherever the writer failed, and none of the body if writing the size failed; nothing if marshalling failed |
| `Framing.Decoder.ReadUvarint` | codec/gogoprotobuf/codec.go:139-145 | The accumulating loop over ten bytes computes the specified size, end or overflow, whatever the split into reads |
| `Framing.Decoder.ReadFull` | codec/gogoprotobuf/codec.go:147-152 | Fills the buffer exactly when enough bytes are left |
| `Framing.Decoder.Decode` | codec/gogoprotobuf/codec.go:133-159 | One message or the specified failure, as a function of the concatenated reads; the buffer is put back unless the size is too large for a slice |
| `Framing.Decoder.DecodeLoop` | server/extension.go:314-334 | The receive loop yields the specified messages and stop reason, whatever the split into reads; found cancelled after n messages, it yields exactly the first n |
| `Framing.FramesAppend` | codec/gogoprotobuf/codec.go:112-126 | Encoding one more message appends its frame |
| `Framing.FramingRoundTrip` | codec/gogoprotobuf/codec.go:95-159 | Decoding the concatenated frames of any messages gives the messages, then a clean end |
| `Framing.EveryCut` | codec/gogoprotobuf/codec.go:133-159 | Every cut falls after some number of complete frames |
| `Framing.TruncatedStream` | codec/gogoprotobuf/codec.go:133-159 | A stream cut at any byte gives exactly the complete messages, then the end of the stream at a boundary or inside a size, a cut body otherwise |
| `Framing.AcceptedBody` | codec/gogoprotobuf/codec.go:139-158 | Any body that unmarshals, under any varint of its length, gives its message and leaves what follows |
| `Framing.RejectedBody` | codec/gogoprotobuf/codec.go:153-158 | Good frames followed by a frame whose body does not unmarshal give those messages, then that failure |
| `Framing.OverlongSize` | codec/gogoprotobuf/codec.go:139-145 | Good frames followed by a size of more than ten bytes, or whose tenth byte is more than one, give those messages, then an overflow |
| `Framing.HugeSize` | codec/gogoprotobuf/codec.go:147-148 | Good frames followed by a size from 2^63 on give those messages, then a panic |
| `Controller.ControllerSafety` | controller.go:72-178 | In every interleaving of refreshes, closes, sends, failures and cancellation: bundles are consumed in the order offered; the bundle channel is never closed twice or sent to when closed; a panic is a late send or the second close of a replaced bundle whose session failed; with the mutex free every offered bundle but the latest is closed and the latest is open unless its session failed |
| `Controller.EarlySendIsSafe` | channel_bundle.go:37-40 | A send that entered its select before the message channel of its bundle was closed never panics, whatever follows; a blocked send is on a bundle nobody has begun to close |
| `Controller.RefreshOutcome` | controller.go:155-178 | Every refresh through its locked section has made a bundle; unless it left by the context, it offered that bundle or found the controller closed and returns it with both channels closed; it leaves by the context only after cancellation and has offered nothing then |
| `Controller.ClosedOffersNothing` | controller.go:143-164 | From the moment the controller is closed no bundle is offered any more |
| `Controller.SendsReturnForAReason` | controller.go:90-100 | A send returns by the closed arm only from a closed bundle and by the context arm only after cancellation; it is blocked only while no arm is ready; a message channel conserves messages: sent is taken plus the one it holds |
| `Controller.MessageArmIff` | controller.go:90-100 | A send returns by the message arm exactly if its message was put into the channel |
| `Controller.SessionsAccounted` | controller.go:72-140 | The bundles consumed are those whose session ended with its command channel, those whose session failed, and the one at work |
| `Controller.SessionGoneIff` | controller.go:79-86 | The session goroutine is gone exactly when it stopped, which it does only for a cancelled context or a closed and empty bundle channel |
| `Controller.ErrorClosesTwice` | controller.go:136-172 | Every run in which a session failed and its bundle is current in an open controller, or was replaced, goes on to a double close with nothing more than a refresh |
| `Controller.FailureIsFatalIff` | controller.go:136-172 | With the mutex free, a failed session can lead to a double close of its bundle if and only if the controller is open or the bundle was replaced |
| `Controller.LateSendPanics` | controller.go:90-100 | Every run in which a bundle has been closed goes on to a panic if a handler uses its send function once more |
| `Controller.LateReplyPanics` | controller.go:123-131 | Every run in which a bundle has been closed under a session at work goes on to a panic with the next reply of the session itself |
| `Controller.BusyRefreshPanics` | controller.go:166-172 | If refreshes may come while a session is at work there is a run that panics, with no handler, codec or context at fault |
| `Controller.PanicFreeIff` | controller.go:72-178 | No run panics if and only if no handler sends for a session once the next bundle was offered, no refresh offers a bundle while a session is at work, every reply marshals and the context is not cancelled; the replies of sessions are not restricted |
| `PacketDemux.OneHandlerPerAddress` | server/conn_packet.go:173-210 | Each remote address has at most one live handler |
| `PacketDemux.DeleteIsOwn` | server/conn_packet.go:199-203 | A finishing handler's delete removes its own entry and no other |
| `PacketDemux.Demultiplexing` | server/conn_packet.go:161-211 | Every datagram has one fate in order of arrival, and is validated only when earlier handlers of its address are finished; each pipe holds exactly the payloads delivered to it, a prefix of what its address sent after its registration datagram, all of it while the pipe is open; a failed write closes the pipe |
| `PacketLoop.Loop.OnDatagram` | server/conn_packet.go:163-197 | The pooled buffer is put back on all four paths; from a known address exactly the bytes received are appended to its open pipe, and a failed write closes the pipe as it is; from a new address the connection is made if and only if the bytes validate, and nothing is written; no other pipe or entry changes; this is a run of the demultiplexing steps |
| `Peripherals.Handler.GetPeripheral` | extperipheral/handler.go:134-147 | What is found is connected, still open and kept under no other id; nothing found means nothing is kept under the id; no kept peripheral is disturbed and conservation holds |
| `Peripherals.Handler.RemovePeripheral` | extperipheral/handler.go:149-156 | Afterwards nothing is under the id, what was kept there has been closed once and nothing else closed, and every other id is as before |
| `Peripherals.Handler.Connect` | extperipheral/handler.go:105-132 | Succeeds exactly for a free id, a readable command and a successful connection; then the new peripheral is kept under that id alone; otherwise nothing changes; no kept peripheral is disturbed and conservation holds |
| `Peripherals.Handler.HandleCmd` | extperipheral/handler.go:68-103 | The reply and the table after each kind of command: close is always done and empties the id; connect is done exactly for a free id, a readable command and a successful connection; operate gives a result exactly for a kept peripheral, a readable command and a successful operation; unknown commands fail; no other id changes and conservation holds |
| `Peripherals.PeripheralConservation` | extperipheral/handler.go:68-156 | After any sequence of commands each peripheral ever connected is in the table under exactly one id or was closed exactly once |
| `PeripheralRace.OneWinnerPerId` | extperipheral/handler.go:105-132 | With interleaved connects to one id, also ones that yield nil, exactly one is kept, and every peripheral of a loser is closed exactly once and not in the table |
| `PeripheralRace.RefusedIff` | extperipheral/handler.go:106-119 | A connect is refused exactly when its first lookup finds the id taken or its connection attempt fails |
| `PeripheralRace.RacePanicsIff` | extperipheral/handler.go:116-129 | A run of interleaved connects panics if and only if a call whose `Connect` yielded nil found its id taken when it came to store and went on to close |
| `PeripheralRace.NilLoserPanics` | extperipheral/handler.go:116-129 | For every id there is such a run |

## Left out

- Dialing, listening, TLS, URL parsing, address resolution, stream listeners, default timeouts: plumbing over other libraries.
- JSON and protobuf message bodies, and the JSON codec's framing.
- `extutil/streaming.go`: ordered input is delivered by a queue of another library.
- `extruntime/handle_action.go`, `handler_image.go`, `handler_pod.go`, `handleGetInfo`, `collectStreamErrors`: calls into the engine and small accumulations.
- Wall-clock time and fairness: expiry and scheduling are nondeterministic steps, and only safety is claimed. Termination of `HandleStream` is not modelled.
- Correlation.GoodKeysSuffice: one connection and one bundle; a new connection is a new session. Handlers that answer asynchronously or send events are not covered.
- StreamOutput.Reassembly: a send counts as successful when `SendMsg` returns no error, also when the bundle was closed and the message dropped. Memory that the reader hands out without asking for a copy is assumed not to be reused.
- Framing.Decoder.Decode: every size below 2^63 is taken to be allocatable. In Go a length beyond what the runtime can address panics, and one beyond the memory there is ends the process; both read as a cut body here. Not modelled either is the buffered reader giving up after many empty reads. Sizes from 2^63 on are modelled as the panic they cause.
- BufferPool.BytesPool.GetBytesBuf: an array stands for a slice, so growing always makes a new array; growing inside spare capacity is not told apart. The protobuf buffer pool is left out.
- Controller.ControllerSafety: a bundle whose refresh returned because the context was done is never handed out and stays open. What a session does with commands is in the client and end-to-end parts. Blocked sends are let through in any order, a superset of Go's.
- PacketDemux.Demultiplexing: the branch for packet listeners that accept connections is not modelled, and validation of the first datagram is a free choice.
- Peripherals.Handler.Connect: commands come one at a time, so the second duplicate check cannot fail here; it is modelled in the race of connects. Removal interleaved with other commands is not claimed to conserve peripherals.
