# SMPP session core (`BaseTrans`) in Dafny

This project models the session/transport core of an SMPP client: the abstract
`BaseTrans` class. It proves properties of that model. The socket, the clock and the
protocol codec are inputs to the model:

- **Timeout budget** (`budget.dfy`): `getSurplusTimeout`, with `time()` and the bind start time as parameters.
- **Read classification** (`transport.dfy`): `checkAndGetPdu` maps a read to a frame or to a recorded error. The error is 8 for a broken connection, 93 for a short frame, or the socket's own code, forwarded.
- **Bind handshake** (`handshake.dfy` holds the specification functions; `session.dfy` holds the methods): budget check, connect, build the login PDU, second budget check, send, read, unpack, status test. The handshake leaves at the first failing step. Each exit has its own recorded error, its own close behaviour and its own return value (`doHook … ?? false`).
- **Outbound pipeline** (`pipeline.dfy` and `session.dfy`): `send`, `unbind`, `handleUnbind` and the writer coroutine. A plain frame is written. A close-directive has its frame written, then the client is closed and the queue is unset.
- **Receive loop** (`inbound.dfy` and `session.dfy`): `recv`, run over a finite sequence of read outcomes.
- **Scenarios** (`scenarios.dfy`): whole-session runs that use only the methods' contracts.

`Session.Session` is a class whose fields hold the state the source mutates:
- the socket client's native error;
- the trace of transport actions (`Connect`, `Write`, `CloseClient`, and `CloseSession` for the role-specific `close()`);
- the optional outbound queue;
- whether a writer runs, and how many writers have been started.

`Session.Owner` holds the owning client's recorded error and its inbound queue. The abstract members `getBindPdu`, `unpackBindResp` and `handlePdu` are function parameters. So are the static `SMPP3Protocol::packUnbindResp` call and the PDU from `SMPP3Protocol::packUnbind`, which is given to `Unbind` as a value. `close()`, the fourth abstract member, is recorded as an action. The bind hooks are values. A hook either is absent or returns a value or `null`.

Behaviour the code has that a reader might not expect:
- `unbind` and `handleUnbind` enqueue close-directives (one-element arrays), not plain frames.
- `unbind` tests the socket client's own `errCode`, not the error last recorded with the owner.
- An unpack failure is recorded with code 8, not 93, although its message reads "Incorrect pdu command id".
- The second budget check passes the already reduced timeout back into `getSurplusTimeout`, so the time since the start is subtracted twice. With a budget of 3 and both checks at time 2, `bind` times out with one second still left (`Handshake.SecondCheckFailsBeforeDeadline`).
- Connect and send failures close the client (`clientErr` defaults to closing).
- After the writer has unset the queue, a later successful bind creates a new queue and writer (`isset` is false for `null`). The queue is therefore not created only once per session.

The source's `bind` is a single method. The model splits it into `Bind` (first budget check), `ConnectAndLogin` (connect to send) and `AwaitBindResp` (read, unpack, status). The steps and their order are unchanged. Likewise, one pass of the `recv` loop is `RecvOne`.

## Model

| member | source | states |
|---|---|---|
| Budget.SurplusTimeout | src/Abstract/BaseTrans.php:82-93 | A non-positive timeout comes back unchanged. Otherwise the result is `false` exactly when the deadline `start + timeout` has been reached. Any other result is the positive time left before the deadline, and it is at most the timeout once `now >= start`. |
| Budget.SurplusNeverRecovers | src/Abstract/BaseTrans.php:85-92 | Once the budget is spent, a later clock reading still finds it spent. |
| Transport.Classify | src/Abstract/BaseTrans.php:100-129 | A read gives a frame exactly when it returned at least 16 bytes, and the frame is unchanged. Not connected, an empty read, and native code 104 each record 8 "the connection is broken". Any other native failure is forwarded as it is. 1 to 15 bytes record 93. |
| Transport.FatalOutcome | src/Abstract/BaseTrans.php:271-281 | The reads that end `recv`: not connected, an empty read, a reset (104), or a native code of 8 or 110. |
| Session.Session.ClientErr | src/Abstract/BaseTrans.php:48-57 | Records the client's native error with the owner, then closes the client if asked. Nothing else changes. |
| Session.Session.CustomError | src/Abstract/BaseTrans.php:66-75 | Records the given error with the owner, then closes the client if asked. Nothing else changes. |
| Session.Session.CheckAndGetPdu | src/Abstract/BaseTrans.php:100-129 | Returns the frame exactly when `Classify` gives one. Otherwise it returns `false` with the classified error recorded. A native failure becomes the client's error. No path closes the client or touches the queues. |
| Handshake.BindExit | src/Abstract/BaseTrans.php:154-205 | Gives the exit step of a bind attempt. With `T <= 0` neither budget check can fail. With `T > 0`, the second check times out exactly when `T - (now1 - start) - (now2 - start) <= 0`, because the first remaining value is fed back in. With the deadline already passed it leaves at the first check. If the deadline passes by the second check, the login PDU is never sent. A connect failure ends the attempt. Each later step is reached iff every earlier one succeeded, and then it alone decides the exit: the send fails iff the send call fails; the read fails, with its classified error, iff the read is not a frame; unpacking fails iff the decoder rejects the frame; otherwise the exit is a response. A response exit carries exactly what the decoder produced from the frame that was read, and it is accepted iff the status is ESME_ROK. |
| Handshake.BindTrace | src/Abstract/BaseTrans.php:156-207 | Nothing happens after an initial timeout. Otherwise the connect comes first, with the first remaining budget. The login PDU is the only frame written, and it is written iff no step before the send failed. Every exit except the initial timeout and acceptance closes the client, once and last. The connect, the login write and the close each happen at most once, so the trace is one of connect-close, connect-write, or connect-write-close. |
| Handshake.BindRecordedErr | src/Abstract/BaseTrans.php:156-203 | Both timeouts record 110 and connect/send failures forward the native error. A read failure keeps its classified error, an unpack failure records 8, and a decoded response records nothing. |
| Handshake.BindNativeErr | src/Abstract/BaseTrans.php:164-190 | Only a failing connect, send or `recv` call changes the client's native error, and it becomes that call's error. |
| Handshake.DoHook | src/Abstract/BaseTrans.php:136-141 | No hook gives `null`; otherwise the hook's own result, `null` included. |
| Handshake.BindReturn | src/Abstract/BaseTrans.php:205-240 | The success hook is consulted on acceptance only and the fail hook on every other exit. A non-null hook value is returned. Otherwise the result is the decoded response when one exists, else `false`. |
| Handshake.SecondCheckFailsBeforeDeadline | src/Abstract/BaseTrans.php:174-180 | With a budget of 3 and both checks at time 2, `bind` leaves at the second check although the deadline is a second away. |
| Session.Session.Bind | src/Abstract/BaseTrans.php:154-241 | The result, the transport actions, the recorded and native errors, and the queue are those `BindExit` determines. The queue and a writer are created only on acceptance when none is set. |
| Session.Session.ConnectAndLogin | src/Abstract/BaseTrans.php:163-188 | From the connect on: connect, build the PDU, run the second budget check, send, then await the response. Each step's failure exit is the one `BindExit` gives. |
| Session.Session.AwaitBindResp | src/Abstract/BaseTrans.php:190-240 | A read failure, an unpack failure (code 8) and a rejected status each close the client. Acceptance does not close it and starts the writer if no queue is set. |
| Session.Session.StartWriter | src/Abstract/BaseTrans.php:213-237 | Creates an empty queue and starts one writer only when no queue is set. Otherwise nothing changes. |
| Session.Session.Send | src/Abstract/BaseTrans.php:301-306 | Appends the message to the queue when one is set, and is a no-op otherwise. |
| Session.Session.Unbind | src/Abstract/BaseTrans.php:246-253 | Enqueues the unbind PDU as a close-directive only when the client's errCode is neither 8 nor 110 and a queue is set. |
| Session.Session.HandleUnbind | src/Abstract/BaseTrans.php:259-262 | Enqueues the packed unbind response for the sequence number as a close-directive, if a queue is set. |
| Session.Session.RunWriter | src/Abstract/BaseTrans.php:216-236 | The writer's actions are `WriterTrace` of the queue. The queue ends unset, with the writer gone, iff it held a close-directive, and empty otherwise. The client's native error is `WriterNative` of the queue and the write results, so a failed write is what `unbind` sees next. |
| Pipeline.WriterKeepsLastFailure | src/Abstract/BaseTrans.php:224-227 | After the writer drains the queue, the client's native error is that of the last failed write among the messages it wrote, and unchanged when none failed. |
| Pipeline.WriterWritesInPopOrder | src/Abstract/BaseTrans.php:217-235 | Frames are written in pop order up to and including the first close-directive, followed by one client close. Without a close-directive every frame is written and the client stays open. |
| Pipeline.WriterClosesOnceAtEnd | src/Abstract/BaseTrans.php:224-234 | The writer closes the client iff the queue holds a close-directive, and only as its last action. |
| Pipeline.WriterTraceAppend | src/Abstract/BaseTrans.php:217-235 | Draining `q` then `r` equals draining `q + r` when `q` has no close-directive. After a close-directive in `q`, nothing of `r` is written. |
| Session.Session.Recv | src/Abstract/BaseTrans.php:267-295 | The pushes, the session close and the recorded errors are those of `RecvPushes`, `RecvTrace` and `RecvErrs` over the outcomes. The outbound queue is untouched. |
| Session.Session.RecvOne | src/Abstract/BaseTrans.php:271-293 | One pass ends the loop iff the read is fatal. A fatal read closes the session and pushes `false`. Other failures push nothing. A frame pushes its decoding iff that is truthy. |
| Inbound.SentinelOnlyAtEnd | src/Abstract/BaseTrans.php:269-281 | `false` is pushed iff some read is fatal, and then exactly once, as the last element. The session is closed exactly in that case. |
| Inbound.RecvPushesAppend | src/Abstract/BaseTrans.php:269-294 | Without a fatal read in `a`, reading `a` then `b` pushes what each pushes, in order. After a fatal read in `a`, nothing of `b` is read. |
| Inbound.RecvPushesOnlyTruthyPdus | src/Abstract/BaseTrans.php:283-293 | Without a fatal read, the pushes are exactly `TruthyDecodings(Frames(os))`: the truthy `handlePdu` results of the frames, in read order. Failed reads and falsy decodings push nothing, and each push is a non-empty PDU. |
| Scenarios.CloseDirectiveRun | src/Abstract/BaseTrans.php:224-234 | After a bind, a frame and then a close-directive are sent. Both frames are written in order, then the client closes and the queue is unset. A third send writes nothing. |
| Scenarios.RepeatedBindRun | src/Abstract/BaseTrans.php:213-214 | Two successful binds start one writer and leave one empty queue. |
| Scenarios.SilentPeerRun | src/Abstract/BaseTrans.php:190-194 | A bind whose response read times out returns `false`, ends by closing the client, and leaves 110 with the owner. |
| Scenarios.WriterTimeoutSilencesUnbind | src/Abstract/BaseTrans.php:224-251 | A writer write that times out leaves 110 as the client's error code, so a later `unbind` enqueues nothing. |

## Left out

- Swoole `Client` construction and its length-check framing options (lines 31-38): reads arrive already delimited, as strings with one character per byte.
- Coroutines: `Coroutine::create`, the full-duplex interleaving of the writer with `recv`, blocking `pop`/`push`, and the queue capacity of 5000. The writer runs as `RunWriter`, a sequential drain of what is queued. Where the coroutine would wait on an empty queue, the drain stops.
- `Coroutine::sleep(1)` on a non-fatal read failure: the pause is not modelled, only the retry.
- `recv` runs over a finite sequence of read outcomes. With no fatal read among them, the model stops at the end of the sequence, where the source would keep reading forever.
- The timeout passed to the client's `recv` (the second remaining budget in `bind`, -1 in `recv`) is not recorded. Each read's outcome is an input.
- Whether the socket is connected is not session state. `isConnected()` returning false is one of the read outcomes.
- The writer ignores the return value of its writes, as the source does. Each attempted write is recorded, and a failed write still sets the client's error code.
- `$this->channel->close()` is folded into unsetting the queue, because nothing can observe the closed queue before it is unset.
- `SMPP3Protocol` packing and unpacking, and the abstract `getBindPdu`, `unpackBindResp`, `handlePdu` and `close`: the first three are function parameters, and `close()` is recorded only as an action. `EnquireLinkTrait` is not part of this model.
- `time()` and `getStartBindTime()` are integer parameters, so fractional timeouts are not modelled.
- `syncClientErr` is modelled only as recording the last code and message.
- The truthiness of `handlePdu`'s result: `null`, `false` and the empty array are falsy. Other PHP falsy values, such as `0` and `""`, are not modelled.
