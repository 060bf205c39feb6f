/**
 * The session (`BaseTrans`): the socket client's state as the session sees it, the
 * outbound queue and its writer, and the owning client's error record and inbound
 * queue. Every method changes exactly the state its contract names.
 */
module Session {
  import opened Wrappers
  import opened Budget
  import opened Transport
  import opened Pipeline
  import opened Inbound
  import opened Handshake

  /** The owning SMPP client: the last error the session synced to it, and its inbound queue. */
  class Owner {
    var lastErr: ErrRecord
    var inbound: seq<Pushed>

    constructor ()
      ensures lastErr == ErrRecord(0, "") && inbound == []
    {
      lastErr := ErrRecord(0, "");
      inbound := [];
    }

    /** `syncClientErr`: records the code and message. */
    method SyncClientErr(e: ErrRecord)
      modifies this
      ensures lastErr == e && inbound == old(inbound)
    {
      lastErr := e;
    }

    /** Pushes onto the inbound queue (`getChannel()->push`). */
    method Push(p: Pushed)
      modifies this
      ensures inbound == old(inbound) + [p] && lastErr == old(lastErr)
    {
      inbound := inbound + [p];
    }
  }

  class Session {
    const owner: Owner
    /** The socket client's `errCode`/`errMsg`, set by its failing calls. */
    var nativeErr: ErrRecord
    /** Every transport action so far, in order. */
    var trace: seq<Event>
    /** The outbound queue; `None` stands for the property being unset or null. */
    var channel: Option<seq<Msg>>
    /** Whether a writer coroutine is running; it runs exactly while the queue is set. */
    var writerLive: bool
    /** How many writer coroutines have been started. */
    var writersStarted: nat

    ghost predicate Valid()
      reads this
    {
      writerLive <==> channel.Some?
    }

    constructor (owner: Owner)
      ensures Valid()
      ensures this.owner == owner
      ensures nativeErr == ErrRecord(0, "") && trace == [] && channel == None && writersStarted == 0
    {
      this.owner := owner;
      nativeErr := ErrRecord(0, "");
      trace := [];
      channel := None;
      writerLive := false;
      writersStarted := 0;
    }

    /** `clientErr`: syncs the client's native error to the owner, then closes the client if asked. */
    method ClientErr(close: bool)
      modifies this, owner
      ensures owner.lastErr == nativeErr && owner.inbound == old(owner.inbound)
      ensures trace == old(trace) + (if close then [CloseClient] else [])
      ensures nativeErr == old(nativeErr) && channel == old(channel)
      ensures writerLive == old(writerLive) && writersStarted == old(writersStarted)
    {
      owner.SyncClientErr(nativeErr);
      if close {
        trace := trace + [CloseClient];
      }
    }

    /** `customError`: syncs the given error to the owner, then closes the client if asked. */
    method CustomError(e: ErrRecord, close: bool)
      modifies this, owner
      ensures owner.lastErr == e && owner.inbound == old(owner.inbound)
      ensures trace == old(trace) + (if close then [CloseClient] else [])
      ensures nativeErr == old(nativeErr) && channel == old(channel)
      ensures writerLive == old(writerLive) && writersStarted == old(writersStarted)
    {
      owner.SyncClientErr(e);
      if close {
        trace := trace + [CloseClient];
      }
    }

    /**
     * `checkAndGetPdu`: reads one frame. A failed read records its classified error with
     * the owner and yields None (`false`); no path closes the client.
     */
    method CheckAndGetPdu(o: ReadOutcome) returns (pdu: Option<string>)
      modifies this, owner
      ensures pdu.Some? <==> Classify(o).Frame?
      ensures pdu.Some? ==> pdu.value == o.bytes && |pdu.value| >= MinFrameLength
      ensures owner.lastErr == (if pdu.Some? then old(owner.lastErr) else Classify(o).err)
      ensures nativeErr == (if o.RecvFailed? then o.native else old(nativeErr))
      ensures trace == old(trace) && owner.inbound == old(owner.inbound) && channel == old(channel)
      ensures writerLive == old(writerLive) && writersStarted == old(writersStarted)
    {
      if o.NotConnected? {
        CustomError(ErrRecord(ConnectionBroken, BrokenText), false);
        return None;
      }
      if o.RecvFailed? {
        nativeErr := o.native;
        if nativeErr.code == ConnectionReset {
          CustomError(ErrRecord(ConnectionBroken, BrokenText), false);
        } else {
          ClientErr(false);
        }
        return None;
      }
      var bytes := o.bytes;
      if bytes == [] {
        CustomError(ErrRecord(ConnectionBroken, BrokenText), false);
        return None;
      }
      if |bytes| < MinFrameLength {
        CustomError(ErrRecord(InvalidCommandId, CommandIdText), false);
        return None;
      }
      pdu := Some(bytes);
    }

    /** The client's close(). */
    method CloseClientNow()
      modifies this
      ensures trace == old(trace) + [CloseClient]
      ensures nativeErr == old(nativeErr) && channel == old(channel)
      ensures writerLive == old(writerLive) && writersStarted == old(writersStarted)
    {
      trace := trace + [CloseClient];
    }

    /** The role-specific close() of the session; only its occurrence is modelled. */
    method Close()
      modifies this
      ensures trace == old(trace) + [CloseSession]
      ensures nativeErr == old(nativeErr) && channel == old(channel)
      ensures writerLive == old(writerLive) && writersStarted == old(writersStarted)
    {
      trace := trace + [CloseSession];
    }

    /**
     * `bind`: the handshake, leaving at the first failing step. On acceptance the
     * outbound queue and its writer are created unless a queue is already set.
     */
    method Bind<V>(host: string, port: int, account: string, pwd: string, timeout: int, start: int,
                   o: Oracle, getBindPdu: (string, string) -> string,
                   unpackBindResp: string -> Option<BindResp>,
                   success: Hook<V>, fail: Hook<V>) returns (r: BindResult<V>)
      requires Valid()
      modifies this, owner
      ensures Valid()
      ensures r == BindReturn(BindExit(timeout, start, o, unpackBindResp), success, fail)
      ensures trace == old(trace) + BindTrace(host, port, timeout, start, o, getBindPdu(account, pwd), unpackBindResp)
      ensures owner.lastErr ==
        (match BindRecordedErr(BindExit(timeout, start, o, unpackBindResp))
         case Some(err) => err
         case None => old(owner.lastErr))
      ensures nativeErr ==
        (match BindNativeErr(BindExit(timeout, start, o, unpackBindResp), o)
         case Some(err) => err
         case None => old(nativeErr))
      ensures owner.inbound == old(owner.inbound)
      ensures var created := BindExit(timeout, start, o, unpackBindResp).Accepted? && old(channel).None?;
        && channel == (if created then Some([]) else old(channel))
        && writersStarted == old(writersStarted) + (if created then 1 else 0)
    {
      ghost var e := BindExit(timeout, start, o, unpackBindResp);
      ghost var full := BindTrace(host, port, timeout, start, o, getBindPdu(account, pwd), unpackBindResp);
      var t1;
      match SurplusTimeout(timeout, o.now1, start) {
        case TimedOut =>
          assert e == InitialTimeout && full == [];
          CustomError(ErrRecord(ConnectionTimedOut, TimedText), false);
          return OrElse(DoHook(fail), BindFalse);
        case Remaining(t) =>
          t1 := t;
      }

      assert e == ConnectedExit(t1, start, o, unpackBindResp);
      assert full == [Connect(host, port, t1)] + ConnectedTrace(e, getBindPdu(account, pwd));
      r := ConnectAndLogin(host, port, account, pwd, t1, start, o, getBindPdu, unpackBindResp, success, fail);
    }

    /**
     * `bind` from the connect on: connect with the first remaining budget, build the
     * login PDU, check the budget again, send the PDU, then await the response.
     */
    method ConnectAndLogin<V>(host: string, port: int, account: string, pwd: string, t1: int, start: int,
                              o: Oracle, getBindPdu: (string, string) -> string,
                              unpackBindResp: string -> Option<BindResp>,
                              success: Hook<V>, fail: Hook<V>) returns (r: BindResult<V>)
      requires Valid()
      modifies this, owner
      ensures Valid()
      ensures r == BindReturn(ConnectedExit(t1, start, o, unpackBindResp), success, fail)
      ensures trace == old(trace) + [Connect(host, port, t1)]
                       + ConnectedTrace(ConnectedExit(t1, start, o, unpackBindResp), getBindPdu(account, pwd))
      ensures owner.lastErr ==
        (match BindRecordedErr(ConnectedExit(t1, start, o, unpackBindResp))
         case Some(err) => err
         case None => old(owner.lastErr))
      ensures nativeErr ==
        (match BindNativeErr(ConnectedExit(t1, start, o, unpackBindResp), o)
         case Some(err) => err
         case None => old(nativeErr))
      ensures owner.inbound == old(owner.inbound)
      ensures var created := ConnectedExit(t1, start, o, unpackBindResp).Accepted? && old(channel).None?;
        && channel == (if created then Some([]) else old(channel))
        && writersStarted == old(writersStarted) + (if created then 1 else 0)
    {
      ghost var e := ConnectedExit(t1, start, o, unpackBindResp);
      trace := trace + [Connect(host, port, t1)];
      if o.connect.IoFailed? {
        assert e == ConnectFailed(o.connect.native);
        nativeErr := o.connect.native;
        ClientErr(true);
        return OrElse(DoHook(fail), BindFalse);
      }

      var pdu := getBindPdu(account, pwd);

      if SurplusTimeout(t1, o.now2, start).TimedOut? {
        assert e == PostConnectTimeout;
        CustomError(ErrRecord(ConnectionTimedOut, TimedText), true);
        return OrElse(DoHook(fail), BindFalse);
      }

      trace := trace + [Write(pdu)];
      if o.sendLogin.IoFailed? {
        assert e == SendFailed(o.sendLogin.native);
        nativeErr := o.sendLogin.native;
        ClientErr(true);
        return OrElse(DoHook(fail), BindFalse);
      }

      assert e == ResponseExit(o.read, unpackBindResp);
      r := AwaitBindResp(o.read, unpackBindResp, success, fail);
    }

    /**
     * The end of `bind`, once the login PDU is sent: read the response, unpack it, test
     * its status; a failure at any of these closes the client.
     */
    method AwaitBindResp<V>(read: ReadOutcome, unpackBindResp: string -> Option<BindResp>,
                            success: Hook<V>, fail: Hook<V>) returns (r: BindResult<V>)
      requires Valid()
      modifies this, owner
      ensures Valid()
      ensures r == BindReturn(ResponseExit(read, unpackBindResp), success, fail)
      ensures trace == old(trace) + (if ResponseExit(read, unpackBindResp).Accepted? then [] else [CloseClient])
      ensures owner.lastErr ==
        (match BindRecordedErr(ResponseExit(read, unpackBindResp))
         case Some(err) => err
         case None => old(owner.lastErr))
      ensures nativeErr == (if read.RecvFailed? then read.native else old(nativeErr))
      ensures owner.inbound == old(owner.inbound)
      ensures var created := ResponseExit(read, unpackBindResp).Accepted? && old(channel).None?;
        && channel == (if created then Some([]) else old(channel))
        && writersStarted == old(writersStarted) + (if created then 1 else 0)
    {
      var responsePdu := CheckAndGetPdu(read);
      if responsePdu.None? {
        CloseClientNow();
        return OrElse(DoHook(fail), BindFalse);
      }

      var responseArr := unpackBindResp(responsePdu.value);
      if responseArr.None? {
        CustomError(ErrRecord(ConnectionBroken, CommandIdText), true);
        return OrElse(DoHook(fail), BindFalse);
      }

      var hook;
      if responseArr.value.commandStatus != EsmeRok {
        CloseClientNow();
        hook := fail;
      } else {
        hook := success;
        StartWriter();
      }
      r := OrElse(DoHook(hook), Response(responseArr.value));
    }

    /** Creates the outbound queue and starts its writer, unless a queue is already set. */
    method StartWriter()
      requires Valid()
      modifies this
      ensures Valid()
      ensures channel == (if old(channel).None? then Some([]) else old(channel))
      ensures writersStarted == old(writersStarted) + (if old(channel).None? then 1 else 0)
      ensures trace == old(trace) && nativeErr == old(nativeErr)
    {
      if channel.None? {
        channel := Some([]);
        writerLive := true;
        writersStarted := writersStarted + 1;
      }
    }

    /** `send`: enqueues the message when a queue is set, and is a no-op otherwise. */
    method Send(m: Msg)
      modifies this
      ensures channel == (if old(channel).Some? then Some(old(channel).value + [m]) else None)
      ensures trace == old(trace) && nativeErr == old(nativeErr)
      ensures writerLive == old(writerLive) && writersStarted == old(writersStarted)
    {
      if channel.Some? {
        channel := Some(channel.value + [m]);
      }
    }

    /**
     * `unbind`: enqueues the unbind PDU as a close-directive, unless the client's own
     * error code is 8 or 110.
     */
    method Unbind(unbindPdu: string)
      modifies this
      ensures channel ==
        (if nativeErr.code != ConnectionBroken && nativeErr.code != ConnectionTimedOut && old(channel).Some?
         then Some(old(channel).value + [Final(unbindPdu)])
         else old(channel))
      ensures trace == old(trace) && nativeErr == old(nativeErr)
      ensures writerLive == old(writerLive) && writersStarted == old(writersStarted)
    {
      if nativeErr.code != ConnectionBroken && nativeErr.code != ConnectionTimedOut {
        Send(Final(unbindPdu));
      }
    }

    /** `handleUnbind`: answers the peer's unbind with a close-directive carrying the response. */
    method HandleUnbind(sequenceNumber: int, packUnbindResp: int -> string)
      modifies this
      ensures channel ==
        (if old(channel).Some? then Some(old(channel).value + [Final(packUnbindResp(sequenceNumber))]) else None)
      ensures trace == old(trace) && nativeErr == old(nativeErr)
      ensures writerLive == old(writerLive) && writersStarted == old(writersStarted)
    {
      Send(Final(packUnbindResp(sequenceNumber)));
    }

    /**
     * The writer coroutine, run over what is queued now: it pops and writes until the
     * queue is empty (where the coroutine would wait) or a close-directive has been
     * handled, after which the client is closed, the queue unset and the writer gone.
     * `sent(i)` is the result of the i-th write; the result is ignored, but a failed write
     * leaves its error as the client's error code.
     */
    method RunWriter(sent: nat -> IoResult)
      requires Valid()
      modifies this
      ensures Valid()
      ensures old(channel).None? ==> trace == old(trace) && channel == None && nativeErr == old(nativeErr)
      ensures old(channel).Some? ==>
        && trace == old(trace) + WriterTrace(old(channel).value)
        && channel == (if HasFinal(old(channel).value) then None else Some([]))
        && nativeErr == WriterNative(old(channel).value, sent, 0, old(nativeErr))
      ensures writersStarted == old(writersStarted)
    {
      if channel.None? {
        return;
      }
      ghost var q0 := channel.value;
      var k: nat := 0;
      while channel.Some? && channel.value != []
        invariant Valid()
        invariant channel.Some? ==> old(trace) + WriterTrace(q0) == trace + WriterTrace(channel.value)
        invariant channel.Some? ==> (HasFinal(q0) <==> HasFinal(channel.value))
        invariant channel.None? ==> old(trace) + WriterTrace(q0) == trace && HasFinal(q0)
        invariant channel.Some? ==> WriterNative(q0, sent, 0, old(nativeErr)) == WriterNative(channel.value, sent, k, nativeErr)
        invariant channel.None? ==> WriterNative(q0, sent, 0, old(nativeErr)) == nativeErr
        invariant writersStarted == old(writersStarted)
        decreases if channel.Some? then |channel.value| else 0
      {
        var q := channel.value;
        var data := q[0];
        channel := Some(q[1..]);
        if sent(k).IoFailed? {
          nativeErr := sent(k).native;
        }
        k := k + 1;
        match data {
          case Plain(f) =>
            trace := trace + [Write(f)];
          case Final(f) =>
            trace := trace + [Write(f)];
            trace := trace + [CloseClient];
            channel := None;
            writerLive := false;
        }
      }
    }

    /**
     * `recv`: reads until a read records a fatal code, then closes the session and
     * pushes the sentinel; other failures are skipped, and truthy decoded PDUs pushed.
     */
    method Recv(outcomes: seq<ReadOutcome>, handlePdu: string -> Option<Decoded>)
      requires Valid()
      modifies this, owner
      ensures Valid()
      ensures owner.inbound == old(owner.inbound) + RecvPushes(outcomes, handlePdu)
      ensures trace == old(trace) + RecvTrace(outcomes)
      ensures Errs(owner.lastErr, nativeErr) == RecvErrs(outcomes, Errs(old(owner.lastErr), old(nativeErr)))
      ensures channel == old(channel) && writerLive == old(writerLive) && writersStarted == old(writersStarted)
    {
      var i := 0;
      while i < |outcomes|
        invariant 0 <= i <= |outcomes|
        invariant RecvInto(outcomes, handlePdu, old(owner.inbound)) == RecvInto(outcomes[i..], handlePdu, owner.inbound)
        invariant trace == old(trace) && RecvTrace(outcomes) == RecvTrace(outcomes[i..])
        invariant RecvErrs(outcomes, Errs(old(owner.lastErr), old(nativeErr)))
                  == RecvErrs(outcomes[i..], Errs(owner.lastErr, nativeErr))
        invariant channel == old(channel) && writerLive == old(writerLive) && writersStarted == old(writersStarted)
      {
        ghost var rest := outcomes[i..];
        assert rest[0] == outcomes[i] && rest[1..] == outcomes[i + 1..];
        var fatal := RecvOne(outcomes[i], handlePdu);
        if fatal {
          break;
        }
        i := i + 1;
      }
      RecvIntoAppends(outcomes, handlePdu, old(owner.inbound));
    }

    /**
     * One pass of the `recv` loop: read a frame; on failure, when the recorded code is
     * fatal close the session and push the sentinel, otherwise skip it; on success push
     * the decoded PDU if it is truthy. Reports whether the loop ends here.
     */
    method RecvOne(o: ReadOutcome, handlePdu: string -> Option<Decoded>) returns (fatal: bool)
      modifies this, owner
      ensures fatal == FatalOutcome(o)
      ensures owner.inbound == old(owner.inbound) + StepPushes(o, handlePdu)
      ensures trace == old(trace) + (if fatal then [CloseSession] else [])
      ensures Errs(owner.lastErr, nativeErr) == StepErrs(o, Errs(old(owner.lastErr), old(nativeErr)))
      ensures channel == old(channel) && writerLive == old(writerLive) && writersStarted == old(writersStarted)
    {
      var responsePdu := CheckAndGetPdu(o);
      if responsePdu.None? {
        fatal := IsFatal(owner.lastErr.code);
        if fatal {
          Close();
          owner.Push(Sentinel);
        }
        // a non-fatal failure is skipped after a one-second pause
        return;
      }
      fatal := false;
      var unpackData := handlePdu(responsePdu.value);
      if Truthy(unpackData) {
        owner.Push(Pdu(unpackData.value));
      }
    }
  }
}
