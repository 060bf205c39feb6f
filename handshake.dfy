/**
 * The bind handshake as a function of its oracles: the two readings of the clock, the
 * outcomes of connect, send and read, and the bind-response decoder. `bind` runs its
 * steps in a fixed order (budget, connect, build PDU, budget, send, read, unpack,
 * status test) and leaves at the first step that fails.
 */
module Handshake {
  import opened Wrappers
  import opened Budget
  import opened Transport

  /** SMPP's "no error" command status. */
  const EsmeRok := 0

  /** The decoded bind response array: its `command_status` and the other fields. */
  datatype BindResp = BindResp(commandStatus: int, fields: map<string, string>)

  /** What the outside world answers during one bind attempt. */
  datatype Oracle = Oracle(
    now1: int,            // time() at the first budget check
    now2: int,            // time() at the second budget check
    connect: IoResult,    // the client's connect call
    sendLogin: IoResult,  // sending the bind PDU
    read: ReadOutcome)    // reading the bind response

  /** The step at which `bind` leaves. */
  datatype Exit =
    | InitialTimeout
    | ConnectFailed(native: ErrRecord)
    | PostConnectTimeout
    | SendFailed(native: ErrRecord)
    | ReadFailed(err: ErrRecord)
    | UnpackFailed
    | Rejected(resp: BindResp)
    | Accepted(resp: BindResp)

  /** A success or fail hook: absent, or a callable that returns a value or `null`. */
  datatype Hook<V> = NoHook | Hook(result: Option<V>)

  /** What `bind` returns: `false`, the decoded response, or a hook's result. */
  datatype BindResult<V> = BindFalse | Response(resp: BindResp) | HookValue(value: V)

  /** The exits that happen before the login PDU is sent. */
  predicate BeforeSend(e: Exit) {
    e.InitialTimeout? || e.ConnectFailed? || e.PostConnectTimeout?
  }

  /** The timeout handed to connect: the first remaining budget. */
  function ConnectTimeout(timeout: int, start: int, o: Oracle): int
    requires SurplusTimeout(timeout, o.now1, start).Remaining?
  {
    SurplusTimeout(timeout, o.now1, start).timeout
  }

  /** The step at which `bind` leaves, given what the world answers. */
  function BindExit(timeout: int, start: int, o: Oracle, unpack: string -> Option<BindResp>): (e: Exit)
    ensures !e.InitialTimeout? <==> SurplusTimeout(timeout, o.now1, start).Remaining?
    // no deadline: neither budget check can fail
    ensures timeout <= 0 ==> !e.InitialTimeout? && !e.PostConnectTimeout?
    // the deadline has already passed at the start
    ensures timeout > 0 && o.now1 >= start + timeout ==> e.InitialTimeout?
    // the deadline passes before the send: the login PDU is never sent
    ensures timeout > 0 && start <= o.now1 <= o.now2 && o.now2 >= start + timeout ==> BeforeSend(e)
    // as written, the second check counts the time since the start twice
    ensures timeout > 0 && o.now1 < start + timeout && o.connect.Done? ==>
      (e.PostConnectTimeout? <==> timeout - (o.now1 - start) - (o.now2 - start) <= 0)
    // a connect failure ends the attempt before anything else is done
    ensures o.connect.IoFailed? ==> e.InitialTimeout? || e.ConnectFailed?
    // a response is only ever one the decoder produced from the frame that was read
    ensures e.Rejected? || e.Accepted? ==>
      && Classify(o.read).Frame?
      && unpack(Classify(o.read).bytes) == Some(e.resp)
      && (e.Accepted? <==> e.resp.commandStatus == EsmeRok)
    // each failing call's error travels with the exit
    ensures e.ConnectFailed? ==> o.connect == IoFailed(e.native)
    ensures e.SendFailed? ==> o.sendLogin == IoFailed(e.native)
    ensures e.ReadFailed? ==> Classify(o.read) == Failed(e.err)
    // each step is reached only when every earlier one succeeded, and then it decides the exit
    ensures e.ConnectFailed? <==> !e.InitialTimeout? && o.connect.IoFailed?
    ensures e.PostConnectTimeout? <==>
      !e.InitialTimeout? && o.connect.Done? && SurplusTimeout(ConnectTimeout(timeout, start, o), o.now2, start).TimedOut?
    ensures !BeforeSend(e) ==> (e.SendFailed? <==> o.sendLogin.IoFailed?)
    ensures e.ReadFailed? <==> !BeforeSend(e) && o.sendLogin.Done? && Classify(o.read).Failed?
    ensures e.UnpackFailed? <==>
      !BeforeSend(e) && o.sendLogin.Done? && Classify(o.read).Frame? && unpack(Classify(o.read).bytes).None?
    ensures e.Rejected? || e.Accepted? <==>
      !BeforeSend(e) && o.sendLogin.Done? && Classify(o.read).Frame? && unpack(Classify(o.read).bytes).Some?
  {
    match SurplusTimeout(timeout, o.now1, start)
    case TimedOut => InitialTimeout
    case Remaining(t1) => ConnectedExit(t1, start, o, unpack)
  }

  /** The exit of the steps from the connect on, `t1` being the first remaining budget. */
  function ConnectedExit(t1: int, start: int, o: Oracle, unpack: string -> Option<BindResp>): (e: Exit)
    ensures !e.InitialTimeout?
    ensures e.ConnectFailed? <==> o.connect.IoFailed?
    ensures e.PostConnectTimeout? <==> o.connect.Done? && SurplusTimeout(t1, o.now2, start).TimedOut?
    ensures !BeforeSend(e) ==> o.sendLogin.Done? || e.SendFailed?
    ensures e.SendFailed? <==> !BeforeSend(e) && o.sendLogin.IoFailed?
    ensures e.SendFailed? ==> o.sendLogin == IoFailed(e.native)
    ensures !BeforeSend(e) && !e.SendFailed? ==> e == ResponseExit(o.read, unpack)
  {
    if o.connect.IoFailed? then ConnectFailed(o.connect.native)
    else if SurplusTimeout(t1, o.now2, start).TimedOut? then PostConnectTimeout
    else if o.sendLogin.IoFailed? then SendFailed(o.sendLogin.native)
    else ResponseExit(o.read, unpack)
  }

  /** The exit of the steps after the login PDU is sent: read, unpack, status test. */
  function ResponseExit(read: ReadOutcome, unpack: string -> Option<BindResp>): (e: Exit)
    ensures e.ReadFailed? || e.UnpackFailed? || e.Rejected? || e.Accepted?
    // a failed read is reported with its classified error, never as an unpack failure
    ensures e.ReadFailed? <==> Classify(read).Failed?
    ensures e.ReadFailed? ==> Classify(read) == Failed(e.err)
    // a frame the decoder rejects is an unpack failure; one it decodes is a response
    ensures e.UnpackFailed? <==> Classify(read).Frame? && unpack(Classify(read).bytes).None?
    ensures e.Rejected? || e.Accepted? <==> Classify(read).Frame? && unpack(Classify(read).bytes).Some?
    ensures e.Rejected? || e.Accepted? ==>
      unpack(Classify(read).bytes) == Some(e.resp) && (e.Accepted? <==> e.resp.commandStatus == EsmeRok)
  {
    match Classify(read)
    case Failed(err) => ReadFailed(err)
    case Frame(f) =>
      match unpack(f)
      case None => UnpackFailed
      case Some(resp) => if resp.commandStatus != EsmeRok then Rejected(resp) else Accepted(resp)
  }

  /** The transport actions of one bind attempt, `pdu` being the login PDU. */
  function BindTrace(host: string, port: int, timeout: int, start: int, o: Oracle, pdu: string,
                     unpack: string -> Option<BindResp>): (t: seq<Event>)
    ensures var e := BindExit(timeout, start, o, unpack);
      // nothing at all happens when the budget is spent at the start
      && (e.InitialTimeout? <==> t == [])
      // otherwise the first action is the connect, with the first remaining budget
      && (t != [] ==> t[0] == Connect(host, port, ConnectTimeout(timeout, start, o)))
      // the login PDU is sent exactly when no earlier step failed, and nothing else is written
      && (Write(pdu) in t <==> !BeforeSend(e))
      && (forall i :: 0 <= i < |t| && t[i].Write? ==> t[i] == Write(pdu))
      // every exit but the initial timeout and acceptance closes the client, once and last
      && (CloseClient in t <==> !(e.InitialTimeout? || e.Accepted?))
      && (CloseClient in t ==> t[|t| - 1] == CloseClient && CloseClient !in t[..|t| - 1])
      && CloseSession !in t
      // the connect happens once, and so do the login write and the close when they happen
      && (forall i :: 0 < i < |t| ==> !t[i].Connect?)
      && |t| == (if e.InitialTimeout? then 0
                 else 1 + (if BeforeSend(e) then 0 else 1) + (if CloseClient in t then 1 else 0))
  {
    var e := BindExit(timeout, start, o, unpack);
    if e.InitialTimeout? then []
    else [Connect(host, port, ConnectTimeout(timeout, start, o))] + ConnectedTrace(e, pdu)
  }

  /** The transport actions of `bind` after the connect call, given where it leaves. */
  function ConnectedTrace(e: Exit, pdu: string): seq<Event>
  {
    if BeforeSend(e) then [CloseClient]
    else if e.Accepted? then [Write(pdu)]
    else [Write(pdu), CloseClient]
  }

  /** The error `bind` records with the owning client, if it records one. */
  function BindRecordedErr(e: Exit): (r: Option<ErrRecord>)
    // both budget checks report a timeout
    ensures e.InitialTimeout? || e.PostConnectTimeout? ==> r == Some(ErrRecord(ConnectionTimedOut, TimedText))
    // connect and send failures forward the client's native error
    ensures e.ConnectFailed? || e.SendFailed? ==> r == Some(e.native)
    // a failed read keeps what the read classification recorded
    ensures e.ReadFailed? ==> r == Some(e.err)
    // as written, an undecodable response is reported with code 8
    ensures e.UnpackFailed? ==> r == Some(ErrRecord(ConnectionBroken, CommandIdText))
    // a decoded response, accepted or not, records nothing
    ensures r.None? <==> e.Rejected? || e.Accepted?
  {
    match e
    case InitialTimeout => Some(ErrRecord(ConnectionTimedOut, TimedText))
    case ConnectFailed(native) => Some(native)
    case PostConnectTimeout => Some(ErrRecord(ConnectionTimedOut, TimedText))
    case SendFailed(native) => Some(native)
    case ReadFailed(err) => Some(err)
    case UnpackFailed => Some(ErrRecord(ConnectionBroken, CommandIdText))
    case Rejected(_) => None
    case Accepted(_) => None
  }

  /** The client's native error after the attempt, if a failing call set one. */
  function BindNativeErr(e: Exit, o: Oracle): (r: Option<ErrRecord>)
    ensures r.Some? ==> e.ConnectFailed? || e.SendFailed? || (e.ReadFailed? && o.read.RecvFailed?)
    ensures e.ConnectFailed? || e.SendFailed? ==> r == Some(e.native)
    ensures e.ReadFailed? && o.read.RecvFailed? ==> r == Some(o.read.native)
  {
    match e
    case ConnectFailed(native) => Some(native)
    case SendFailed(native) => Some(native)
    case ReadFailed(_) => if o.read.RecvFailed? then Some(o.read.native) else None
    case _ => None
  }

  /** `doHook`: the hook's result, `null` when there is no hook or it returns `null`. */
  function DoHook<V>(h: Hook<V>): (r: Option<V>)
    ensures h.NoHook? ==> r.None?
    ensures h.Hook? ==> r == h.result
  {
    match h
    case NoHook => None
    case Hook(result) => result
  }

  /** PHP's `??`: the hook's value when it is non-null, else the default. */
  function OrElse<V>(h: Option<V>, default: BindResult<V>): BindResult<V>
  {
    match h
    case Some(v) => HookValue(v)
    case None => default
  }

  /** What `bind` returns: the chosen hook's non-null result, else the response or `false`. */
  function BindReturn<V>(e: Exit, success: Hook<V>, fail: Hook<V>): (r: BindResult<V>)
    // the success hook is consulted on acceptance only, the fail hook on every other exit
    ensures r.HookValue? <==> DoHook(if e.Accepted? then success else fail).Some?
    ensures r.HookValue? ==> Some(r.value) == DoHook(if e.Accepted? then success else fail)
    // without a hook value: the decoded response once one exists, else `false`
    ensures !r.HookValue? ==> (r.Response? <==> e.Rejected? || e.Accepted?)
    ensures r.Response? ==> (e.Rejected? || e.Accepted?) && r.resp == e.resp
    ensures r == BindFalse ==> !(e.Rejected? || e.Accepted?)
  {
    var hook := if e.Accepted? then success else fail;
    OrElse(DoHook(hook), if e.Rejected? || e.Accepted? then Response(e.resp) else BindFalse)
  }

  /**
   * As written, the second budget check can fail before the deadline: with a budget of
   * 3 and both checks at 2 after the start, the deadline is 1 away yet `bind` times out.
   */
  lemma SecondCheckFailsBeforeDeadline(o: Oracle, unpack: string -> Option<BindResp>)
    requires o.now1 == 2 && o.now2 == 2 && o.connect.Done?
    ensures BindExit(3, 0, o, unpack) == PostConnectTimeout
  {
  }
}
