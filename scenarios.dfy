/** Whole-session runs built only from the contracts of the session's methods. */
module Scenarios {
  import opened Wrappers
  import opened Transport
  import opened Pipeline
  import opened Handshake
  import opened Session

  /** A bind response frame of the minimum length. */
  const ResponseFrame := "0123456789abcdef"

  /** An attempt in which every call succeeds at time 1, for a bind started at time 0. */
  function Smooth(read: ReadOutcome): Oracle {
    Oracle(1, 1, Done, Done, read)
  }

  /**
   * After a successful bind, a plain frame and then a close-directive are sent: both
   * frames are written in that order, the client is closed, the queue is gone, and a
   * third send afterwards puts nothing on the wire.
   */
  method CloseDirectiveRun(frame: string, finalFrame: string, late: string)
    returns (wire: seq<Event>, queueGone: bool)
    ensures wire == [Write(frame), Write(finalFrame), CloseClient]
    ensures queueGone
  {
    var owner := new Owner();
    var s := new Session(owner);
    var resp := BindResp(EsmeRok, map[]);
    var unpack := (_: string) => Some(resp);
    assert Classify(Received(ResponseFrame)) == Frame(ResponseFrame);
    assert BindExit(5, 0, Smooth(Received(ResponseFrame)), unpack) == Accepted(resp);
    var r := s.Bind<bool>("127.0.0.1", 2775, "acct", "pwd", 5, 0, Smooth(Received(ResponseFrame)),
                          (a, p) => a + p, unpack, NoHook, NoHook);
    assert r == Response(resp);
    assert s.channel == Some([]) && s.channel.value == [];
    var before := |s.trace|;
    s.Send(Plain(frame));
    assert s.channel.value == [] + [Plain(frame)] == [Plain(frame)];
    s.Send(Final(finalFrame));
    assert s.channel.value == [Plain(frame)] + [Final(finalFrame)] == [Plain(frame), Final(finalFrame)];
    assert FirstFinal([Plain(frame), Final(finalFrame)]) == 1;
    s.RunWriter(_ => Done);
    s.Send(Plain(late));
    s.RunWriter(_ => Done);
    wire := s.trace[before..];
    queueGone := s.channel.None?;
  }

  /** A second successful bind while the queue is live starts no second queue or writer. */
  method RepeatedBindRun() returns (started: nat, queue: Option<seq<Msg>>)
    ensures started == 1
    ensures queue == Some([])
  {
    var owner := new Owner();
    var s := new Session(owner);
    var resp := BindResp(EsmeRok, map[]);
    var r1 := s.Bind<bool>("127.0.0.1", 2775, "acct", "pwd", 5, 0, Smooth(Received(ResponseFrame)),
                           (a, p) => a + p, _ => Some(resp), NoHook, NoHook);
    var r2 := s.Bind<bool>("127.0.0.1", 2775, "acct", "pwd", 5, 0, Smooth(Received(ResponseFrame)),
                           (a, p) => a + p, _ => Some(resp), NoHook, NoHook);
    started, queue := s.writersStarted, s.channel;
  }

  /**
   * A peer that never answers: the read times out with the native code 110, `bind`
   * returns `false`, the client is closed, and 110 is what the owner sees.
   */
  method SilentPeerRun() returns (r: BindResult<bool>, lastAction: Event, code: int)
    ensures r == BindFalse
    ensures lastAction == CloseClient
    ensures code == ConnectionTimedOut
  {
    var owner := new Owner();
    var s := new Session(owner);
    var timedOut := ErrRecord(ConnectionTimedOut, "Connection timed out");
    r := s.Bind<bool>("127.0.0.1", 2775, "acct", "pwd", 5, 0, Smooth(RecvFailed(timedOut)),
                      (a, p) => a + p, _ => None, NoHook, NoHook);
    lastAction := s.trace[|s.trace| - 1];
    code := owner.lastErr.code;
  }

  /**
   * A write by the writer times out with the native code 110; the client's error code
   * now reads 110, so a later `unbind` enqueues nothing.
   */
  method WriterTimeoutSilencesUnbind(frame: string, unbindPdu: string)
    returns (code: int, queue: Option<seq<Msg>>)
    ensures code == ConnectionTimedOut
    ensures queue == Some([])
  {
    var owner := new Owner();
    var s := new Session(owner);
    var resp := BindResp(EsmeRok, map[]);
    var unpack := (_: string) => Some(resp);
    assert Classify(Received(ResponseFrame)) == Frame(ResponseFrame);
    assert BindExit(5, 0, Smooth(Received(ResponseFrame)), unpack) == Accepted(resp);
    var r := s.Bind<bool>("127.0.0.1", 2775, "acct", "pwd", 5, 0, Smooth(Received(ResponseFrame)),
                          (a, p) => a + p, unpack, NoHook, NoHook);
    assert s.channel == Some([]);
    s.Send(Plain(frame));
    assert s.channel.value == [] + [Plain(frame)] == [Plain(frame)];
    var timedOut := ErrRecord(ConnectionTimedOut, "Connection timed out");
    s.RunWriter(_ => IoFailed(timedOut));
    code := s.nativeErr.code;
    s.Unbind(unbindPdu);
    queue := s.channel;
  }
}

