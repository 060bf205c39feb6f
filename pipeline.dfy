/**
 * The outbound pipeline: what the writer coroutine of a bound session does with the
 * messages it pops from the queue. A plain frame is written; a close-directive (the
 * source's one-element array) has its frame written, then the client is closed and the
 * writer stops, so nothing queued behind it is ever written.
 */
module Pipeline {
  import opened Transport

  /** An outbound message: a plain frame, or a close-directive carrying its final frame. */
  datatype Msg = Plain(frame: string) | Final(frame: string)

  /** The transport actions of the writer as it pops the messages of `q` in order. */
  function WriterTrace(q: seq<Msg>): seq<Event>
  {
    if q == [] then []
    else match q[0]
      case Plain(f) => [Write(f)] + WriterTrace(q[1..])
      case Final(f) => [Write(f), CloseClient]
  }

  /** The position of the first close-directive in `q`, or `|q|` when there is none. */
  function FirstFinal(q: seq<Msg>): (k: nat)
    ensures k <= |q|
    ensures forall i :: 0 <= i < k ==> q[i].Plain?
    ensures k < |q| ==> q[k].Final?
  {
    if q == [] then 0
    else if q[0].Final? then 0
    else 1 + FirstFinal(q[1..])
  }

  predicate HasFinal(q: seq<Msg>) {
    FirstFinal(q) < |q|
  }

  /** One write per message, in the given order: the reference the writer is compared against. */
  function Writes(q: seq<Msg>): (w: seq<Event>)
    ensures |w| == |q|
    ensures forall i :: 0 <= i < |q| ==> w[i] == Write(q[i].frame)
  {
    seq(|q|, i requires 0 <= i < |q| => Write(q[i].frame))
  }

  /**
   * The writer writes the frames in pop order up to and including the first
   * close-directive, then closes the client once; without a close-directive it
   * writes every frame and never closes.
   */
  lemma {:induction false} WriterWritesInPopOrder(q: seq<Msg>)
    ensures HasFinal(q) ==> WriterTrace(q) == Writes(q[..FirstFinal(q) + 1]) + [CloseClient]
    ensures !HasFinal(q) ==> WriterTrace(q) == Writes(q)
  {
    if q == [] {
    } else if q[0].Final? {
      assert q[..1] == [q[0]];
    } else {
      var k := FirstFinal(q);
      WriterWritesInPopOrder(q[1..]);
      assert WriterTrace(q) == [Write(q[0].frame)] + WriterTrace(q[1..]);
      assert k == 1 + FirstFinal(q[1..]);
      if HasFinal(q) {
        var p := q[..k + 1];
        WritesCons(p);
        assert p[0] == q[0];
        assert p[1..] == q[1..][..FirstFinal(q[1..]) + 1];
      } else {
        WritesCons(q);
      }
    }
  }

  /** `Writes` of a non-empty queue starts with the write of its head. */
  lemma WritesCons(q: seq<Msg>)
    requires q != []
    ensures Writes(q) == [Write(q[0].frame)] + Writes(q[1..])
  {
  }

  /** The writer closes the client at most once, and only as its very last action. */
  lemma {:induction false} WriterClosesOnceAtEnd(q: seq<Msg>)
    ensures CloseClient in WriterTrace(q) <==> HasFinal(q)
    ensures forall i :: 0 <= i < |WriterTrace(q)| - 1 ==> WriterTrace(q)[i].Write?
  {
    if q != [] && q[0].Plain? {
      WriterClosesOnceAtEnd(q[1..]);
      assert WriterTrace(q) == [Write(q[0].frame)] + WriterTrace(q[1..]);
    }
  }

  /**
   * Draining `q` and then `r` is draining `q + r` when `q` holds no close-directive;
   * once `q` holds one, nothing of `r` is ever written.
   */
  lemma {:induction false} WriterTraceAppend(q: seq<Msg>, r: seq<Msg>)
    ensures !HasFinal(q) ==> WriterTrace(q + r) == WriterTrace(q) + WriterTrace(r)
    ensures HasFinal(q) ==> WriterTrace(q + r) == WriterTrace(q)
  {
    if q == [] {
      assert q + r == r;
    } else {
      assert (q + r)[0] == q[0];
      assert (q + r)[1..] == q[1..] + r;
      if q[0].Plain? {
        WriterTraceAppend(q[1..], r);
      }
    }
  }

  /** How many messages the writer pops and writes from `q`: up to and including the first close-directive. */
  function WrittenCount(q: seq<Msg>): (n: nat)
    ensures n <= |q|
    ensures n == |q| <==> !HasFinal(q) || FirstFinal(q) == |q| - 1
  {
    if HasFinal(q) then FirstFinal(q) + 1 else |q|
  }

  /**
   * The client's native error after the writer drains `q`, starting from `e`: a failed
   * write sets it, a successful one leaves it. `sent(i)` is the result of the i-th write,
   * counted from `from`.
   */
  function WriterNative(q: seq<Msg>, sent: nat -> IoResult, from: nat, e: ErrRecord): ErrRecord
  {
    if q == [] then e
    else
      var e' := if sent(from).IoFailed? then sent(from).native else e;
      if q[0].Final? then e' else WriterNative(q[1..], sent, from + 1, e')
  }

  /** The error of the last failed write among writes `lo` to `hi - 1`, or `e` when none failed. */
  function LastFailure(sent: nat -> IoResult, lo: nat, hi: nat, e: ErrRecord): (r: ErrRecord)
    decreases hi
    ensures (forall i :: lo <= i < hi ==> sent(i).Done?) ==> r == e
    ensures r == e || exists j :: lo <= j < hi && sent(j) == IoFailed(r) && forall i :: j < i < hi ==> sent(i).Done?
  {
    if hi <= lo then e
    else if sent(hi - 1).IoFailed? then sent(hi - 1).native
    else LastFailure(sent, lo, hi - 1, e)
  }

  /** Taking the first write's result into the start value shifts the range by one. */
  lemma {:induction false} LastFailureShift(sent: nat -> IoResult, lo: nat, hi: nat, e: ErrRecord)
    requires lo < hi
    ensures LastFailure(sent, lo, hi, e) ==
            LastFailure(sent, lo + 1, hi, if sent(lo).IoFailed? then sent(lo).native else e)
    decreases hi
  {
    if hi - 1 > lo && !sent(hi - 1).IoFailed? {
      LastFailureShift(sent, lo, hi - 1, e);
    }
  }

  /**
   * After the writer drains `q`, the client's native error is that of the last write that
   * failed, among the messages it wrote; when none failed it is unchanged.
   */
  lemma {:induction false} WriterKeepsLastFailure(q: seq<Msg>, sent: nat -> IoResult, from: nat, e: ErrRecord)
    ensures WriterNative(q, sent, from, e) == LastFailure(sent, from, from + WrittenCount(q), e)
  {
    if q != [] {
      LastFailureShift(sent, from, from + WrittenCount(q), e);
      var e' := if sent(from).IoFailed? then sent(from).native else e;
      if q[0].Plain? {
        WriterKeepsLastFailure(q[1..], sent, from + 1, e');
        assert WrittenCount(q) == 1 + WrittenCount(q[1..]);
      }
    }
  }
}
