/**
 * The receive loop (`recv`) as a function of the read outcomes it meets: what it pushes
 * onto the owning client's inbound queue, whether it closes the session, and which
 * errors it leaves recorded. It stops at the first read whose recorded code is fatal
 * (8 or 110); every other failed read is skipped and the loop reads again.
 */
module Inbound {
  import opened Wrappers
  import opened Transport

  /** A decoded PDU as `handlePdu` returns it: the fields of a PHP array. */
  type Decoded = map<string, string>

  /** What the loop pushes: the `false` sentinel that tells readers the session died, or a PDU. */
  datatype Pushed = Sentinel | Pdu(fields: Decoded)

  /** PHP truthiness of `handlePdu`'s result: `null`/`false` (None) and the empty array are falsy. */
  predicate Truthy(d: Option<Decoded>) {
    d.Some? && d.value != map[]
  }

  /** What one read contributes to the inbound queue, before the loop decides whether to go on. */
  function StepPushes(o: ReadOutcome, handlePdu: string -> Option<Decoded>): seq<Pushed>
  {
    match Classify(o)
    case Failed(_) => if IsFatal(Classify(o).err.code) then [Sentinel] else []
    case Frame(f) => if Truthy(handlePdu(f)) then [Pdu(handlePdu(f).value)] else []
  }

  /** Everything the loop pushes over the outcomes `os`. */
  function RecvPushes(os: seq<ReadOutcome>, handlePdu: string -> Option<Decoded>): seq<Pushed>
  {
    if os == [] then []
    else if FatalOutcome(os[0]) then [Sentinel]
    else StepPushes(os[0], handlePdu) + RecvPushes(os[1..], handlePdu)
  }

  /** The transport actions of the loop: one session close when it meets a fatal read. */
  function RecvTrace(os: seq<ReadOutcome>): seq<Event>
  {
    if os == [] then []
    else if FatalOutcome(os[0]) then [CloseSession]
    else RecvTrace(os[1..])
  }

  /** The owner's last recorded error and the client's native error. */
  datatype Errs = Errs(last: ErrRecord, native: ErrRecord)

  /** How one read changes the recorded errors. */
  function StepErrs(o: ReadOutcome, e: Errs): Errs
  {
    Errs(if Classify(o).Failed? then Classify(o).err else e.last,
         if o.RecvFailed? then o.native else e.native)
  }

  /** The recorded errors after the loop has run over `os`, starting from `e`. */
  function RecvErrs(os: seq<ReadOutcome>, e: Errs): Errs
  {
    if os == [] then e
    else if FatalOutcome(os[0]) then StepErrs(os[0], e)
    else RecvErrs(os[1..], StepErrs(os[0], e))
  }

  /** The inbound queue after the loop has run over `os`, starting from the queue `acc`. */
  function RecvInto(os: seq<ReadOutcome>, handlePdu: string -> Option<Decoded>, acc: seq<Pushed>): seq<Pushed>
  {
    if os == [] then acc
    else if FatalOutcome(os[0]) then acc + StepPushes(os[0], handlePdu)
    else RecvInto(os[1..], handlePdu, acc + StepPushes(os[0], handlePdu))
  }

  /** Running the loop onto a queue appends to it exactly what the loop pushes. */
  lemma {:induction false} RecvIntoAppends(os: seq<ReadOutcome>, handlePdu: string -> Option<Decoded>, acc: seq<Pushed>)
    ensures RecvInto(os, handlePdu, acc) == acc + RecvPushes(os, handlePdu)
  {
    if os != [] && !FatalOutcome(os[0]) {
      var step := StepPushes(os[0], handlePdu);
      RecvIntoAppends(os[1..], handlePdu, acc + step);
      ConcatAssoc(acc, step, RecvPushes(os[1..], handlePdu));
    }
  }

  /** Sequence concatenation is associative. */
  lemma ConcatAssoc<T>(a: seq<T>, b: seq<T>, c: seq<T>)
    ensures (a + b) + c == a + (b + c)
  {
  }

  /** The position of the first fatal read, or `|os|` when there is none. */
  function FirstFatal(os: seq<ReadOutcome>): (k: nat)
    ensures k <= |os|
    ensures forall i :: 0 <= i < k ==> !FatalOutcome(os[i])
    ensures k < |os| ==> FatalOutcome(os[k])
  {
    if os == [] then 0
    else if FatalOutcome(os[0]) then 0
    else 1 + FirstFatal(os[1..])
  }

  /**
   * The sentinel is pushed exactly when some read is fatal, and then exactly once,
   * as the last element; the session is closed in exactly the same case.
   */
  lemma {:induction false} SentinelOnlyAtEnd(os: seq<ReadOutcome>, handlePdu: string -> Option<Decoded>)
    ensures var p := RecvPushes(os, handlePdu);
      && (Sentinel in p <==> FirstFatal(os) < |os|)
      && (forall i :: 0 <= i < |p| && p[i] == Sentinel ==> i == |p| - 1)
    ensures RecvTrace(os) == if FirstFatal(os) < |os| then [CloseSession] else []
  {
    if os != [] && !FatalOutcome(os[0]) {
      SentinelOnlyAtEnd(os[1..], handlePdu);
      var s := StepPushes(os[0], handlePdu);
      assert Sentinel !in s;
      var p := RecvPushes(os, handlePdu);
      assert p == s + RecvPushes(os[1..], handlePdu);
      forall i | 0 <= i < |p| && p[i] == Sentinel
        ensures i == |p| - 1
      {
        assert i >= |s|;
        assert RecvPushes(os[1..], handlePdu)[i - |s|] == Sentinel;
      }
    }
  }

  /**
   * Reading `a` and then `b` pushes what `a` pushes followed by what `b` pushes, as long
   * as `a` holds no fatal read; once it does, nothing of `b` is read.
   */
  lemma {:induction false} RecvPushesAppend(a: seq<ReadOutcome>, b: seq<ReadOutcome>, handlePdu: string -> Option<Decoded>)
    ensures FirstFatal(a) == |a| ==> RecvPushes(a + b, handlePdu) == RecvPushes(a, handlePdu) + RecvPushes(b, handlePdu)
    ensures FirstFatal(a) < |a| ==> RecvPushes(a + b, handlePdu) == RecvPushes(a, handlePdu)
  {
    if a == [] {
      assert a + b == b;
    } else {
      assert (a + b)[0] == a[0];
      assert (a + b)[1..] == a[1..] + b;
      if !FatalOutcome(a[0]) {
        RecvPushesAppend(a[1..], b, handlePdu);
        if FirstFatal(a) == |a| {
          ConcatAssoc(StepPushes(a[0], handlePdu), RecvPushes(a[1..], handlePdu), RecvPushes(b, handlePdu));
        }
      }
    }
  }

  /** The bytes of the reads that delivered a frame, in read order. */
  function Frames(os: seq<ReadOutcome>): (fs: seq<string>)
    ensures |fs| <= |os|
    ensures forall f :: f in fs ==> exists i :: 0 <= i < |os| && Classify(os[i]) == Frame(f)
  {
    if os == [] then []
    else (if Classify(os[0]).Frame? then [Classify(os[0]).bytes] else []) + Frames(os[1..])
  }

  /** The PDUs `handlePdu` decodes truthily from the frames `fs`, in order. */
  function TruthyDecodings(fs: seq<string>, handlePdu: string -> Option<Decoded>): (p: seq<Pushed>)
    ensures |p| <= |fs|
    ensures forall x :: x in p ==> exists f :: f in fs && Truthy(handlePdu(f)) && x == Pdu(handlePdu(f).value)
  {
    if fs == [] then []
    else (if Truthy(handlePdu(fs[0])) then [Pdu(handlePdu(fs[0]).value)] else []) + TruthyDecodings(fs[1..], handlePdu)
  }

  /**
   * Without a fatal read, the loop pushes the truthy decodings of the frames, in order:
   * failed reads push nothing, and neither do frames that decode to a falsy value.
   */
  lemma {:induction false} RecvPushesOnlyTruthyPdus(os: seq<ReadOutcome>, handlePdu: string -> Option<Decoded>)
    requires FirstFatal(os) == |os|
    ensures RecvPushes(os, handlePdu) == TruthyDecodings(Frames(os), handlePdu)
    ensures forall x :: x in RecvPushes(os, handlePdu) ==> x.Pdu? && x.fields != map[]
    ensures |RecvPushes(os, handlePdu)| <= |os|
  {
    if os != [] {
      RecvPushesOnlyTruthyPdus(os[1..], handlePdu);
      var rest := Frames(os[1..]);
      if Classify(os[0]).Frame? {
        var f := Classify(os[0]).bytes;
        assert Frames(os) == [f] + rest;
        assert ([f] + rest)[1..] == rest;
      } else {
        assert Frames(os) == rest;
      }
    }
  }
}
