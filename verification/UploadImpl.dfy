/** The upload operations as objects: each completion advances stage, counters and cursor in place.

    `sent`, `wire` and `ended` are history: what reached the socket, and whether the protocol
    library has been told that the body is complete.
 */
module UploadImpl {
  import opened Geometry
  import opened Upload

  /** `prepare_upload`: the announced length is that of all the sources together. */
  method TotalLength(segments: seq<Segment>) returns (length: nat)
    ensures length == |Concat(segments)|
  {
    length := 0;
    var k := 0;
    while k < |segments|
      invariant k <= |segments| && length == |Concat(segments[..k])|
    {
      ConcatAt(segments, k);
      length := length + |segments[k].bytes|;
      k := k + 1;
    }
    assert segments[..k] == segments;
  }

  class Http1Operation {
    const source: SourceCursor
    var remaining: nat
    var stage: Stage
    ghost var sent: seq<Byte>

    ghost function Value(): Http1
      reads this, source
    {
      Http1(source.segments, source.At(), remaining, stage, sent)
    }

    constructor (segments: seq<Segment>)
      ensures Value() == Begin1(segments) && fresh(source)
    {
      source := new SourceCursor(segments);
      var length := TotalLength(segments);
      remaining := length;
      stage, sent := SendHead, [];
    }

    method UploadNext(capacity: nat)
      requires Fits(source.segments, source.At())
      modifies this, source
      ensures Value() == Upload.UploadNext(old(Value()), capacity)
    {
      hide Concat;
      if remaining == 0 {
        stage := Receiving;
        return;
      }
      SkipKeeps(source.segments, source.At());
      var ok, bytes, kind := source.Source(remaining);
      if !ok {
        stage := Exhausted;
        return;
      }
      match kind
      case Memory => stage := Sending(bytes, true);
      case Stream => stage := Sending(bytes, false);
      case Seekable => stage := Piping(bytes[..Min(|bytes|, capacity)]);
    }

    /** A transfer of `n` bytes completed. */
    method Advance(n: nat, capacity: nat)
      requires Inv1(Value()) && Possible(stage, n) && capacity > 0
      modifies this, source
      ensures Inv1(Value()) && Value() == Advance1(old(Value()), n, capacity)
    {
      hide Inv1, Upload.UploadNext, Fits;
      Step1KeepsInv(Value(), n, capacity);
      SendingInSource(Value());
      match stage
      case SendHead => UploadNext(capacity);
      case Sending(chunk, _) =>
        source.Consume(n);
        remaining := remaining - n;
        sent := sent + chunk[..n];
        UploadNext(capacity);
      case Piping(chunk) => stage := Sending(chunk[..n], true);
    }
  }

  class Http2Operation {
    const source: SourceCursor
    var unannounced: nat
    var frame: nat
    var ready: bool
    var stage: Stage2
    ghost var ended: bool
    ghost var wire: seq<Wire>

    ghost function Value(): Http2
      reads this, source
    {
      Http2(source.segments, source.At(), unannounced, frame, ready, ended, stage, wire)
    }

    constructor (segments: seq<Segment>)
      ensures Value() == Begin2(segments) && fresh(source)
    {
      source := new SourceCursor(segments);
      var length := TotalLength(segments);
      unannounced := length;
      frame, ready, stage, ended, wire := 0, true, Flush, false, [];
    }

    /** The library asks for a DATA frame of at most `window` bytes: `read_upload`, `on_send_data` and `flush`. */
    method Announce(window: nat) returns (length: nat, last: bool)
      requires Inv2(Value()) && stage == Flush && !ended
      modifies this
      ensures Enabled2(old(Value()), Event2.Announce(window))
      ensures Value() == Apply2(old(Value()), Event2.Announce(window), 0)
      ensures length == frame == Min(window, old(unannounced)) && last == ended
    {
      hide Concat, Framing, BodyBytes;
      length := Min(window, unannounced);
      last := length == unannounced;
      ended := last;
      unannounced := unannounced - length;
      ready := false;
      frame := length;
      stage := HeaderOut;
    }

    method UploadBody(capacity: nat)
      requires Fits(source.segments, source.At())
      modifies this, source
      ensures Value() == Upload.UploadBody(old(Value()), capacity)
    {
      hide Concat;
      if frame == 0 {
        ready := true;
        stage := Flush;
        return;
      }
      SkipKeeps(source.segments, source.At());
      var ok, bytes, kind := source.Source(frame);
      if !ok {
        stage := NoSource;
        return;
      }
      match kind
      case Memory => stage := BodyOut(bytes, true);
      case Stream => stage := BodyOut(bytes, false);
      case Seekable => stage := PipeOut(bytes[..Min(|bytes|, capacity)]);
    }

    /** A transfer of `n` bytes completed. */
    method Advance(n: nat, capacity: nat)
      requires Inv2(Value()) && Enabled2(Value(), Done(n)) && capacity > 0
      modifies this, source
      ensures Inv2(Value()) && Value() == Apply2(old(Value()), Done(n), capacity)
    {
      hide Inv2, Upload.UploadBody, Fits;
      Step2KeepsInv(Value(), Done(n), capacity);
      ChunkInSource(Value());
      match stage
      case HeaderOut =>
        wire := wire + [DataHeader(frame, ended)];
        UploadBody(capacity);
      case PipeOut(chunk) => stage := BodyOut(chunk[..n], true);
      case BodyOut(chunk, _) =>
        source.Consume(n);
        frame := frame - n;
        wire := wire + [Body(chunk[..n])];
        UploadBody(capacity);
    }
  }

  /** What is under way fits the current segment and what remains to be sent. */
  lemma SendingInSource(h: Http1)
    requires Inv1(h)
    ensures Fits(h.segments, h.at)
    ensures h.stage.Sending? ==> InSource(h.segments, h.at, |h.stage.chunk|) && |h.stage.chunk| <= h.remaining
  {
  }

  lemma ChunkInSource(h: Http2)
    requires Inv2(h)
    ensures Fits(h.segments, h.at)
    ensures h.stage.BodyOut? ==> InSource(h.segments, h.at, |h.stage.chunk|) && |h.stage.chunk| <= h.frame
  {
  }

  predicate InSource(segments: seq<Segment>, c: Cursor, n: nat)
  {
    c.index < |segments| && c.consumed + n <= |segments[c.index].bytes|
  }
}
