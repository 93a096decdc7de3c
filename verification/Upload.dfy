/** Asynchronous uploads: many source segments, short transfers, one byte stream.

    The body of a request is the concatenation of its source segments. HTTP/1.1 sends it
    bare; HTTP/2 cuts it into DATA frames whose lengths the peer's windows decide. Every
    transfer may be shorter than asked for.
 */
module Upload {
  import opened Geometry
  import EntryWorld

  type Byte = EntryWorld.Byte

  /** Where bytes come from: memory, a pipe that is spliced straight to the socket, or a file that goes through a pipe. */
  datatype Kind = Memory | Stream | Seekable

  /** `bytes` are what reading the slice of the source yields. */
  datatype Segment = Segment(bytes: seq<Byte>, kind: Kind)

  /** Current segment and how much of it has been consumed. */
  datatype Cursor = Cursor(index: nat, consumed: nat)

  function Concat(segments: seq<Segment>): seq<Byte>
  {
    if segments == [] then [] else segments[0].bytes + Concat(segments[1..])
  }

  predicate Fits(segments: seq<Segment>, c: Cursor)
  {
    c.index <= |segments| && c.consumed <= if c.index < |segments| then |segments[c.index].bytes| else 0
  }

  /** How many bytes of the whole body lie before the cursor. */
  function Position(segments: seq<Segment>, c: Cursor): nat
    requires c.index <= |segments|
  {
    |Concat(segments[..c.index])| + c.consumed
  }

  /** Past segments that are used up, the empty ones among them. */
  function Skip(segments: seq<Segment>, c: Cursor): Cursor
    requires Fits(segments, c)
    decreases |segments| - c.index
  {
    if c.index < |segments| && c.consumed == |segments[c.index].bytes| then Skip(segments, Cursor(c.index + 1, 0)) else c
  }

  /** The next bytes of the current segment, at most `maximum`. */
  function Slice(segments: seq<Segment>, c: Cursor, maximum: nat): seq<Byte>
    requires Fits(segments, c) && c.index < |segments|
  {
    segments[c.index].bytes[c.consumed..Min(c.consumed + maximum, |segments[c.index].bytes|)]
  }

  lemma {:induction false} ConcatAppend(a: seq<Segment>, b: seq<Segment>)
    ensures Concat(a + b) == Concat(a) + Concat(b)
  {
    if a == [] {
      assert a + b == b;
    } else {
      assert (a + b)[1..] == a[1..] + b;
      ConcatAppend(a[1..], b);
    }
  }

  /** The body, cut at segment `i`. */
  lemma ConcatAt(segments: seq<Segment>, i: nat)
    requires i < |segments|
    ensures Concat(segments) == Concat(segments[..i]) + segments[i].bytes + Concat(segments[i + 1..])
    ensures Concat(segments[..i + 1]) == Concat(segments[..i]) + segments[i].bytes
  {
    hide Concat;
    SplitAt(segments, i);
    ConcatCut(segments, segments[..i + 1], segments[..i], segments[i], segments[i + 1..]);
  }

  lemma SplitAt(segments: seq<Segment>, i: nat)
    requires i < |segments|
    ensures segments[..i + 1] == segments[..i] + [segments[i]] && segments == segments[..i + 1] + segments[i + 1..]
  {
  }

  lemma ConcatCut(all: seq<Segment>, front: seq<Segment>, a: seq<Segment>, s: Segment, b: seq<Segment>)
    requires front == a + [s] && all == front + b
    ensures Concat(front) == Concat(a) + s.bytes && Concat(all) == Concat(a) + s.bytes + Concat(b)
  {
    hide Concat;
    ConcatAppend(a, [s]);
    ConcatAppend(front, b);
    ConcatOne(s);
  }

  lemma ConcatOne(s: Segment)
    ensures Concat([s]) == s.bytes
  {
    assert Concat([s]) == s.bytes + [];
  }

  lemma {:induction false} SkipKeeps(segments: seq<Segment>, c: Cursor)
    requires Fits(segments, c)
    ensures var d := Skip(segments, c);
            && Fits(segments, d) && Position(segments, d) == Position(segments, c) <= |Concat(segments)|
            && (d.index < |segments| ==> d.consumed < |segments[d.index].bytes|)
            && (d.index == |segments| <==> Position(segments, c) == |Concat(segments)|)
    decreases |segments| - c.index
  {
    if c.index < |segments| {
      ConcatAt(segments, c.index);
      if c.consumed == |segments[c.index].bytes| { SkipKeeps(segments, Cursor(c.index + 1, 0)); }
    } else {
      assert segments[..c.index] == segments;
    }
  }

  /** A slice at the cursor is the body at its position. */
  lemma SliceOfBody(segments: seq<Segment>, c: Cursor, maximum: nat)
    requires Fits(segments, c) && c.index < |segments|
    ensures var s, p := Slice(segments, c, maximum), Position(segments, c);
            p + |s| <= |Concat(segments)| && s == Concat(segments)[p..p + |s|] && |s| <= maximum
    ensures c.consumed < |segments[c.index].bytes| && maximum > 0 ==> |Slice(segments, c, maximum)| > 0
  {
    ConcatAt(segments, c.index);
  }

  /** `upload_source` and `consume_upload_source` with the source's loop. */
  class SourceCursor {
    const segments: seq<Segment>
    var index: nat
    var consumed: nat

    ghost function At(): Cursor
      reads this
    {
      Cursor(index, consumed)
    }

    constructor (segments: seq<Segment>)
      ensures this.segments == segments && At() == Cursor(0, 0) && Fits(segments, At())
    {
      this.segments := segments;
      index, consumed := 0, 0;
    }

    /** Fails exactly when the body is used up; otherwise yields the next bytes of the body. */
    method Source(maximum: nat) returns (ok: bool, bytes: seq<Byte>, kind: Kind)
      requires Fits(segments, At())
      modifies this
      ensures At() == Skip(segments, old(At())) && Fits(segments, At())
      ensures ok <==> Position(segments, old(At())) < |Concat(segments)|
      ensures ok ==> index < |segments| && bytes == Slice(segments, At(), maximum) && kind == segments[index].kind
      ensures ok ==> var p := Position(segments, old(At()));
                     p + |bytes| <= |Concat(segments)| && bytes == Concat(segments)[p..p + |bytes|] && |bytes| <= maximum &&
                     (maximum > 0 ==> |bytes| > 0)
    {
      SkipKeeps(segments, At());
      ghost var c := At();
      while index < |segments| && consumed == |segments[index].bytes|
        invariant Fits(segments, At()) && Skip(segments, At()) == Skip(segments, c)
        decreases |segments| - index
      {
        index := index + 1;
        consumed := 0;
      }
      if index == |segments| {
        return false, [], Memory;
      }
      SliceOfBody(segments, At(), maximum);
      ok, bytes, kind := true, segments[index].bytes[consumed..Min(consumed + maximum, |segments[index].bytes|)], segments[index].kind;
    }

    method Consume(size: nat)
      requires index < |segments| && consumed + size <= |segments[index].bytes|
      modifies this
      ensures At() == Cursor(old(index), old(consumed) + size)
      ensures Fits(segments, At()) && Position(segments, At()) == old(Position(segments, At())) + size
    {
      consumed := consumed + size;
    }
  }

  // ---------------------------------------------------------------- HTTP/1.1

  /** `Sending` waits for bytes to reach the socket, `Piping` for file bytes to reach the staging pipe. */
  datatype Stage = SendHead | Sending(chunk: seq<Byte>, exact: bool) | Piping(chunk: seq<Byte>) | Receiving | Exhausted

  datatype Http1 = Http1(segments: seq<Segment>, at: Cursor, remaining: nat, stage: Stage, sent: seq<Byte>)

  function Begin1(segments: seq<Segment>): (h: Http1)
    ensures Inv1(h)
  {
    assert segments[..0] == [];
    Http1(segments, Cursor(0, 0), |Concat(segments)|, SendHead, [])
  }

  /** What to post for the next bytes; `capacity` is that of the staging pipe. */
  function Post(segments: seq<Segment>, c: Cursor, maximum: nat, capacity: nat): Stage
    requires Fits(segments, c) && c.index < |segments|
  {
    var s := Slice(segments, c, maximum);
    match segments[c.index].kind
    case Memory => Sending(s, true)
    case Stream => Sending(s, false)
    case Seekable => Piping(s[..Min(|s|, capacity)])
  }

  function UploadNext(h: Http1, capacity: nat): Http1
    requires Fits(h.segments, h.at)
  {
    if h.remaining == 0 then h.(stage := Receiving)
    else
      var c := Skip(h.segments, h.at);
      SkipKeeps(h.segments, h.at);
      if c.index == |h.segments| then h.(at := c, stage := Exhausted)
      else h.(at := c, stage := Post(h.segments, c, h.remaining, capacity))
  }

  /** The results a transfer may have: everything when it was posted as exact, otherwise at least one byte. */
  predicate Possible(stage: Stage, n: nat)
  {
    match stage
    case SendHead => true
    case Sending(chunk, exact) => if exact then n == |chunk| else 0 < n <= |chunk|
    case Piping(chunk) => 0 < n <= |chunk|
    case _ => false
  }

  function Advance1(h: Http1, n: nat, capacity: nat): Http1
    requires Inv1(h) && Possible(h.stage, n)
  {
    match h.stage
    case SendHead => UploadNext(h, capacity)
    case Sending(chunk, _) =>
      UploadNext(h.(at := Cursor(h.at.index, h.at.consumed + n), remaining := h.remaining - n, sent := h.sent + chunk[..n]),
                 capacity)
    case Piping(chunk) => h.(stage := Sending(chunk[..n], true))
  }

  /** The chunk under way is the next piece of the body and lies in the current segment. */
  predicate ChunkOk(segments: seq<Segment>, c: Cursor, position: nat, chunk: seq<Byte>)
  {
    && c.index < |segments| && c.consumed + |chunk| <= |segments[c.index].bytes| && |chunk| > 0
    && position + |chunk| <= |Concat(segments)| && chunk == Concat(segments)[position..position + |chunk|]
  }

  predicate Inv1(h: Http1)
  {
    && Fits(h.segments, h.at) && Position(h.segments, h.at) == |h.sent|
    && |h.sent| + h.remaining == |Concat(h.segments)| && h.sent == Concat(h.segments)[..|h.sent|]
    && match h.stage
       case SendHead => h.sent == []
       case Sending(chunk, _) => ChunkOk(h.segments, h.at, |h.sent|, chunk) && |chunk| <= h.remaining
       case Piping(chunk) => ChunkOk(h.segments, h.at, |h.sent|, chunk) && |chunk| <= h.remaining
       case Receiving => h.remaining == 0
       case Exhausted => false
  }

  lemma PostOk(segments: seq<Segment>, c: Cursor, maximum: nat, capacity: nat)
    requires Fits(segments, c) && c.index < |segments| && c.consumed < |segments[c.index].bytes| && maximum > 0 && capacity > 0
    ensures var st := Post(segments, c, maximum, capacity);
            (st.Sending? || st.Piping?) && ChunkOk(segments, c, Position(segments, c), st.chunk) && |st.chunk| <= maximum
  {
    SliceOfBody(segments, c, maximum);
    var s, p := Slice(segments, c, maximum), Position(segments, c);
    var t := s[..Min(|s|, capacity)];
    assert t == Concat(segments)[p..p + |t|];
  }

  /** As much as the segment, the request and, for a file, the staging pipe allow; only bytes of a spliced pipe may go
      out in part. */
  lemma PostIsMaximal(segments: seq<Segment>, c: Cursor, maximum: nat, capacity: nat)
    requires Fits(segments, c) && c.index < |segments|
    ensures var st := Post(segments, c, maximum, capacity);
            var room := Min(maximum, |segments[c.index].bytes| - c.consumed);
            match segments[c.index].kind
            case Memory => st.Sending? && st.exact && |st.chunk| == room
            case Stream => st.Sending? && !st.exact && |st.chunk| == room
            case Seekable => st.Piping? && |st.chunk| == Min(room, capacity)
  {
  }

  lemma NextKeepsInv(h: Http1, capacity: nat)
    requires capacity > 0 && Fits(h.segments, h.at) && Position(h.segments, h.at) == |h.sent|
    requires |h.sent| + h.remaining == |Concat(h.segments)| && h.sent == Concat(h.segments)[..|h.sent|]
    ensures Inv1(UploadNext(h, capacity))
  {
    SkipKeeps(h.segments, h.at);
    if h.remaining > 0 {
      PostOk(h.segments, Skip(h.segments, h.at), h.remaining, capacity);
      hide Post, Concat, Skip;
    }
  }

  /** A prefix of the body, continued by what follows it in the body. */
  lemma PrefixGrows(body: seq<Byte>, sent: seq<Byte>, chunk: seq<Byte>, n: nat)
    requires sent <= body && |sent| + |chunk| <= |body| && chunk == body[|sent|..|sent| + |chunk|] && n <= |chunk|
    ensures sent + chunk[..n] == body[..|sent| + n] && chunk[..n] == body[|sent|..|sent| + n]
  {
    assert sent == body[..|sent|];
  }

  lemma ConsumeKeeps(segments: seq<Segment>, c: Cursor, n: nat)
    requires c.index < |segments| && c.consumed + n <= |segments[c.index].bytes|
    ensures var d := Cursor(c.index, c.consumed + n);
            Fits(segments, d) && Position(segments, d) == Position(segments, c) + n
  {
  }

  lemma SentKeepsInv(h: Http1, n: nat, capacity: nat)
    requires Inv1(h) && h.stage.Sending? && n <= |h.stage.chunk| && capacity > 0
    ensures Inv1(UploadNext(h.(at := Cursor(h.at.index, h.at.consumed + n), remaining := h.remaining - n,
                               sent := h.sent + h.stage.chunk[..n]), capacity))
  {
    var t := h.(at := Cursor(h.at.index, h.at.consumed + n), remaining := h.remaining - n, sent := h.sent + h.stage.chunk[..n]);
    PrefixGrows(Concat(h.segments), h.sent, h.stage.chunk, n);
    ConsumeKeeps(h.segments, h.at, n);
    hide Concat, Position, Fits, Skip;
    NextKeepsInv(t, capacity);
  }

  lemma Step1KeepsInv(h: Http1, n: nat, capacity: nat)
    requires Inv1(h) && Possible(h.stage, n) && capacity > 0
    ensures Inv1(Advance1(h, n, capacity))
  {
    hide Concat, Skip, Slice;
    match h.stage
    case SendHead => NextKeepsInv(h, capacity);
    case Sending(chunk, _) => SentKeepsInv(h, n, capacity);
    case Piping(chunk) => PrefixGrows(Concat(h.segments), h.sent, chunk, n);
  }

  function Left1(h: Http1): nat
  {
    2 * h.remaining + match h.stage
                      case SendHead => 2
                      case Piping(_) => 1
                      case _ => 0
  }

  /** Every completed transfer brings the end nearer. */
  lemma Step1Progress(h: Http1, n: nat, capacity: nat)
    requires Inv1(h) && Possible(h.stage, n) && capacity > 0
    ensures Left1(Advance1(h, n, capacity)) < Left1(h)
  {
    Step1KeepsInv(h, n, capacity);
    hide Concat, Skip, Slice;
  }

  predicate Allowed1(h: Http1, results: seq<nat>, capacity: nat)
    requires Inv1(h) && capacity > 0
    decreases |results|
  {
    results == [] ||
    (Possible(h.stage, results[0]) &&
     (Step1KeepsInv(h, results[0], capacity); Allowed1(Advance1(h, results[0], capacity), results[1..], capacity)))
  }

  function Run1(h: Http1, results: seq<nat>, capacity: nat): Http1
    requires Inv1(h) && capacity > 0 && Allowed1(h, results, capacity)
    decreases |results|
  {
    if results == [] then h
    else Step1KeepsInv(h, results[0], capacity); Run1(Advance1(h, results[0], capacity), results[1..], capacity)
  }

  lemma {:induction false} Run1KeepsInv(h: Http1, results: seq<nat>, capacity: nat)
    requires Inv1(h) && capacity > 0 && Allowed1(h, results, capacity)
    ensures Inv1(Run1(h, results, capacity)) && Run1(h, results, capacity).segments == h.segments
    ensures |results| + Left1(Run1(h, results, capacity)) <= Left1(h)
    decreases |results|
  {
    if results != [] {
      Step1KeepsInv(h, results[0], capacity);
      Step1Progress(h, results[0], capacity);
      var t := Advance1(h, results[0], capacity);
      assert t.segments == h.segments;
      hide Inv1, Advance1, Possible, Left1;
      Run1KeepsInv(t, results[1..], capacity);
    }
  }

  /** Whatever the transfers return, the bytes sent are a prefix of the concatenated sources, the sources are never found
      exhausted, the response is awaited only when all has been sent, and the upload takes finitely many transfers. */
  lemma Http1SendsTheBody(segments: seq<Segment>, results: seq<nat>, capacity: nat)
    requires capacity > 0 && Allowed1(Begin1(segments), results, capacity)
    ensures var h := Run1(Begin1(segments), results, capacity);
            && h.sent <= Concat(segments) && h.stage != Exhausted
            && (h.stage == Receiving ==> h.sent == Concat(segments))
            && |results| <= 2 * |Concat(segments)| + 2
  {
    Run1KeepsInv(Begin1(segments), results, capacity);
  }

  // ---------------------------------------------------------------- HTTP/2

  /** What goes over the wire: the header of a DATA frame with its announced length and whether it is flagged as the
      last one, body bytes, or any other frame. */
  datatype Wire = DataHeader(length: nat, last: bool) | Body(bytes: seq<Byte>) | OtherFrame

  /** `Flush` asks the protocol library what to send next; the other stages wait for a transfer. */
  datatype Stage2 =
    | Flush
    | HeaderOut
    | BodyOut(chunk: seq<Byte>, whole: bool)
    | PipeOut(chunk: seq<Byte>)
    | Waiting
    | NoSource

  /** `unannounced` are body bytes not yet covered by a frame, `frame` those of the open frame still to be sent;
      `ready` lets the library ask for a frame, `ended` says that the last one has been announced. */
  datatype Http2 = Http2(
    segments: seq<Segment>, at: Cursor, unannounced: nat, frame: nat, ready: bool, ended: bool,
    stage: Stage2, wire: seq<Wire>)

  function Begin2(segments: seq<Segment>): (h: Http2)
    ensures Inv2(h)
  {
    assert segments[..0] == [];
    Http2(segments, Cursor(0, 0), |Concat(segments)|, 0, true, false, Flush, [])
  }

  datatype Event2 =
    | Announce(window: nat)   // the library wants a DATA frame of at most this length
    | Other                   // the library sends some other frame
    | Nothing                 // the library has nothing to send
    | Received                // something arrived; ask the library again
    | Done(n: nat)            // the transfer under way moved `n` bytes

  predicate Enabled2(h: Http2, event: Event2)
  {
    match event
    case Announce(_) => h.stage == Flush && h.ready && !h.ended
    case Other => h.stage == Flush
    case Nothing => h.stage == Flush
    case Received => h.stage == Waiting
    case Done(n) =>
      match h.stage
      case HeaderOut => true
      case BodyOut(chunk, whole) => if whole then n == |chunk| else 0 < n <= |chunk|
      case PipeOut(chunk) => 0 < n <= |chunk|
      case _ => false
  }

  function UploadBody(h: Http2, capacity: nat): Http2
    requires Fits(h.segments, h.at)
  {
    if h.frame == 0 then h.(ready := true, stage := Flush)
    else
      var c := Skip(h.segments, h.at);
      SkipKeeps(h.segments, h.at);
      if c.index == |h.segments| then h.(at := c, stage := NoSource)
      else
        var st := Post(h.segments, c, h.frame, capacity);
        h.(at := c, stage := if st.Sending? then BodyOut(st.chunk, st.exact)
                             else if st.Piping? then PipeOut(st.chunk) else NoSource)
  }

  function Apply2(h: Http2, event: Event2, capacity: nat): Http2
    requires Inv2(h) && Enabled2(h, event)
  {
    match event
    case Announce(window) =>
      var length := Min(window, h.unannounced);
      h.(unannounced := h.unannounced - length, frame := length, ready := false, ended := length == h.unannounced,
         stage := HeaderOut)
    case Other => h.(wire := h.wire + [OtherFrame])
    case Nothing => h.(stage := Waiting)
    case Received => h.(stage := Flush)
    case Done(n) =>
      match h.stage
      case HeaderOut => UploadBody(h.(wire := h.wire + [DataHeader(h.frame, h.ended)]), capacity)
      case BodyOut(chunk, _) =>
        UploadBody(h.(wire := h.wire + [Body(chunk[..n])], at := Cursor(h.at.index, h.at.consumed + n), frame := h.frame - n),
                   capacity)
      case PipeOut(chunk) => h.(stage := BodyOut(chunk[..n], true))
      case _ => h
  }

  /** Body bytes that the last DATA header still announces; nothing when the framing is broken. */
  datatype Owed = Broken | Owes(n: nat)

  function After(o: Owed, w: Wire): Owed
  {
    match w
    case DataHeader(length, _) => if o == Owes(0) then Owes(length) else Broken
    case Body(bytes) => if o.Owes? && |bytes| <= o.n then Owes(o.n - |bytes|) else Broken
    case OtherFrame => if o == Owes(0) then o else Broken
  }

  /** Reading the wire from the start: exactly the announced bytes must follow a header before anything else. */
  function Framing(wire: seq<Wire>): Owed
  {
    if wire == [] then Owes(0) else After(Framing(wire[..|wire| - 1]), wire[|wire| - 1])
  }

  function BodyBytes(wire: seq<Wire>): seq<Byte>
  {
    if wire == [] then []
    else BodyBytes(wire[..|wire| - 1]) + match wire[|wire| - 1] case Body(bytes) => bytes case _ => []
  }

  lemma WireAppend(wire: seq<Wire>, w: Wire)
    ensures Framing(wire + [w]) == After(Framing(wire), w)
    ensures BodyBytes(wire + [w]) == BodyBytes(wire) + match w case Body(bytes) => bytes case _ => []
  {
    assert (wire + [w])[..|wire|] == wire;
  }

  predicate Inv2(h: Http2)
  {
    var sent := BodyBytes(h.wire);
    && Fits(h.segments, h.at) && Position(h.segments, h.at) == |sent| && sent <= Concat(h.segments)
    && (h.ended ==> h.unannounced == 0)
    && match h.stage
       case Flush => Between(h) && h.ready
       case Waiting => Between(h) && h.ready
       case HeaderOut => Framing(h.wire) == Owes(0) && |sent| + h.frame + h.unannounced == |Concat(h.segments)|
       case BodyOut(chunk, _) => Inside(h) && ChunkOk(h.segments, h.at, |sent|, chunk) && |chunk| <= h.frame
       case PipeOut(chunk) => Inside(h) && ChunkOk(h.segments, h.at, |sent|, chunk) && |chunk| <= h.frame
       case NoSource => false
  }

  /** Between frames. */
  predicate Between(h: Http2)
  {
    Framing(h.wire) == Owes(0) && |BodyBytes(h.wire)| + h.unannounced == |Concat(h.segments)|
  }

  /** Inside a frame. */
  predicate Inside(h: Http2)
  {
    Framing(h.wire) == Owes(h.frame) && |BodyBytes(h.wire)| + h.frame + h.unannounced == |Concat(h.segments)|
  }

  lemma BodyKeepsInv(h: Http2, capacity: nat)
    requires capacity > 0 && Fits(h.segments, h.at) && Position(h.segments, h.at) == |BodyBytes(h.wire)|
    requires BodyBytes(h.wire) <= Concat(h.segments) && Inside(h) && (h.ended ==> h.unannounced == 0)
    ensures Inv2(UploadBody(h, capacity))
  {
    SkipKeeps(h.segments, h.at);
    if h.frame > 0 {
      PostOk(h.segments, Skip(h.segments, h.at), h.frame, capacity);
      hide Post, Concat, Skip, Framing, BodyBytes;
    }
  }

  lemma HeaderSent(h: Http2, capacity: nat)
    requires Inv2(h) && h.stage.HeaderOut? && capacity > 0
    ensures Inv2(UploadBody(h.(wire := h.wire + [DataHeader(h.frame, h.ended)]), capacity))
  {
    WireAppend(h.wire, DataHeader(h.frame, h.ended));
    hide Concat, Position, Fits, Skip, Framing, BodyBytes, UploadBody;
    BodyKeepsInv(h.(wire := h.wire + [DataHeader(h.frame, h.ended)]), capacity);
  }

  lemma PipeFilled(h: Http2, n: nat)
    requires Inv2(h) && h.stage.PipeOut? && 0 < n <= |h.stage.chunk|
    ensures Inv2(h.(stage := BodyOut(h.stage.chunk[..n], true)))
  {
    hide Concat, Position, Fits, Framing, BodyBytes;
    PrefixGrows(Concat(h.segments), BodyBytes(h.wire), h.stage.chunk, n);
  }

  lemma BodySent(h: Http2, n: nat, capacity: nat)
    requires Inv2(h) && h.stage.BodyOut? && n <= |h.stage.chunk| && capacity > 0
    ensures Inv2(UploadBody(h.(wire := h.wire + [Body(h.stage.chunk[..n])], at := Cursor(h.at.index, h.at.consumed + n),
                               frame := h.frame - n), capacity))
  {
    var sent := BodyBytes(h.wire);
    WireAppend(h.wire, Body(h.stage.chunk[..n]));
    PrefixGrows(Concat(h.segments), sent, h.stage.chunk, n);
    ConsumeKeeps(h.segments, h.at, n);
    hide Concat, Position, Fits, Skip, Framing, BodyBytes;
    BodyKeepsInv(h.(wire := h.wire + [Body(h.stage.chunk[..n])], at := Cursor(h.at.index, h.at.consumed + n),
                    frame := h.frame - n), capacity);
  }

  lemma Step2KeepsInv(h: Http2, event: Event2, capacity: nat)
    requires Inv2(h) && Enabled2(h, event) && capacity > 0
    ensures Inv2(Apply2(h, event, capacity))
  {
    hide Concat, Skip, Slice, Position, Fits, Framing, BodyBytes, UploadBody, ChunkOk;
    match event
    case Announce(_) =>
    case Other => WireAppend(h.wire, OtherFrame);
    case Nothing =>
    case Received =>
    case Done(n) =>
      match h.stage
      case HeaderOut => HeaderSent(h, capacity);
      case BodyOut(_, _) => BodySent(h, n, capacity);
      case PipeOut(_) => PipeFilled(h, n);
      case _ =>
  }

  predicate Allowed2(h: Http2, events: seq<Event2>, capacity: nat)
    requires Inv2(h) && capacity > 0
    decreases |events|
  {
    events == [] ||
    (Enabled2(h, events[0]) &&
     (Step2KeepsInv(h, events[0], capacity); Allowed2(Apply2(h, events[0], capacity), events[1..], capacity)))
  }

  function Run2(h: Http2, events: seq<Event2>, capacity: nat): Http2
    requires Inv2(h) && capacity > 0 && Allowed2(h, events, capacity)
    decreases |events|
  {
    if events == [] then h
    else Step2KeepsInv(h, events[0], capacity); Run2(Apply2(h, events[0], capacity), events[1..], capacity)
  }

  lemma {:induction false} Run2KeepsInv(h: Http2, events: seq<Event2>, capacity: nat)
    requires Inv2(h) && capacity > 0 && Allowed2(h, events, capacity)
    ensures Inv2(Run2(h, events, capacity)) && Run2(h, events, capacity).segments == h.segments
    decreases |events|
  {
    if events != [] {
      Step2KeepsInv(h, events[0], capacity);
      var t := Apply2(h, events[0], capacity);
      SameSegments(h, events[0], capacity);
      hide Inv2, Apply2, Enabled2;
      Run2KeepsInv(t, events[1..], capacity);
    }
  }

  lemma SameSegments(h: Http2, event: Event2, capacity: nat)
    requires Inv2(h) && Enabled2(h, event)
    ensures Apply2(h, event, capacity).segments == h.segments
  {
    hide Concat, Skip, Slice, Position, Framing, BodyBytes;
  }

  /** Transfers still to come: two for each byte at most, one more for a header on its way. */
  function Work(h: Http2): int
  {
    2 * (|Concat(h.segments)| - |BodyBytes(h.wire)|) + match h.stage
                                                       case HeaderOut => 1
                                                       case BodyOut(_, _) => -1
                                                       case _ => 0
  }

  function Transfers(events: seq<Event2>): nat
  {
    if events == [] then 0 else (if events[0].Done? then 1 else 0) + Transfers(events[1..])
  }

  function Announcements(events: seq<Event2>): nat
  {
    if events == [] then 0 else (if events[0].Announce? then 1 else 0) + Announcements(events[1..])
  }

  lemma UploadBodyWork(h: Http2, capacity: nat)
    requires Fits(h.segments, h.at)
    ensures var t := UploadBody(h, capacity);
            && t.wire == h.wire && t.segments == h.segments && t.stage != HeaderOut
            && t.unannounced == h.unannounced && t.ended == h.ended
  {
  }

  /** A completed transfer uses up work, and only an announcement makes some. */
  lemma Step2Work(h: Http2, event: Event2, capacity: nat)
    requires Inv2(h) && Enabled2(h, event) && capacity > 0
    ensures Work(Apply2(h, event, capacity)) + (if event.Done? then 1 else 0) <= Work(h) + if event.Announce? then 1 else 0
  {
    hide Concat, Skip, Slice, Position, Framing, BodyBytes, UploadBody, Fits;
    match event
    case Announce(_) =>
    case Other => WireAppend(h.wire, OtherFrame);
    case Nothing =>
    case Received =>
    case Done(n) =>
      match h.stage
      case HeaderOut =>
        WireAppend(h.wire, DataHeader(h.frame, h.ended));
        UploadBodyWork(h.(wire := h.wire + [DataHeader(h.frame, h.ended)]), capacity);
      case BodyOut(chunk, _) =>
        WireAppend(h.wire, Body(chunk[..n]));
        ConsumeKeeps(h.segments, h.at, n);
        UploadBodyWork(h.(wire := h.wire + [Body(chunk[..n])], at := Cursor(h.at.index, h.at.consumed + n), frame := h.frame - n),
                       capacity);
      case PipeOut(_) =>
      case _ =>
  }

  lemma WorkLeft(h: Http2)
    requires Inv2(h)
    ensures Work(h) >= 0
  {
    hide Concat, Position, Framing, BodyBytes, Fits;
  }

  lemma {:induction false} Run2Work(h: Http2, events: seq<Event2>, capacity: nat)
    requires Inv2(h) && capacity > 0 && Allowed2(h, events, capacity)
    ensures Transfers(events) <= Work(h) + Announcements(events)
    decreases |events|
  {
    if events == [] {
      WorkLeft(h);
    } else {
      Step2KeepsInv(h, events[0], capacity);
      Step2Work(h, events[0], capacity);
      hide Inv2, Apply2, Enabled2, Work;
      Run2Work(Apply2(h, events[0], capacity), events[1..], capacity);
    }
  }

  // ---------------------------------------------------------------- the last frame

  /** Lengths announced on the wire, added up. */
  function Total(wire: seq<Wire>): nat
  {
    if wire == [] then 0
    else Total(wire[..|wire| - 1]) + match wire[|wire| - 1] case DataHeader(length, _) => length case _ => 0
  }

  function Frames(wire: seq<Wire>): nat
  {
    if wire == [] then 0 else Frames(wire[..|wire| - 1]) + if wire[|wire| - 1].DataHeader? then 1 else 0
  }

  /** How many headers are flagged as the last. */
  function Flags(wire: seq<Wire>): nat
  {
    if wire == [] then 0
    else Flags(wire[..|wire| - 1]) + match wire[|wire| - 1] case DataHeader(_, last) => (if last then 1 else 0) case _ => 0
  }

  /** No header follows one that is flagged as the last. */
  predicate LastIsLast(wire: seq<Wire>)
  {
    wire == [] ||
    (LastIsLast(wire[..|wire| - 1]) && (wire[|wire| - 1].DataHeader? ==> Flags(wire[..|wire| - 1]) == 0))
  }

  lemma FlagsAppend(wire: seq<Wire>, w: Wire)
    ensures Total(wire + [w]) == Total(wire) + match w case DataHeader(length, _) => length case _ => 0
    ensures Frames(wire + [w]) == Frames(wire) + if w.DataHeader? then 1 else 0
    ensures Flags(wire + [w]) == Flags(wire) + match w case DataHeader(_, last) => (if last then 1 else 0) case _ => 0
    ensures LastIsLast(wire + [w]) <==> LastIsLast(wire) && (w.DataHeader? ==> Flags(wire) == 0)
  {
    assert (wire + [w])[..|wire|] == wire;
  }

  /** A header on its way counts as announced, and is flagged as soon as it is on the wire. */
  predicate FlagInv(h: Http2)
  {
    var out := h.stage == HeaderOut;
    && Total(h.wire) + (if out then h.frame else 0) + h.unannounced == |Concat(h.segments)|
    && (h.ended <==> (Frames(h.wire) > 0 || out) && h.unannounced == 0)
    && Flags(h.wire) == (if h.ended && !out then 1 else 0)
    && (out && Frames(h.wire) > 0 ==> Total(h.wire) < |Concat(h.segments)|)
    && LastIsLast(h.wire)
  }

  lemma Step2KeepsFlags(h: Http2, event: Event2, capacity: nat)
    requires Inv2(h) && FlagInv(h) && Enabled2(h, event) && capacity > 0
    ensures FlagInv(Apply2(h, event, capacity))
  {
    hide Concat, Skip, Slice, Position, Framing, BodyBytes, UploadBody, Fits, Total, Frames, Flags, LastIsLast, ChunkOk;
    match event
    case Announce(_) =>
    case Other => FlagsAppend(h.wire, OtherFrame);
    case Nothing =>
    case Received =>
    case Done(n) =>
      match h.stage
      case HeaderOut =>
        FlagsAppend(h.wire, DataHeader(h.frame, h.ended));
        UploadBodyWork(h.(wire := h.wire + [DataHeader(h.frame, h.ended)]), capacity);
      case BodyOut(chunk, _) =>
        FlagsAppend(h.wire, Body(chunk[..n]));
        BodyCursor(h, n);
        UploadBodyWork(h.(wire := h.wire + [Body(chunk[..n])], at := Cursor(h.at.index, h.at.consumed + n), frame := h.frame - n),
                       capacity);
      case PipeOut(_) =>
      case _ =>
  }

  lemma BodyCursor(h: Http2, n: nat)
    requires Inv2(h) && h.stage.BodyOut? && n <= |h.stage.chunk|
    ensures Fits(h.segments, Cursor(h.at.index, h.at.consumed + n))
  {
    ConsumeKeeps(h.segments, h.at, n);
  }

  lemma {:induction false} Run2KeepsFlags(h: Http2, events: seq<Event2>, capacity: nat)
    requires Inv2(h) && FlagInv(h) && capacity > 0 && Allowed2(h, events, capacity)
    ensures FlagInv(Run2(h, events, capacity))
    decreases |events|
  {
    if events != [] {
      Step2KeepsInv(h, events[0], capacity);
      Step2KeepsFlags(h, events[0], capacity);
      hide Inv2, FlagInv, Apply2, Enabled2;
      Run2KeepsFlags(Apply2(h, events[0], capacity), events[1..], capacity);
    }
  }

  /** In every run: a header is flagged as the last exactly when the lengths announced so far are the whole body, so at
      most one is, none follows it, and when all body bytes are on the wire behind some header the flag is too. A header
      on its way is flagged by the same rule. */
  lemma Http2FlagsTheLastFrame(segments: seq<Segment>, events: seq<Event2>, capacity: nat)
    requires capacity > 0 && Allowed2(Begin2(segments), events, capacity)
    ensures var h := Run2(Begin2(segments), events, capacity);
            var body := |Concat(segments)|;
            && LastIsLast(h.wire) && Total(h.wire) <= body
            && Flags(h.wire) == (if Frames(h.wire) > 0 && Total(h.wire) == body then 1 else 0)
            && (h.stage == HeaderOut ==> (h.ended <==> Total(h.wire) + h.frame == body))
            && (Frames(h.wire) > 0 && BodyBytes(h.wire) == Concat(segments) ==> Flags(h.wire) == 1)
  {
    Run2KeepsInv(Begin2(segments), events, capacity);
    assert FlagInv(Begin2(segments));
    Run2KeepsFlags(Begin2(segments), events, capacity);
    var h := Run2(Begin2(segments), events, capacity);
    hide Run2, Allowed2, Concat, Total, Frames, Flags, LastIsLast, Framing, BodyBytes, Fits, Position, ChunkOk;
  }

  /** A frame is as long as the window and what is left of the body allow. */
  lemma FrameIsMaximal(h: Http2, window: nat)
    requires Inv2(h) && FlagInv(h) && Enabled2(h, Announce(window))
    ensures Apply2(h, Announce(window), 0).frame == Min(window, |Concat(h.segments)| - Total(h.wire))
    ensures Apply2(h, Announce(window), 0).stage == HeaderOut
  {
    hide Concat, Total, Frames, Flags, LastIsLast, Framing, BodyBytes;
  }

  /** How far the upload is from having announced and sent everything, when the peer allows all of it at once. */
  function Ahead(h: Http2): nat
    requires Inv2(h)
  {
    WorkLeft(h);
    2 * Work(h) + (if h.ended then 0 else 4) + if h.stage == Waiting then 1 else 0
  }

  /** The next event when nothing holds the upload up. */
  function Onward(h: Http2): Event2
  {
    match h.stage
    case Flush => Announce(h.unannounced)
    case Waiting => Received
    case BodyOut(chunk, _) => Done(|chunk|)
    case PipeOut(chunk) => Done(|chunk|)
    case _ => Done(0)
  }

  lemma OnwardAdvances(h: Http2, capacity: nat)
    requires Inv2(h) && capacity > 0 && (h.stage == Flush ==> !h.ended)
    ensures Enabled2(h, Onward(h)) && Inv2(Apply2(h, Onward(h), capacity)) && Ahead(Apply2(h, Onward(h), capacity)) < Ahead(h)
  {
    Step2KeepsInv(h, Onward(h), capacity);
    Step2Work(h, Onward(h), capacity);
    OnwardFlags(h, capacity);
    hide Concat, Work, Framing, BodyBytes, Fits, Position, Apply2;
  }

  lemma OnwardFlags(h: Http2, capacity: nat)
    requires Inv2(h) && (h.stage == Flush ==> !h.ended)
    ensures Enabled2(h, Onward(h))
    ensures var t := Apply2(h, Onward(h), capacity);
            && (if h.stage == Flush then t.ended else t.ended == h.ended)
            && (h.stage == Waiting ==> t.stage == Flush && Work(t) <= Work(h)) && t.stage != Waiting
  {
    hide Concat, Framing, BodyBytes, Position, Skip, Slice;
  }

  /** No state of an upload is a dead end: some events lead on to the last frame flagged and every byte on the wire. */
  lemma Http2CanFinish(h: Http2, capacity: nat) returns (events: seq<Event2>)
    requires Inv2(h) && capacity > 0
    ensures Allowed2(h, events, capacity)
    ensures var t := Run2(h, events, capacity);
            t.stage == Flush && t.ended && BodyBytes(t.wire) == Concat(h.segments)
    decreases Ahead(h)
  {
    if h.stage == Flush && h.ended {
      events := [];
    } else {
      OnwardAdvances(h, capacity);
      SameSegments(h, Onward(h), capacity);
      hide Inv2, Apply2, Enabled2, Ahead, Onward;
      var rest := Http2CanFinish(Apply2(h, Onward(h), capacity), capacity);
      events := [Onward(h)] + rest;
      assert events[1..] == rest;
    }
  }

  /** Once the library has nothing to send, nothing is sent until something has arrived. */
  lemma NothingWaits(h: Http2, event: Event2, capacity: nat)
    requires Inv2(h) && Enabled2(h, Nothing)
    ensures Enabled2(Apply2(h, Nothing, capacity), event) <==> event == Received
    ensures Apply2(h, Nothing, capacity).wire == h.wire
  {
  }

  /** For any frame lengths and any short transfers: on the wire exactly the announced number of body bytes follows each
      DATA header before anything else, the body bytes are a prefix of the concatenated sources, and once the last frame
      is out they are all of them. There are at most two transfers for each byte and one for each announcement. */
  lemma Http2SendsTheBody(segments: seq<Segment>, events: seq<Event2>, capacity: nat)
    requires capacity > 0 && Allowed2(Begin2(segments), events, capacity)
    ensures var h := Run2(Begin2(segments), events, capacity);
            && Framing(h.wire) != Broken && BodyBytes(h.wire) <= Concat(segments) && h.stage != NoSource
            && (h.ended && (h.stage == Flush || h.stage == Waiting) ==>
                  Framing(h.wire) == Owes(0) && BodyBytes(h.wire) == Concat(segments))
    ensures Transfers(events) <= 2 * |Concat(segments)| + Announcements(events)
  {
    Run2Work(Begin2(segments), events, capacity);
    assert Work(Begin2(segments)) == 2 * |Concat(segments)|;
    Run2KeepsInv(Begin2(segments), events, capacity);
  }
}
