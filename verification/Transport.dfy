/**
 Newline-delimited frames over a byte stream that arrives in arbitrary chunks.

 The JSON codec is a pair of parameters.
 */
module Transport {
  import opened Wrappers

  type Bytes = seq<Byte>

  const NEWLINE: Byte := 10
  const RETURN: Byte := 13
  const MAX_FRAME_BYTES := 1_048_576

  datatype FrameError = FrameTooLarge(size: nat) | EmptyFrame | Json | Io

  // ---- Lines of a flat stream ----

  /** The bytes before the first newline. */
  function Line(s: Bytes): Bytes {
    if s == [] || s[0] == NEWLINE then [] else [s[0]] + Line(s[1..])
  }

  /** What follows the first line and its newline. */
  function AfterLine(s: Bytes): Bytes {
    if s == [] then [] else if s[0] == NEWLINE then s[1..] else AfterLine(s[1..])
  }

  function WithoutReturn(line: Bytes): Bytes {
    if line != [] && line[|line| - 1] == RETURN then line[..|line| - 1] else line
  }

  /** A beginning without newline belongs to the line. */
  lemma {:induction false} Through(f: Bytes, t: Bytes)
    requires NEWLINE !in f
    ensures Line(f + t) == f + Line(t) && AfterLine(f + t) == AfterLine(t)
  {
    if f == [] {
      assert f + t == t;
    } else {
      assert (f + t)[1..] == f[1..] + t;
      Through(f[1..], t);
    }
  }

  /** A newline in the beginning ends the line there. */
  lemma {:induction false} Within(p: Bytes, t: Bytes)
    requires NEWLINE in p
    ensures Line(p + t) == Line(p) && AfterLine(p + t) == AfterLine(p) + t
  {
    assert (p + t)[1..] == p[1..] + t;
    if p[0] != NEWLINE {
      Within(p[1..], t);
    }
  }

  lemma {:induction false} CutAt(s: Bytes, i: nat)
    requires i < |s| && s[i] == NEWLINE && NEWLINE !in s[..i]
    ensures Line(s) == s[..i] && AfterLine(s) == s[i + 1..]
  {
    assert s == s[..i] + ([NEWLINE] + s[i + 1..]);
    Through(s[..i], [NEWLINE] + s[i + 1..]);
  }

  lemma NoNewline(s: Bytes)
    requires NEWLINE !in s
    ensures Line(s) == s && AfterLine(s) == []
  {
    Through(s, []);
    assert s + [] == s;
  }

  lemma {:induction false} AfterIsShorter(s: Bytes)
    requires s != []
    ensures |AfterLine(s)| < |s|
  {
    if s[0] != NEWLINE && s[1..] != [] {
      AfterIsShorter(s[1..]);
    }
  }

  /** A line has no newline, and with its newline, if any, and what follows it makes up the stream. */
  lemma {:induction false} LineShape(s: Bytes)
    ensures NEWLINE !in Line(s)
    ensures s == Line(s) + (if NEWLINE in s then [NEWLINE] + AfterLine(s) else [])
  {
    if s != [] {
      assert s == [s[0]] + s[1..];
      if s[0] != NEWLINE {
        LineShape(s[1..]);
      }
    }
  }

  // ---- The reader ----

  function Flat(chunks: seq<Bytes>): Bytes {
    if chunks == [] then [] else chunks[0] + Flat(chunks[1..])
  }

  /** A buffered reader: the bytes still to come, in the pieces in which they will arrive. */
  class Reader {
    var chunks: seq<Bytes>

    predicate Valid()
      reads this
    {
      forall i :: 0 <= i < |chunks| ==> chunks[i] != []
    }

    function Pending(): Bytes
      reads this
    {
      Flat(chunks)
    }

    constructor (pieces: seq<Bytes>)
      requires forall i :: 0 <= i < |pieces| ==> pieces[i] != []
      ensures Valid() && chunks == pieces
    {
      chunks := pieces;
    }

    /** The next piece, or nothing at the end of the stream. */
    method FillBuf() returns (available: Bytes)
      requires Valid()
      ensures available <= Pending()
      ensures available == [] <==> Pending() == []
      ensures available != [] ==> chunks != [] && available == chunks[0]
    {
      available := if chunks == [] then [] else chunks[0];
    }

    method Consume(n: nat)
      requires Valid() && chunks != [] && 0 < n <= |chunks[0]|
      modifies this
      ensures Valid() && Pending() == old(chunks)[0][n..] + Flat(old(chunks)[1..])
      ensures n == |old(chunks)[0]| ==> chunks == old(chunks)[1..]
    {
      if n == |chunks[0]| {
        chunks := chunks[1..];
      } else {
        chunks := [chunks[0][n..]] + chunks[1..];
      }
    }

    /** Position of the first newline of a piece. */
    static method Position(available: Bytes) returns (newline: Option<nat>)
      ensures newline.Some? <==> NEWLINE in available
      ensures newline.Some? ==>
        && newline.value < |available| && available[newline.value] == NEWLINE && NEWLINE !in available[..newline.value]
    {
      for i := 0 to |available|
        invariant NEWLINE !in available[..i]
      {
        if available[i] == NEWLINE {
          return Some(i);
        }
      }
      return None;
    }

    /** Consumes the next piece, up to and including a newline, and returns its part of the line. */
    method NextPart() returns (part: Bytes, ended: bool)
      requires Valid() && chunks != []
      modifies this
      ensures Valid() && part == Line(old(chunks)[0]) && ended == (NEWLINE in old(chunks)[0])
      ensures Pending() == AfterLine(old(chunks)[0]) + Flat(old(chunks)[1..])
      ensures !ended ==> chunks == old(chunks)[1..] && part == old(chunks)[0]
    {
      var available := FillBuf();
      var newline := Position(available);
      if newline.Some? {
        CutAt(available, newline.value);
        Consume(newline.value + 1);
        return available[..newline.value], true;
      }
      NoNewline(available);
      Consume(|available|);
      return available, false;
    }

    /** Moves the next piece into the frame, unless that makes the frame too large. */
    method TakePiece(frame: Bytes) returns (r: Result<Taken, FrameError>)
      requires Valid() && chunks != [] && NEWLINE !in frame && |frame| <= MAX_FRAME_BYTES
      modifies this
      ensures Valid() && |Pending()| < |old(Pending())|
      ensures r.Err? ==> GivesUp(frame, old(chunks), Pending(), r.error)
      ensures r.Ok? ==> |r.value.frame| <= MAX_FRAME_BYTES
      ensures r.Ok? && r.value.ended ==>
        r.value.frame == Line(frame + old(Pending())) && Pending() == AfterLine(frame + old(Pending()))
      ensures r.Ok? && !r.value.ended ==>
        && NEWLINE !in r.value.frame && r.value.frame + Pending() == frame + old(Pending())
        && chunks == old(chunks)[1..] && SameFate(old(chunks), |frame|, chunks, |r.value.frame|)
      ensures Looks(old(chunks), |frame|) ==
        1 + if r.Ok? && !r.value.ended then Looks(chunks, |r.value.frame|) else 0
    {
      ghost var piece, rest := chunks[0], Flat(chunks[1..]);
      PieceInLine(frame, piece, rest);
      var part, ended := NextPart();
      if |frame| + |part| > MAX_FRAME_BYTES {
        return Err(FrameTooLarge(|frame| + |part|));
      }
      r := Ok(Taken(frame + part, ended));
    }

    /** The next line without its terminator: the same bytes however they arrive. The read that
        comes after `fault` pieces, if any, fails; what was read of the line before is lost. */
    method ReadLine(fault: Option<nat>) returns (r: Result<Option<Bytes>, FrameError>)
      requires Valid()
      modifies this
      ensures Valid()
      ensures r == Err(Io) <==> Fails(old(chunks), fault)
      ensures Fails(old(chunks), fault) ==> fault.value <= |old(chunks)| && chunks == old(chunks)[fault.value..]
      ensures r == Ok(None) <==> old(Pending()) == [] && !Fails(old(chunks), fault)
      ensures r.Ok? ==> |Line(old(Pending()))| <= MAX_FRAME_BYTES && Pending() == AfterLine(old(Pending()))
      ensures r.Ok? && r.value.Some? ==> r.value.value == Line(old(Pending()))
      ensures r.Err? && r.error != Io ==> TooLong(old(chunks), Pending(), r.error)
    {
      var frame: Bytes := [];
      var looks: nat := 0;
      ghost var all := Pending();
      while true
        invariant Valid() && all == frame + Pending()
        invariant NEWLINE !in frame && |frame| <= MAX_FRAME_BYTES && SameFate(old(chunks), 0, chunks, |frame|)
        invariant looks <= |old(chunks)| && chunks == old(chunks)[looks..]
        invariant Looks(old(chunks), 0) == looks + Looks(chunks, |frame|)
        invariant fault.Some? ==> looks <= fault.value
        decreases |Pending()|
      {
        if fault == Some(looks) {
          LooksPositive(chunks, |frame|);
          return Err(Io);
        }
        if chunks == [] {
          NoNewline(frame);
          assert frame + [] == frame;
          return Ok(if frame == [] then None else Some(frame));
        }
        looks := looks + 1;
        ghost var pieces := chunks;
        var taken := TakePiece(frame);
        if taken.Err? {
          GivenUpLine(old(chunks), frame, pieces, Pending(), taken.error);
          return Err(taken.error);
        }
        frame := taken.value.frame;
        if taken.value.ended {
          return Ok(Some(frame));
        }
      }
    }

    /** `read_frame`: a line, minus one trailing carriage return, decoded. */
    method ReadFrame<T>(decode: Bytes -> Option<T>, fault: Option<nat>) returns (r: Result<Option<T>, FrameError>)
      requires Valid()
      modifies this
      ensures Valid()
      ensures r == Err(Io) <==> Fails(old(chunks), fault)
      ensures Fails(old(chunks), fault) ==> fault.value <= |old(chunks)| && chunks == old(chunks)[fault.value..]
      ensures !Fails(old(chunks), fault) ==>
        && (r == Ok(None) <==> old(Pending()) == [])
        && (r.Err? && r.error.FrameTooLarge? <==> |Line(old(Pending()))| > MAX_FRAME_BYTES)
      ensures r.Err? && r.error.FrameTooLarge? ==> TooLong(old(chunks), Pending(), r.error)
      ensures !Fails(old(chunks), fault) && |Line(old(Pending()))| <= MAX_FRAME_BYTES ==>
        && Pending() == AfterLine(old(Pending()))
        && (old(Pending()) != [] ==> r == Parse(WithoutReturn(Line(old(Pending()))), decode))
    {
      var line := ReadLine(fault);
      if line.Err? {
        return Err(line.error);
      }
      if line.value.None? {
        return Ok(None);
      }
      var frame := line.value.value;
      if frame != [] && frame[|frame| - 1] == RETURN {
        frame := frame[..|frame| - 1];
      }
      if frame == [] {
        return Err(EmptyFrame);
      }
      var value := decode(frame);
      r := if value.Some? then Ok(value) else Err(Json);
    }
  }

  /** After `held` bytes of a line, how many reads it takes to end it, give it up or find the end. */
  function Looks(chunks: seq<Bytes>, held: nat): nat {
    if chunks == [] || held + |Line(chunks[0])| > MAX_FRAME_BYTES || NEWLINE in chunks[0] then 1
    else 1 + Looks(chunks[1..], held + |chunks[0]|)
  }

  lemma LooksPositive(chunks: seq<Bytes>, held: nat)
    ensures Looks(chunks, held) >= 1
  {
  }

  /** The failing read is one of those that the next line takes. */
  predicate Fails(chunks: seq<Bytes>, fault: Option<nat>) {
    fault.Some? && fault.value < Looks(chunks, 0)
  }

  /** After `held` bytes of a line, how much of it the reader has seen when it gives the line up. */
  function SizeSeen(chunks: seq<Bytes>, held: nat): nat {
    if chunks == [] then held
    else if held + |Line(chunks[0])| > MAX_FRAME_BYTES || NEWLINE in chunks[0] then held + |Line(chunks[0])|
    else SizeSeen(chunks[1..], held + |chunks[0]|)
  }

  /** What is still to come when the reader gives a line up. */
  function Left(chunks: seq<Bytes>, held: nat): Bytes {
    if chunks == [] then []
    else if held + |Line(chunks[0])| > MAX_FRAME_BYTES || NEWLINE in chunks[0]
    then AfterLine(chunks[0]) + Flat(chunks[1..])
    else Left(chunks[1..], held + |chunks[0]|)
  }

  /** The piece that crosses the limit also ends the line, by its newline or as the last piece. */
  predicate Resyncs(chunks: seq<Bytes>, held: nat) {
    if chunks == [] then true
    else if held + |Line(chunks[0])| > MAX_FRAME_BYTES then NEWLINE in chunks[0] || chunks[1..] == []
    else NEWLINE in chunks[0] || Resyncs(chunks[1..], held + |chunks[0]|)
  }

  predicate SameFate(before: seq<Bytes>, heldBefore: nat, after: seq<Bytes>, heldAfter: nat) {
    && SizeSeen(before, heldBefore) == SizeSeen(after, heldAfter)
    && Left(before, heldBefore) == Left(after, heldAfter)
    && Resyncs(before, heldBefore) == Resyncs(after, heldAfter)
  }

  /** The line that begins with `frame` is given up in the next piece. */
  ghost predicate GivesUp(frame: Bytes, pieces: seq<Bytes>, after: Bytes, e: FrameError) {
    && pieces != [] && |frame| + |Line(pieces[0])| > MAX_FRAME_BYTES
    && e == FrameTooLarge(|frame| + |Line(pieces[0])|) && after == AfterLine(pieces[0]) + Flat(pieces[1..])
  }

  /** The first line of the stream is over the limit: what was seen of it and what is left are those
      of the piece that crosses the limit. The reader is at the next line if and only if that piece
      ends the line, and in no case past it. */
  ghost predicate TooLong(chunks: seq<Bytes>, after: Bytes, e: FrameError) {
    var all := Flat(chunks);
    && e == FrameTooLarge(SizeSeen(chunks, 0)) && after == Left(chunks, 0)
    && MAX_FRAME_BYTES < SizeSeen(chunks, 0) <= |Line(all)|
    && (after == AfterLine(all) <==> Resyncs(chunks, 0))
    && |AfterLine(all)| <= |after|
  }

  /** A piece behind a beginning without newline: it ends the line, or the line goes on in the rest. */
  lemma PieceInLine(frame: Bytes, piece: Bytes, rest: Bytes)
    requires NEWLINE !in frame
    ensures var all := frame + (piece + rest);
      && (NEWLINE in piece ==> Line(all) == frame + Line(piece) && AfterLine(all) == AfterLine(piece) + rest)
      && (NEWLINE !in piece ==>
            && Line(piece) == piece && AfterLine(piece) == [] && all == (frame + piece) + rest
            && Line(all) == frame + (piece + Line(rest)) && AfterLine(all) == AfterLine(rest))
    ensures NEWLINE in piece ==> |AfterLine(piece)| < |piece|
  {
    Through(frame, piece + rest);
    if NEWLINE in piece {
      Within(piece, rest);
      AfterIsShorter(piece);
    } else {
      Through(piece, rest);
      NoNewline(piece);
      assert frame + (piece + rest) == (frame + piece) + rest;
    }
  }

  lemma GivenUpLine(chunks: seq<Bytes>, frame: Bytes, pieces: seq<Bytes>, after: Bytes, e: FrameError)
    requires NEWLINE !in frame && Flat(chunks) == frame + Flat(pieces)
    requires SameFate(chunks, 0, pieces, |frame|) && GivesUp(frame, pieces, after, e)
    requires forall i :: 0 <= i < |pieces| ==> pieces[i] != []
    ensures TooLong(chunks, after, e)
  {
    var rest := Flat(pieces[1..]);
    PieceInLine(frame, pieces[0], rest);
    if rest != [] {
      AfterIsShorter(rest);
    }
    assert pieces[1..] != [] ==> pieces[1..][0] == pieces[1] != [];
  }

  datatype Taken = Taken(frame: Bytes, ended: bool)

  /** What a line within the limit gives. */
  function Parse<T>(frame: Bytes, decode: Bytes -> Option<T>): Result<Option<T>, FrameError> {
    if frame == [] then Err(EmptyFrame)
    else match decode(frame) case Some(v) => Ok(Some(v)) case None => Err(Json)
  }

  /** The end of any oversized line, when it arrives as a piece of its own, is read as the next line. */
  method RemainderIsReadAsLine(long: Bytes, line: Bytes)
    returns (first: Result<Option<Bytes>, FrameError>, second: Result<Option<Bytes>, FrameError>)
    requires NEWLINE !in long && |long| > MAX_FRAME_BYTES && NEWLINE !in line && |line| <= MAX_FRAME_BYTES
    ensures first.Err? && second == Ok(Some(line))
  {
    var pieces: seq<Bytes> := [long, line + [NEWLINE]];
    TwoPieces(pieces, long, line);
    var reader := new Reader(pieces);
    first := reader.ReadLine(None);
    ghost var left := reader.Pending();
    assert left == line + [NEWLINE] && |Line(left)| <= MAX_FRAME_BYTES;
    second := reader.ReadLine(None);
    assert second.Ok?;
    assert second.value.Some?;
  }

  /** The same bytes in one piece: the whole line is dropped. */
  method OnePieceIsDropped(long: Bytes, line: Bytes)
    returns (first: Result<Option<Bytes>, FrameError>, second: Result<Option<Bytes>, FrameError>)
    requires NEWLINE !in long && |long| > MAX_FRAME_BYTES && NEWLINE !in line && |line| <= MAX_FRAME_BYTES
    ensures first.Err? && second == Ok(None)
  {
    var pieces: seq<Bytes> := [long + (line + [NEWLINE])];
    OnePiece(pieces, long, line);
    var reader := new Reader(pieces);
    first := reader.ReadLine(None);
    second := reader.ReadLine(None);
  }

  lemma TwoPieces(pieces: seq<Bytes>, long: Bytes, line: Bytes)
    requires pieces == [long, line + [NEWLINE]]
    requires NEWLINE !in long && |long| > MAX_FRAME_BYTES && NEWLINE !in line
    ensures |Line(Flat(pieces))| > MAX_FRAME_BYTES && Left(pieces, 0) == line + [NEWLINE]
    ensures Line(line + [NEWLINE]) == line
  {
    var tail := line + [NEWLINE];
    assert pieces[1..] == [tail] && pieces[1..][1..] == [] && tail + [] == tail;
    assert Flat(pieces[1..]) == pieces[1..][0] + Flat(pieces[1..][1..]) == tail;
    assert Flat(pieces) == long + tail;
    NoNewline(long);
    Through(long, tail);
    CutAt(tail, |line|);
    assert [] + tail == tail;
  }

  lemma OnePiece(pieces: seq<Bytes>, long: Bytes, line: Bytes)
    requires pieces == [long + (line + [NEWLINE])]
    requires NEWLINE !in long && |long| > MAX_FRAME_BYTES && NEWLINE !in line
    ensures |Line(Flat(pieces))| > MAX_FRAME_BYTES && Left(pieces, 0) == []
  {
    var tail := line + [NEWLINE];
    assert pieces[1..] == [] && (long + tail) + [] == long + tail;
    assert Flat(pieces) == long + tail;
    Through(long, tail);
    CutAt(tail, |line|);
    assert NEWLINE in long + tail;
  }

  // ---- The writer, and both ends together ----

  class Writer {
    var sent: Bytes

    constructor ()
      ensures sent == []
    {
      sent := [];
    }

    /** `write_frame`: the payload and its newline, or nothing when it cannot be encoded or is too
        large; an I/O error may `cut` the write off anywhere, or follow it. */
    method WriteFrame<T>(value: T, encode: T -> Option<Bytes>, cut: Option<nat>) returns (r: Option<FrameError>)
      modifies this
      ensures encode(value).None? ==> r == Some(Json) && sent == old(sent)
      ensures encode(value).Some? && |encode(value).value| > MAX_FRAME_BYTES ==>
        r == Some(FrameTooLarge(|encode(value).value|)) && sent == old(sent)
      ensures encode(value).Some? && |encode(value).value| <= MAX_FRAME_BYTES ==>
        var frame := encode(value).value + [NEWLINE];
        if cut.None? then r.None? && sent == old(sent) + frame
        else r == Some(Io) && sent == old(sent) + UpTo(frame, cut.value)
    {
      var payload := encode(value);
      if payload.None? {
        return Some(Json);
      }
      if |payload.value| > MAX_FRAME_BYTES {
        return Some(FrameTooLarge(|payload.value|));
      }
      var frame := payload.value + [NEWLINE];
      if cut.Some? {
        sent := sent + UpTo(frame, cut.value);
        return Some(Io);
      }
      sent := sent + frame;
      r := None;
    }
  }

  /** The first `k` bytes, or all of them. */
  function UpTo(frame: Bytes, k: nat): Bytes {
    if k <= |frame| then frame[..k] else frame
  }

  /** Payloads that a line can carry. */
  predicate Clean(payload: Bytes) {
    && payload != [] && |payload| <= MAX_FRAME_BYTES
    && NEWLINE !in payload && payload[|payload| - 1] != RETURN
  }

  /** A payload comes back whole, and nothing after it is touched, exactly when it is clean. */
  lemma CarriedIffClean(payload: Bytes, rest: Bytes)
    ensures var s := payload + [NEWLINE] + rest;
      Clean(payload) <==>
        && |Line(s)| <= MAX_FRAME_BYTES && payload != []
        && WithoutReturn(Line(s)) == payload && AfterLine(s) == rest
  {
    var tail := [NEWLINE] + rest;
    assert payload + [NEWLINE] + rest == payload + tail && AfterLine(tail) == rest;
    if NEWLINE !in payload {
      Through(payload, tail);
    } else {
      Within(payload, tail);
      assert |AfterLine(payload) + tail| > |rest|;
    }
  }

  /** The bytes of a list of payloads. */
  function Wire(payloads: seq<Bytes>): Bytes {
    if payloads == [] then [] else payloads[0] + [NEWLINE] + Wire(payloads[1..])
  }

  lemma {:induction false} WireSnoc(payloads: seq<Bytes>, p: Bytes)
    ensures Wire(payloads + [p]) == Wire(payloads) + (p + [NEWLINE])
  {
    if payloads == [] {
      assert payloads + [p] == [p] && [p][1..] == [];
    } else {
      assert (payloads + [p])[1..] == payloads[1..] + [p];
      WireSnoc(payloads[1..], p);
    }
  }

  predicate Encodes<T>(values: seq<T>, encode: T -> Option<Bytes>, payloads: seq<Bytes>) {
    && |payloads| == |values|
    && forall i :: 0 <= i < |values| ==> encode(values[i]) == Some(payloads[i]) && |payloads[i]| <= MAX_FRAME_BYTES
  }

  /** Writes the frames in order; after an I/O error, the first of `cuts`, the stream ends inside one of
      them. */
  method SendAll<T>(w: Writer, values: seq<T>, encode: T -> Option<Bytes>, cuts: nat -> Option<nat>,
                    ghost payloads: seq<Bytes>)
    returns (sent: nat, r: Option<FrameError>)
    requires Encodes(values, encode, payloads)
    modifies w
    ensures sent <= |values| && forall n :: 0 <= n < sent ==> cuts(n).None?
    ensures r.None? ==> sent == |values| && w.sent == old(w.sent) + Wire(payloads)
    ensures r.Some? ==>
      && sent < |values| && r == Some(Io) && cuts(sent).Some?
      && w.sent == old(w.sent) + Wire(payloads[..sent]) + UpTo(payloads[sent] + [NEWLINE], cuts(sent).value)
  {
    assert payloads[..0] == [];
    for n := 0 to |values|
      invariant w.sent == old(w.sent) + Wire(payloads[..n]) && forall m :: 0 <= m < n ==> cuts(m).None?
    {
      r := w.WriteFrame(values[n], encode, cuts(n));
      if r.Some? {
        return n, r;
      }
      assert payloads[..n + 1] == payloads[..n] + [payloads[n]];
      WireSnoc(payloads[..n], payloads[n]);
    }
    assert payloads[..|values|] == payloads;
    return |values|, None;
  }

  predicate Decodes<T(==)>(payloads: seq<Bytes>, decode: Bytes -> Option<T>, values: seq<T>) {
    && |payloads| == |values|
    && forall i :: 0 <= i < |values| ==> Clean(payloads[i]) && decode(payloads[i]) == Some(values[i])
  }

  /** Reads until the end of the stream: exactly the values that were written, in order; if a read
      fails, the first of them. */
  method ReceiveAll<T(==)>(reader: Reader, decode: Bytes -> Option<T>, faults: nat -> Option<nat>,
                           ghost payloads: seq<Bytes>, ghost values: seq<T>)
    returns (received: seq<T>, ended: bool)
    requires reader.Valid() && reader.Pending() == Wire(payloads) && Decodes(payloads, decode, values)
    modifies reader
    ensures received <= values && ((forall n :: 0 <= n <= |values| ==> faults(n).None?) ==> ended)
    ensures ended ==> received == values && reader.Pending() == []
  {
    received := [];
    while true
      invariant reader.Valid() && |received| <= |values| && received == values[..|received|]
      invariant reader.Pending() == Wire(payloads[|received|..])
      decreases |values| - |received|
    {
      ghost var rest := payloads[|received|..];
      if rest != [] {
        CarriedIffClean(rest[0], Wire(rest[1..]));
        assert rest[1..] == payloads[|received| + 1..];
      }
      var frame := reader.ReadFrame(decode, faults(|received|));
      match frame
      case Ok(Some(value)) => received := received + [value];
      case _ => return received, frame.Ok?;
    }
  }
}
