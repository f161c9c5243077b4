/** Docker's multiplexed log stream: frames of two streams, read in arbitrary chunks, become
    whole lines with a bounded buffer per stream. */
module FrameDemux {
  import opened LogText
  import opened Prelude

  const MAX_LINE: nat := 16384
  const LIMIT: nat := MAX_LINE + 64
  const MAX_FRAME: nat := 1024 * 1024
  const CR: byte := 13

  datatype Frame = Frame(stream: byte, payload: Bytes)

  predicate FrameOk(f: Frame) {
    (f.stream == 1 || f.stream == 2) && |f.payload| <= MAX_FRAME
  }

  // ---- the wire

  function BigEndian(b: Bytes): nat
    requires |b| == 4
  {
    0x1000000 * (b[0] as int) + 0x10000 * (b[1] as int) + 0x100 * (b[2] as int) + (b[3] as int)
  }

  function BigEndianOf(n: nat): (b: Bytes)
    requires n < 0x1_0000_0000
    ensures |b| == 4 && BigEndian(b) == n
  {
    [n / 0x1000000, n / 0x10000 % 0x100, n / 0x100 % 0x100, n % 0x100]
  }

  function Encode(f: Frame): (b: Bytes)
    requires FrameOk(f)
    ensures |b| == 8 + |f.payload|
  {
    [f.stream, 0, 0, 0] + BigEndianOf(|f.payload|) + f.payload
  }

  function EncodeAll(fs: seq<Frame>): Bytes
    requires forall i :: 0 <= i < |fs| ==> FrameOk(fs[i])
  {
    if fs == [] then [] else Encode(fs[0]) + EncodeAll(fs[1..])
  }

  datatype End = Eof | BadFrame | Cut

  predicate HeaderOk(h: Bytes)
    requires |h| == 8
  {
    (h[0] == 1 || h[0] == 2) && h[1..4] == [0, 0, 0] && BigEndian(h[4..]) <= MAX_FRAME
  }

  /** The complete frames of a byte stream and why they end. */
  function Decode(b: Bytes): (seq<Frame>, End)
    decreases |b|
  {
    if |b| < 8 then ([], Eof)
    else if !HeaderOk(b[..8]) then ([], BadFrame)
    else
      var size := BigEndian(b[4..8]);
      if |b| < 8 + size then ([], Eof)
      else
        var (rest, end) := Decode(b[8 + size..]);
        ([Frame(b[0], b[8..8 + size])] + rest, end)
  }

  lemma {:induction false} DecodeEncode(fs: seq<Frame>)
    requires forall i :: 0 <= i < |fs| ==> FrameOk(fs[i])
    ensures Decode(EncodeAll(fs)) == (fs, Eof)
  {
    if fs != [] {
      var f := fs[0];
      var b := EncodeAll(fs);
      var head := Encode(f);
      assert b[..8] == [f.stream, 0, 0, 0] + BigEndianOf(|f.payload|);
      assert b[..8][4..] == BigEndianOf(|f.payload|) == b[4..8];
      assert b[8..8 + |f.payload|] == f.payload;
      assert b[8 + |f.payload|..] == EncodeAll(fs[1..]);
      DecodeEncode(fs[1..]);
      assert fs == [f] + fs[1..];
    }
  }

  /** Everything the frames carry for one stream. */
  function Carried(fs: seq<Frame>, s: byte): Bytes {
    if fs == [] then []
    else Carried(fs[..|fs| - 1], s) + (if fs[|fs| - 1].stream == s then fs[|fs| - 1].payload else [])
  }

  // ---- lines

  /** A line over the limit is reported but not kept. */
  function Bounded(line: Bytes): Option<Bytes> {
    if |line| > LIMIT then None else Some(line)
  }

  function BoundedAll(lines: seq<Bytes>): seq<Option<Bytes>> {
    if lines == [] then [] else BoundedAll(lines[..|lines| - 1]) + [Bounded(lines[|lines| - 1])]
  }

  datatype Yielded = Yielded(stream: byte, line: Option<Bytes>)

  function OfStream(ys: seq<Yielded>, s: byte): seq<Option<Bytes>> {
    if ys == [] then []
    else OfStream(ys[..|ys| - 1], s) + (if ys[|ys| - 1].stream == s then [ys[|ys| - 1].line] else [])
  }

  /** Python's `splitlines(keepends=True)` for bytes: breaks after LF, CR and CR LF. */
  function Pieces(cur: Bytes, s: Bytes): seq<Bytes>
    decreases |s|
  {
    if s == [] then (if cur == [] then [] else [cur])
    else if s[0] == NL || (s[0] == CR && !(|s| > 1 && s[1] == NL)) then
      [cur + [s[0]]] + Pieces([], s[1..])
    else Pieces(cur + [s[0]], s[1..])
  }

  predicate PieceOk(p: Bytes) {
    p != [] && NL !in p[..|p| - 1]
  }

  lemma {:induction false} PiecesCover(cur: Bytes, s: Bytes)
    requires NL !in cur
    ensures Flatten(Pieces(cur, s)) == cur + s
    ensures forall i :: 0 <= i < |Pieces(cur, s)| ==> PieceOk(Pieces(cur, s)[i])
    decreases |s|
  {
    if s == [] {
      assert Flatten([cur]) == cur + Flatten([]);
    } else if s[0] == NL || (s[0] == CR && !(|s| > 1 && s[1] == NL)) {
      PiecesCover([], s[1..]);
      assert (cur + [s[0]])[..|cur|] == cur;
      assert ([cur + [s[0]]] + Pieces([], s[1..]))[1..] == Pieces([], s[1..]);
      assert (cur + [s[0]]) + s[1..] == cur + s;
    } else {
      PiecesCover(cur + [s[0]], s[1..]);
      assert (cur + [s[0]]) + s[1..] == cur + s;
    }
  }

  lemma SplitPiece(held: Bytes, p: Bytes)
    requires PieceOk(p)
    ensures Split(held, p) == if p[|p| - 1] == NL then ([held + p], []) else ([], held + p)
  {
    if p[|p| - 1] == NL {
      SplitRecord(held, p);
    } else {
      assert p == p[..|p| - 1] + [p[|p| - 1]];
      SplitNoNewline(held, p);
    }
  }

  // ---- the demultiplexer

  /** The unfinished line of one stream, or the fact that it is already over the limit. */
  datatype Channel = Channel(buffer: Bytes, discarding: bool)

  /** What one stream must show after `seen`: the bounded lines yielded so far, and a buffer
      equal to the unfinished line unless that line is already over the limit. */
  ghost predicate StreamOk(ys: seq<Option<Bytes>>, c: Channel, seen: Bytes) {
    var (lines, held) := Split([], seen);
    && ys == BoundedAll(lines)
    && (if c.discarding then c.buffer == [] && |held| > LIMIT else c.buffer == held && |held| <= LIMIT)
  }

  /** Extend the unfinished line, or start discarding it. */
  function Absorb(c: Channel, piece: Bytes): Channel {
    if c.discarding || |c.buffer| + |piece| > LIMIT then Channel([], true)
    else Channel(c.buffer + piece, false)
  }

  /** The effect of one piece on one stream. */
  lemma PieceStep(ys: seq<Option<Bytes>>, c: Channel, seen: Bytes, piece: Bytes)
    requires PieceOk(piece) && StreamOk(ys, c, seen)
    ensures var d := Absorb(c, piece);
            if piece[|piece| - 1] == NL then
              StreamOk(ys + [if d.discarding then None else Some(d.buffer)], Channel([], false), seen + piece)
            else StreamOk(ys, d, seen + piece)
  {
    var (lines, held) := Split([], seen);
    SplitAppend([], seen, piece);
    SplitPiece(held, piece);
    if piece[|piece| - 1] == NL {
      assert (lines + [held + piece])[..|lines|] == lines;
    } else {
      assert lines + [] == lines;
    }
  }

  lemma YieldedStep(ys: seq<Yielded>, y: Yielded, s: byte)
    ensures OfStream(ys + [y], s) == if y.stream == s then OfStream(ys, s) + [y.line] else OfStream(ys, s)
  {
    assert (ys + [y])[..|ys|] == ys;
  }

  type Channels = map<byte, Channel>

  ghost predicate Good(channels: Channels, ys: seq<Yielded>, seen: map<byte, Bytes>) {
    && channels.Keys == {1, 2} && seen.Keys == {1, 2}
    && StreamOk(OfStream(ys, 1), channels[1], seen[1])
    && StreamOk(OfStream(ys, 2), channels[2], seen[2])
  }

  /** The line a finished channel yields. */
  function Finished(c: Channel): Option<Bytes> {
    if c.discarding then None else Some(c.buffer)
  }

  lemma GoodGoesOn(channels: Channels, ys: seq<Yielded>, seen: map<byte, Bytes>, stream: byte, piece: Bytes)
    requires Good(channels, ys, seen) && stream in {1, 2} && PieceOk(piece) && piece[|piece| - 1] != NL
    ensures Good(channels[stream := Absorb(channels[stream], piece)], ys, seen[stream := seen[stream] + piece])
  {
    PieceStep(OfStream(ys, stream), channels[stream], seen[stream], piece);
  }

  lemma GoodYields(channels: Channels, ys: seq<Yielded>, seen: map<byte, Bytes>, stream: byte, piece: Bytes)
    requires Good(channels, ys, seen) && stream in {1, 2} && PieceOk(piece) && piece[|piece| - 1] == NL
    ensures Good(channels[stream := Channel([], false)],
                 ys + [Yielded(stream, Finished(Absorb(channels[stream], piece)))],
                 seen[stream := seen[stream] + piece])
  {
    PieceStep(OfStream(ys, stream), channels[stream], seen[stream], piece);
    var y := Yielded(stream, Finished(Absorb(channels[stream], piece)));
    YieldedStep(ys, y, 1);
    YieldedStep(ys, y, 2);
  }

  class Demux {
    var channels: Channels
    var yielded: seq<Yielded>
    ghost var seen: map<byte, Bytes>

    ghost predicate Valid()
      reads this
    {
      Good(channels, yielded, seen)
    }

    constructor ()
      ensures Valid() && yielded == [] && seen == map[1 := [], 2 := []]
    {
      channels := map[1 := Channel([], false), 2 := Channel([], false)];
      yielded := [];
      seen := map[1 := [], 2 := []];
    }

    /** One piece of a payload: at most one newline, at its end. */
    method Piece(stream: byte, piece: Bytes)
      requires Valid() && stream in {1, 2} && PieceOk(piece)
      modifies this
      ensures Valid() && seen == Received(old(seen), stream, piece)
    {
      var c := Absorb(channels[stream], piece);
      if piece[|piece| - 1] == NL {
        GoodYields(channels, yielded, seen, stream, piece);
        yielded := yielded + [Yielded(stream, Finished(c))];
        channels := channels[stream := Channel([], false)];
      } else {
        GoodGoesOn(channels, yielded, seen, stream, piece);
        channels := channels[stream := c];
      }
      seen := Received(seen, stream, piece);
    }

    method Feed(stream: byte, payload: Bytes)
      requires Valid() && stream in {1, 2}
      modifies this
      ensures Valid() && seen == Received(old(seen), stream, payload)
    {
      var pieces := Pieces([], payload);
      ghost var got: Bytes := [];
      var i := 0;
      FeedStarts(seen, stream, pieces, payload);
      while i < |pieces|
        invariant 0 <= i <= |pieces| && Valid()
        invariant got == Flatten(pieces[..i]) && seen == Received(old(seen), stream, got)
      {
        FeedStep(old(seen), stream, got, pieces, i);
        Piece(stream, pieces[i]);
        got := got + pieces[i];
        i := i + 1;
      }
      assert pieces[..|pieces|] == pieces;
    }
  }

  function Received(seen: map<byte, Bytes>, stream: byte, got: Bytes): map<byte, Bytes>
    requires stream in seen
  {
    seen[stream := seen[stream] + got]
  }

  lemma FeedStarts(seen: map<byte, Bytes>, stream: byte, pieces: seq<Bytes>, payload: Bytes)
    requires stream in seen && pieces == Pieces([], payload)
    ensures Received(seen, stream, []) == seen && Flatten(pieces[..0]) == [] && Flatten(pieces) == payload
    ensures forall i :: 0 <= i < |pieces| ==> PieceOk(pieces[i])
  {
    PiecesCover([], payload);
    assert seen[stream] + [] == seen[stream] && [] + payload == payload;
  }

  lemma FeedStep(seen: map<byte, Bytes>, stream: byte, got: Bytes, pieces: seq<Bytes>, i: nat)
    requires stream in seen && i < |pieces| && got == Flatten(pieces[..i])
    ensures got + pieces[i] == Flatten(pieces[..i + 1])
    ensures Received(Received(seen, stream, got), stream, pieces[i]) == Received(seen, stream, got + pieces[i])
  {
    FlattenNext(pieces, i);
    assert seen[stream] + (got + pieces[i]) == (seen[stream] + got) + pieces[i];
  }

  lemma FlattenNext(parts: seq<Bytes>, i: nat)
    requires i < |parts|
    ensures Flatten(parts[..i + 1]) == Flatten(parts[..i]) + parts[i]
  {
    assert parts[..i + 1] == parts[..i] + [parts[i]];
    FlattenAppend(parts[..i], [parts[i]]);
    assert Flatten([parts[i]]) == parts[i] + Flatten([]);
  }

  // ---- reading

  /** A network response: each read returns some non-empty part of what is left, up to `limit`. */
  class Response {
    const bytes: Bytes
    var pos: nat

    constructor (bytes: Bytes)
      ensures this.bytes == bytes && pos == 0
    {
      this.bytes := bytes;
      pos := 0;
    }

    method Read(limit: nat) returns (chunk: Bytes)
      requires pos <= |bytes| && limit > 0
      modifies this
      ensures old(pos) <= pos <= |bytes| && pos - old(pos) <= limit && chunk == bytes[old(pos)..pos]
      ensures chunk == [] <==> old(pos) == |bytes|
    {
      if pos == |bytes| {
        return [];
      }
      var n :| 0 < n <= limit && n <= |bytes| - pos;
      chunk := bytes[pos..pos + n];
      pos := pos + n;
    }
  }

  /** `exact`: the next `size` bytes, however they arrive, or the end of the stream. */
  method Exact(r: Response, size: nat) returns (data: Option<Bytes>)
    requires r.pos <= |r.bytes|
    modifies r
    ensures old(r.pos) <= r.pos <= |r.bytes|
    ensures if old(r.pos) + size <= |r.bytes|
            then data == Some(r.bytes[old(r.pos)..old(r.pos) + size]) && r.pos == old(r.pos) + size
            else data == None
  {
    var result: Bytes := [];
    while |result| < size
      invariant old(r.pos) <= r.pos <= |r.bytes| && result == r.bytes[old(r.pos)..r.pos] && |result| <= size
      decreases size - |result|
    {
      var left := size - |result|;
      var chunk := r.Read(if left < 65536 then left else 65536);
      if chunk == [] {
        return None;
      }
      result := result + chunk;
    }
    return Some(result);
  }

  /** The frames decoded from `b` continue the frames already carried. */
  lemma CarriedOne(a: seq<Frame>, f: Frame, s: byte)
    ensures Carried(a + [f], s) == Carried(a, s) + (if f.stream == s then f.payload else [])
  {
    assert (a + [f])[..|a|] == a;
  }

  function CarriedBoth(fs: seq<Frame>): map<byte, Bytes> {
    map[1 := Carried(fs, 1), 2 := Carried(fs, 2)]
  }

  lemma CarriedNext(fs: seq<Frame>, f: Frame)
    requires f.stream == 1 || f.stream == 2
    ensures CarriedBoth(fs + [f]) == Received(CarriedBoth(fs), f.stream, f.payload)
  {
    CarriedOne(fs, f, 1);
    CarriedOne(fs, f, 2);
    assert Carried(fs, 1) + [] == Carried(fs, 1) && Carried(fs, 2) + [] == Carried(fs, 2);
  }

  /** After `done`, the rest of the stream decodes from `pos`. */
  ghost predicate Decoding(b: Bytes, pos: nat, done: seq<Frame>) {
    && pos <= |b|
    && Decode(b).0 == done + Decode(b[pos..]).0
    && Decode(b).1 == Decode(b[pos..]).1
  }

  lemma DecodingStarts(b: Bytes)
    ensures Decoding(b, 0, [])
  {
    assert b[0..] == b && [] + Decode(b).0 == Decode(b).0;
  }

  lemma DecodingStops(b: Bytes, pos: nat, done: seq<Frame>)
    requires Decoding(b, pos, done)
    requires pos + 8 > |b| || !HeaderOk(b[pos..pos + 8]) || pos + 8 + BigEndian(b[pos + 4..pos + 8]) > |b|
    ensures Decode(b) == (done, if pos + 8 <= |b| && !HeaderOk(b[pos..pos + 8]) then BadFrame else Eof)
  {
    var rest := b[pos..];
    if pos + 8 <= |b| {
      assert rest[..8] == b[pos..pos + 8] && rest[4..8] == b[pos + 4..pos + 8];
    }
    assert done + [] == done;
  }

  lemma DecodingStep(b: Bytes, pos: nat, done: seq<Frame>)
    requires Decoding(b, pos, done) && pos + 8 <= |b| && HeaderOk(b[pos..pos + 8])
    requires pos + 8 + BigEndian(b[pos + 4..pos + 8]) <= |b|
    ensures var size := BigEndian(b[pos + 4..pos + 8]);
            Decoding(b, pos + 8 + size, done + [Frame(b[pos], b[pos + 8..pos + 8 + size])])
  {
    var rest, size := b[pos..], BigEndian(b[pos + 4..pos + 8]);
    assert rest[..8] == b[pos..pos + 8] && rest[4..8] == b[pos + 4..pos + 8];
    assert rest[8 + size..] == b[pos + 8 + size..] && rest[8..8 + size] == b[pos + 8..pos + 8 + size];
    var f, tail := Frame(b[pos], b[pos + 8..pos + 8 + size]), Decode(rest[8 + size..]).0;
    assert done + ([f] + tail) == (done + [f]) + tail;
  }

  /** The next frame of the response, or why there is none. */
  method NextFrame(r: Response, ghost done: seq<Frame>) returns (frame: Option<Frame>, end: End)
    requires Decoding(r.bytes, r.pos, done)
    modifies r
    ensures frame.Some? ==> FrameOk(frame.value) && Decoding(r.bytes, r.pos, done + [frame.value])
    ensures frame.None? ==> end != Cut && (done, end) == Decode(r.bytes)
  {
    ghost var at := r.pos;
    frame, end := None, Eof;
    var header := Exact(r, 8);
    if header.None? {
      DecodingStops(r.bytes, at, done);
      return;
    }
    assert header.value[4..] == r.bytes[at + 4..at + 8];
    if !HeaderOk(header.value) {
      DecodingStops(r.bytes, at, done);
      return None, BadFrame;
    }
    var size := BigEndian(header.value[4..]);
    var payload := Exact(r, size);
    if payload.None? {
      DecodingStops(r.bytes, at, done);
      return;
    }
    DecodingStep(r.bytes, at, done);
    frame := Some(Frame(header.value[0], payload.value));
  }

  lemma DoneIsPrefix(b: Bytes, pos: nat, done: seq<Frame>)
    requires Decoding(b, pos, done)
    ensures done <= Decode(b).0
  {
  }

  /** `lines`: demultiplex a response until it ends, turns bad, or the reading cycle is cut short.
      Unless cut short, exactly the frames of the byte stream were consumed, whatever the chunks. */
  method Lines(r: Response, d: Demux, cycles: nat) returns (end: End, ghost done: seq<Frame>)
    requires r.pos == 0 && d.Valid() && d.seen == map[1 := [], 2 := []]
    modifies r, d
    ensures d.Valid() && d.seen == CarriedBoth(done)
    ensures done <= Decode(r.bytes).0 && (end != Cut ==> (done, end) == Decode(r.bytes))
  {
    done := [];
    DecodingStarts(r.bytes);
    var turn := 0;
    while turn < cycles
      invariant Decoding(r.bytes, r.pos, done) && d.Valid() && d.seen == CarriedBoth(done)
    {
      turn := turn + 1;
      var frame, why := NextFrame(r, done);
      if frame.None? {
        return why, done;
      }
      CarriedNext(done, frame.value);
      d.Feed(frame.value.stream, frame.value.payload);
      done := done + [frame.value];
    }
    DoneIsPrefix(r.bytes, r.pos, done);
    return Cut, done;
  }

  /** However well-formed frames cut two streams and however reads cut the frames, each stream
      yields the newline split of its payload with over-long lines replaced, and no buffer ever
      exceeds the limit. */
  lemma DemuxRefinesSplitting(d: Demux, fs: seq<Frame>, s: byte)
    requires forall i :: 0 <= i < |fs| ==> FrameOk(fs[i])
    requires d.Valid() && d.seen == CarriedBoth(Decode(EncodeAll(fs)).0) && s in {1, 2}
    ensures OfStream(d.yielded, s) == BoundedAll(Split([], Carried(fs, s)).0)
    ensures |d.channels[s].buffer| <= LIMIT
  {
    DecodeEncode(fs);
  }
}
