// The Connect streaming decoder of e2b_client.py. A message is framed as one
// flag byte, a 4-byte big-endian length and the body (Connect Protocol
// Reference, Enveloped-Message).
module ConnectDecoder {
  import opened Domain

  newtype Byte = b: int | 0 <= b < 256

  type Bytes = seq<Byte>

  const LIMIT: nat := 0x1_0000_0000

  datatype Frame = Frame(flags: Byte, body: Bytes)

  // ---- framing -----------------------------------------------------------------

  function BigEndian(n: nat): Bytes
    requires n < LIMIT
  {
    [(n / 0x100_0000) as Byte, (n / 0x1_0000 % 256) as Byte, (n / 256 % 256) as Byte, (n % 256) as Byte]
  }

  function Length(b: Bytes): nat
    requires |b| >= 5
  {
    b[1] as int * 0x100_0000 + b[2] as int * 0x1_0000 + b[3] as int * 256 + b[4] as int
  }

  lemma LengthOfPacked(flags: Byte, n: nat, tail: Bytes)
    requires n < LIMIT
    ensures Length([flags] + BigEndian(n) + tail) == n
  {
    assert n / 256 / 256 == n / 0x1_0000 && n / 0x1_0000 / 256 == n / 0x100_0000;
  }

  lemma PackedOfLength(b: Bytes)
    requires |b| >= 5
    ensures Length(b) < LIMIT && b[..5] == [b[0]] + BigEndian(Length(b))
  {
    var n := Length(b);
    assert n / 256 == b[1] as int * 0x1_0000 + b[2] as int * 256 + b[3] as int;
    assert n / 0x1_0000 == b[1] as int * 256 + b[2] as int;
    assert n / 0x100_0000 == b[1] as int;
  }

  function Pack(f: Frame): Bytes
    requires |f.body| < LIMIT
  {
    [f.flags] + BigEndian(|f.body|) + f.body
  }

  ghost predicate Packable(fs: seq<Frame>) {
    forall i :: 0 <= i < |fs| ==> |fs[i].body| < LIMIT
  }

  ghost function PackAll(fs: seq<Frame>): Bytes
    requires Packable(fs)
  {
    if fs == [] then [] else Pack(fs[0]) + PackAll(fs[1..])
  }

  // The bytes of a frame: the flags, the length with its most significant byte
  // first, the body.
  lemma PackMeans(f: Frame)
    requires |f.body| < LIMIT
    ensures var p := Pack(f);
      && |p| == 5 + |f.body| && p[0] == f.flags && p[5..] == f.body
      && |f.body| == ((p[1] as int * 256 + p[2] as int) * 256 + p[3] as int) * 256 + p[4] as int
  {
    PackedOfFrame(f);
  }

  lemma PackedOfFrame(f: Frame)
    requires |f.body| < LIMIT
    ensures |Pack(f)| >= 5 && Length(Pack(f)) == |f.body|
  {
    LengthOfPacked(f.flags, |f.body|, f.body);
  }

  // A whole frame is at the front of the buffer.
  predicate Ready(b: Bytes) {
    |b| >= 5 && |b| >= 5 + Length(b)
  }

  function Head(b: Bytes): Frame
    requires Ready(b)
  {
    Frame(b[0], b[5..5 + Length(b)])
  }

  function Tail(b: Bytes): Bytes
    requires Ready(b)
  {
    b[5 + Length(b)..]
  }

  ghost function Unpack(b: Bytes): (seq<Frame>, Bytes)
    decreases |b|
  {
    if !Ready(b) then ([], b)
    else var (fs, rest) := Unpack(Tail(b)); ([Head(b)] + fs, rest)
  }

  lemma PackedHead(f: Frame, tail: Bytes)
    requires |f.body| < LIMIT
    ensures var b := Pack(f) + tail; Ready(b) && Head(b) == f && Tail(b) == tail
  {
    var b := Pack(f) + tail;
    assert b == [f.flags] + BigEndian(|f.body|) + (f.body + tail);
    LengthOfPacked(f.flags, |f.body|, f.body + tail);
    assert b[5..] == f.body + tail;
  }

  lemma HeadPacked(b: Bytes)
    requires Ready(b)
    ensures |Head(b).body| < LIMIT && Pack(Head(b)) + Tail(b) == b
  {
    PackedOfLength(b);
    assert b == b[..5] + b[5..5 + Length(b)] + b[5 + Length(b)..];
  }

  lemma UnpackStep(f: Frame, tail: Bytes)
    requires |f.body| < LIMIT
    ensures Unpack(Pack(f) + tail) == ([f] + Unpack(tail).0, Unpack(tail).1)
  {
    PackedHead(f, tail);
  }

  lemma Assoc<T>(a: seq<T>, b: seq<T>, c: seq<T>)
    ensures a + b + c == a + (b + c)
  {
  }

  // Unpacking inverts packing, whatever follows the packed frames.
  lemma {:induction false} UnpackPacked(fs: seq<Frame>, tail: Bytes)
    requires Packable(fs)
    ensures Unpack(PackAll(fs) + tail) == (fs + Unpack(tail).0, Unpack(tail).1)
  {
    if fs == [] {
      assert PackAll(fs) + tail == tail;
      assert fs + Unpack(tail).0 == Unpack(tail).0;
    } else {
      UnpackPacked(fs[1..], tail);
      UnpackStep(fs[0], PackAll(fs[1..]) + tail);
      Assoc(Pack(fs[0]), PackAll(fs[1..]), tail);
      Assoc([fs[0]], fs[1..], Unpack(tail).0);
      assert fs == [fs[0]] + fs[1..];
    }
  }

  // Packing inverts unpacking: no byte is lost or invented.
  lemma {:induction false} PackUnpacked(b: Bytes)
    ensures Packable(Unpack(b).0) && PackAll(Unpack(b).0) + Unpack(b).1 == b && !Ready(Unpack(b).1)
    decreases |b|
  {
    if Ready(b) {
      HeadPacked(b);
      PackUnpacked(Tail(b));
      var fs, rest := Unpack(b).0, Unpack(b).1;
      assert fs[1..] == Unpack(Tail(b)).0;
      assert PackAll(fs) + rest == Pack(Head(b)) + (PackAll(fs[1..]) + rest);
    }
  }

  // ---- messages ------------------------------------------------------------------

  // A parsed body, as far as the decoder looks: falsy values are absent, base64
  // data is decoded and the exit code converted.
  datatype Data = Data(stdout: Option<string>, stderr: Option<string>)
  datatype Event = Event(data: Option<Data>, end: Option<int>)
  datatype Parsed =
    | BadJson                                      // skipped
    | Crash                                        // reading it raises something else
    | Message(error: Option<string>, event: Event)

  datatype Chunk = Stdout(text: string) | Stderr(text: string) | Exit(code: int) | Failure(text: string)

  datatype Status = Reading | Ended | Crashed

  datatype Outcome = Outcome(chunks: seq<Chunk>, sawExit: bool, status: Status)

  predicate EndOfStream(f: Frame) {
    f.flags as int / 2 % 2 == 1
  }

  // What is read of a body depends on the flags: `error` only at the end of the
  // stream, `event` only before.
  type Parser = Frame -> Parsed

  function Parse(parse: Parser, f: Frame): Parsed {
    if f.body == [] then Message(None, Event(None, None)) else parse(f)
  }

  // What one frame contributes.
  function Handle(parse: Parser, f: Frame, sawExit: bool): Outcome {
    match Parse(parse, f)
    case BadJson => Outcome([], sawExit, Reading)
    case Crash => Outcome([], sawExit, Crashed)
    case Message(error, event) =>
      if EndOfStream(f) then
        Outcome((if error.Some? then [Failure(error.value)] else []) + (if sawExit then [] else [Exit(0)]), sawExit, Ended)
      else if event.data.Some? then
        Outcome(if event.data.value.stdout.Some? then [Stdout(event.data.value.stdout.value)]
                else if event.data.value.stderr.Some? then [Stderr(event.data.value.stderr.value)] else [],
                sawExit, Reading)
      else if event.end.Some? then Outcome([Exit(event.end.value)], true, Reading)
      else Outcome([], sawExit, Reading)
  }

  // The meaning of a frame sequence; frames after the end are not looked at.
  ghost function Interpret(parse: Parser, fs: seq<Frame>): Outcome {
    if fs == [] then Outcome([], false, Reading)
    else
      var before := Interpret(parse, fs[..|fs| - 1]);
      if before.status != Reading then before
      else
        var r := Handle(parse, fs[|fs| - 1], before.sawExit);
        Outcome(before.chunks + r.chunks, r.sawExit, r.status)
  }

  ghost function Concat(pieces: seq<Bytes>): Bytes {
    if pieces == [] then [] else Concat(pieces[..|pieces| - 1]) + pieces[|pieces| - 1]
  }

  lemma {:induction false} InterpretStops(parse: Parser, fs: seq<Frame>, more: seq<Frame>)
    requires Interpret(parse, fs).status != Reading
    ensures Interpret(parse, fs + more) == Interpret(parse, fs)
  {
    if more == [] {
      assert fs + more == fs;
    } else {
      InterpretStops(parse, fs, more[..|more| - 1]);
      assert (fs + more)[..|fs + more| - 1] == fs + more[..|more| - 1];
    }
  }

  lemma {:induction false} ConcatPrefix(pieces: seq<Bytes>, i: nat) returns (rest: Bytes)
    requires i <= |pieces|
    ensures Concat(pieces) == Concat(pieces[..i]) + rest
    decreases |pieces| - i
  {
    if i == |pieces| {
      assert pieces[..i] == pieces;
      rest := [];
    } else {
      assert pieces[..i + 1][..i] == pieces[..i];
      var r := ConcatPrefix(pieces, i + 1);
      rest := pieces[i] + r;
    }
  }

  lemma PackAppend(fs: seq<Frame>, f: Frame)
    requires Packable(fs) && |f.body| < LIMIT
    ensures Packable(fs + [f]) && PackAll(fs + [f]) == PackAll(fs) + Pack(f)
  {
    if fs == [] {
      assert [f][1..] == [] && fs + [f] == [f];
      assert PackAll([f]) == Pack(f) + [] == [] + Pack(f);
    } else {
      PackAppend(fs[1..], f);
      assert (fs + [f])[1..] == fs[1..] + [f] && (fs + [f])[0] == fs[0];
      Assoc(Pack(fs[0]), PackAll(fs[1..]), Pack(f));
    }
  }

  lemma ConcatNext(pieces: seq<Bytes>, i: nat)
    requires i < |pieces|
    ensures Concat(pieces[..i + 1]) == Concat(pieces[..i]) + pieces[i]
  {
    assert pieces[..i + 1][..i] == pieces[..i];
  }

  // The bytes so far are the frames handled and the buffer.
  ghost predicate Consumed(parse: Parser, fs: seq<Frame>, buf: Bytes, bytes: Bytes, r: Outcome) {
    Packable(fs) && PackAll(fs) + buf == bytes && Interpret(parse, fs) == r
  }

  lemma Buffer(parse: Parser, fs: seq<Frame>, buf: Bytes, pieces: seq<Bytes>, i: nat, r: Outcome)
    requires i < |pieces| && Consumed(parse, fs, buf, Concat(pieces[..i]), r)
    ensures Consumed(parse, fs, buf + pieces[i], Concat(pieces[..i + 1]), r)
  {
    ConcatNext(pieces, i);
    assert PackAll(fs) + (buf + pieces[i]) == PackAll(fs) + buf + pieces[i];
  }

  lemma Take(parse: Parser, fs: seq<Frame>, buf: Bytes, bytes: Bytes, r: Outcome)
    requires Consumed(parse, fs, buf, bytes, r) && r.status == Reading && Ready(buf)
    ensures var h := Handle(parse, Head(buf), r.sawExit);
      Consumed(parse, fs + [Head(buf)], Tail(buf), bytes, Outcome(r.chunks + h.chunks, h.sawExit, h.status))
  {
    var f := Head(buf);
    HeadPacked(buf);
    PackAppend(fs, f);
    assert PackAll(fs + [f]) + Tail(buf) == PackAll(fs) + (Pack(f) + Tail(buf));
    assert (fs + [f])[..|fs|] == fs;
  }

  // The result stands once the frames have stopped the decoder,
  lemma SettledStopped(parse: Parser, fs: seq<Frame>, buf: Bytes, pieces: seq<Bytes>, i: nat, r: Outcome)
    requires i <= |pieces| && Consumed(parse, fs, buf, Concat(pieces[..i]), r) && r.status != Reading
    ensures Interpret(parse, Unpack(Concat(pieces)).0) == r
  {
    var rest := ConcatPrefix(pieces, i);
    Assoc(PackAll(fs), buf, rest);
    UnpackPacked(fs, buf + rest);
    InterpretStops(parse, fs, Unpack(buf + rest).0);
  }

  // or once the pieces have run dry.
  lemma SettledDry(parse: Parser, fs: seq<Frame>, buf: Bytes, bytes: Bytes, r: Outcome)
    requires Consumed(parse, fs, buf, bytes, r) && !Ready(buf)
    ensures Interpret(parse, Unpack(bytes).0) == r
  {
    UnpackPacked(fs, buf);
    assert fs + [] == fs;
  }

  // The decoder's output is a function of the bytes alone: it is the meaning of
  // the frames they contain, however they were cut into pieces.
  method DecodeConnectStream(parse: Parser, pieces: seq<Bytes>) returns (out: seq<Chunk>, status: Status)
    ensures var r := Interpret(parse, Unpack(Concat(pieces)).0); out == r.chunks && status == r.status
  {
    var buf: Bytes, sawExit := [], false;
    out, status := [], Reading;
    ghost var fs: seq<Frame> := [];
    for i := 0 to |pieces|
      invariant Consumed(parse, fs, buf, Concat(pieces[..i]), Outcome(out, sawExit, Reading))
      invariant !Ready(buf) && status == Reading
    {
      Buffer(parse, fs, buf, pieces, i, Outcome(out, sawExit, Reading));
      buf := buf + pieces[i];
      while Ready(buf)
        invariant Consumed(parse, fs, buf, Concat(pieces[..i + 1]), Outcome(out, sawExit, Reading))
        invariant status == Reading
        decreases |buf|
      {
        Take(parse, fs, buf, Concat(pieces[..i + 1]), Outcome(out, sawExit, Reading));
        var f := Head(buf);
        var h := Handle(parse, f, sawExit);
        fs := fs + [f];
        buf := Tail(buf);
        out, sawExit, status := out + h.chunks, h.sawExit, h.status;
        if status != Reading {
          SettledStopped(parse, fs, buf, pieces, i + 1, Outcome(out, sawExit, status));
          return;
        }
      }
    }
    assert pieces[..|pieces|] == pieces;
    SettledDry(parse, fs, buf, Concat(pieces), Outcome(out, sawExit, Reading));
  }

  // ---- what the stream guarantees ---------------------------------------------

  ghost predicate HasExit(chunks: seq<Chunk>) {
    exists i :: 0 <= i < |chunks| && chunks[i].Exit?
  }

  lemma HasExitAppend(a: seq<Chunk>, b: seq<Chunk>)
    ensures HasExit(a + b) <==> HasExit(a) || HasExit(b)
  {
    if HasExit(a) {
      var i :| 0 <= i < |a| && a[i].Exit?;
      assert (a + b)[i].Exit?;
    }
    if HasExit(b) {
      var i :| 0 <= i < |b| && b[i].Exit?;
      assert (a + b)[|a| + i].Exit?;
    }
  }

  // The flag mirrors the output, and an ended stream always carries an exit.
  lemma {:induction false} ExitReported(parse: Parser, fs: seq<Frame>)
    ensures var r := Interpret(parse, fs);
      && (r.sawExit ==> HasExit(r.chunks))
      && (r.status == Reading ==> (HasExit(r.chunks) <==> r.sawExit))
      && (r.status == Ended ==> HasExit(r.chunks))
  {
    if fs != [] {
      var before := Interpret(parse, fs[..|fs| - 1]);
      ExitReported(parse, fs[..|fs| - 1]);
      if before.status == Reading {
        var r := Handle(parse, fs[|fs| - 1], before.sawExit);
        HasExitAppend(before.chunks, r.chunks);
        assert r.status == Ended && !before.sawExit ==> r.chunks[|r.chunks| - 1] == Exit(0);
        assert r.sawExit && !before.sawExit ==> r.chunks[0].Exit?;
      }
    }
  }

  ghost predicate ParsedEnd(parse: Parser, f: Frame) {
    EndOfStream(f) && Parse(parse, f).Message?
  }

  // Decoding ends exactly at the first parsed end-of-stream frame, if nothing
  // crashes before it; what follows it leaves no trace.
  lemma {:induction false} EndsAtFirstEnd(parse: Parser, fs: seq<Frame>, k: nat)
    requires k < |fs| && ParsedEnd(parse, fs[k])
    requires forall i :: 0 <= i < k ==> !ParsedEnd(parse, fs[i]) && !Parse(parse, fs[i]).Crash?
    ensures Interpret(parse, fs) == Interpret(parse, fs[..k + 1]) && Interpret(parse, fs).status == Ended
    ensures HasExit(Interpret(parse, fs).chunks)
  {
    StillReading(parse, fs[..k]);
    assert fs[..k + 1][..k] == fs[..k];
    InterpretStops(parse, fs[..k + 1], fs[k + 1..]);
    assert fs[..k + 1] + fs[k + 1..] == fs;
    ExitReported(parse, fs);
  }

  lemma {:induction false} StillReading(parse: Parser, fs: seq<Frame>)
    ensures Interpret(parse, fs).status == Reading
      <==> forall i :: 0 <= i < |fs| ==> !ParsedEnd(parse, fs[i]) && !Parse(parse, fs[i]).Crash?
  {
    if fs != [] {
      var init := fs[..|fs| - 1];
      StillReading(parse, init);
      assert forall i :: 0 <= i < |init| ==> init[i] == fs[i];
    }
  }

  // Bytes made of whole frames are decoded as exactly those frames.
  lemma DecodesPacked(fs: seq<Frame>)
    requires Packable(fs)
    ensures Unpack(PackAll(fs)) == (fs, [])
  {
    UnpackPacked(fs, []);
    assert PackAll(fs) + [] == PackAll(fs) && fs + [] == fs;
  }

  // ---- what was sent is what arrives ---------------------------------------------

  // The message that carries a chunk: output as data, an exit code as end.
  function Meaning(c: Chunk): Parsed {
    match c
    case Stdout(text) => Message(None, Event(Some(Data(Some(text), None)), None))
    case Stderr(text) => Message(None, Event(Some(Data(None, Some(text))), None))
    case Exit(code) => Message(None, Event(None, Some(code)))
    case Failure(text) => Message(Some(text), Event(None, None))
  }

  // One plain frame per chunk. Failures only travel in the closing frame.
  ghost predicate Carries(parse: Parser, fs: seq<Frame>, cs: seq<Chunk>) {
    && |fs| == |cs|
    && forall i :: 0 <= i < |fs| ==>
      !EndOfStream(fs[i]) && !cs[i].Failure? && fs[i].body != [] && parse(fs[i]) == Meaning(cs[i])
  }

  lemma {:induction false} ArrivesSoFar(parse: Parser, fs: seq<Frame>, cs: seq<Chunk>)
    requires Carries(parse, fs, cs)
    ensures Interpret(parse, fs) == Outcome(cs, HasExit(cs), Reading)
  {
    if fs != [] {
      var n := |fs| - 1;
      ArrivesSoFar(parse, fs[..n], cs[..n]);
      assert cs == cs[..n] + [cs[n]];
      HasExitAppend(cs[..n], [cs[n]]);
      assert HasExit([cs[n]]) <==> cs[n].Exit? by {
        assert [cs[n]][0] == cs[n];
      }
    }
  }

  // A command's chunks, framed and closed by an end-of-stream frame, arrive
  // unchanged and in order, with an exit code added only if none was sent.
  lemma DeliversSent(parse: Parser, fs: seq<Frame>, cs: seq<Chunk>, end: Frame)
    requires Carries(parse, fs, cs) && EndOfStream(end) && end.body == []
    ensures Interpret(parse, fs + [end]) == Outcome(cs + (if HasExit(cs) then [] else [Exit(0)]), HasExit(cs), Ended)
  {
    ArrivesSoFar(parse, fs, cs);
    assert (fs + [end])[..|fs|] == fs;
  }

  // ---- the whole output, frame by frame -----------------------------------------------

  // Flag bit 1, whatever the other bits are.
  lemma EndFlag(high: nat, low: nat, body: Bytes)
    requires high < 64 && low < 4
    ensures EndOfStream(Frame((4 * high + low) as Byte, body)) <==> low >= 2
  {
  }

  // What a frame before the end contributes: output of one stream, stdout first,
  // else the exit code of an end event without data.
  function Piece(parse: Parser, f: Frame): seq<Chunk> {
    match Parse(parse, f)
    case Message(_, Event(Some(Data(Some(text), _)), _)) => [Stdout(text)]
    case Message(_, Event(Some(Data(None, Some(text))), _)) => [Stderr(text)]
    case Message(_, Event(None, Some(code))) => [Exit(code)]
    case _ => []
  }

  ghost function Pieces(parse: Parser, fs: seq<Frame>): seq<Chunk> {
    if fs == [] then [] else Pieces(parse, fs[..|fs| - 1]) + Piece(parse, fs[|fs| - 1])
  }

  ghost predicate Plain(parse: Parser, fs: seq<Frame>) {
    forall i :: 0 <= i < |fs| ==> !ParsedEnd(parse, fs[i]) && !Parse(parse, fs[i]).Crash?
  }

  lemma HandlesPiece(parse: Parser, f: Frame, sawExit: bool)
    requires !ParsedEnd(parse, f) && !Parse(parse, f).Crash?
    ensures Handle(parse, f, sawExit) == Outcome(Piece(parse, f), sawExit || HasExit(Piece(parse, f)), Reading)
  {
    var p := Piece(parse, f);
    assert p != [] ==> (p[0].Exit? ==> HasExit(p));
  }

  // While reading, the output is the pieces of the frames so far.
  lemma {:induction false} ReadsPieces(parse: Parser, fs: seq<Frame>)
    requires Plain(parse, fs)
    ensures Interpret(parse, fs) == Outcome(Pieces(parse, fs), HasExit(Pieces(parse, fs)), Reading)
  {
    if fs != [] {
      var n := |fs| - 1;
      var init, f := fs[..n], fs[n];
      assert Plain(parse, init) by { assert forall i :: 0 <= i < n ==> init[i] == fs[i]; }
      ReadsPieces(parse, init);
      HasExitAppend(Pieces(parse, init), Piece(parse, f));
      HandlesPiece(parse, f, HasExit(Pieces(parse, init)));
    }
  }

  // The frame that stops the decoder: the error of the end-of-stream frame, if any,
  // then the exit code 0 if no frame had one; or nothing more, if it breaks.
  lemma StopsWith(parse: Parser, fs: seq<Frame>, last: Frame, more: seq<Frame>)
    requires Plain(parse, fs)
    ensures var r, before := Interpret(parse, fs + [last] + more), Pieces(parse, fs);
      match Parse(parse, last)
      case Crash => r.chunks == before && r.status == Crashed
      case Message(error, _) => EndOfStream(last) ==>
        && r.status == Ended
        && r.chunks == before + (if error.Some? then [Failure(error.value)] else []) + (if HasExit(before) then [] else [Exit(0)])
      case BadJson => true
  {
    ReadsPieces(parse, fs);
    var before := Pieces(parse, fs);
    assert (fs + [last])[..|fs|] == fs;
    if Interpret(parse, fs + [last]).status != Reading { InterpretStops(parse, fs + [last], more); }
    var p := Parse(parse, last);
    if p.Message? && EndOfStream(last) {
      var failure := if p.error.Some? then [Failure(p.error.value)] else [];
      var exit := if HasExit(before) then [] else [Exit(0)];
      assert before + (failure + exit) == before + failure + exit;
    }
    assert before + [] == before;
  }

  // ---- the request envelope of exec_command --------------------------------------

  // struct.pack(">BI", 0, len) rejects a body whose length needs 33 bits.
  method Envelope(body: Bytes) returns (e: Option<Bytes>)
    ensures e.Some? <==> |body| < LIMIT
    ensures e.Some? ==> Unpack(e.value) == ([Frame(0, body)], [])
    ensures e.Some? ==> |e.value| == 5 + |body| && e.value[0] == 0 && e.value[5..] == body
    ensures e.Some? ==>
      |body| == ((e.value[1] as int * 256 + e.value[2] as int) * 256 + e.value[3] as int) * 256 + e.value[4] as int
  {
    if |body| >= LIMIT {
      return None;
    }
    e := Some([0] + BigEndian(|body|) + body);
    var f := Frame(0, body);
    PackMeans(f);
    assert [f][1..] == [];
    assert PackAll([f]) == Pack(f) + PackAll([]) == e.value;
    DecodesPacked([f]);
  }
}
