/** Decoding of a Docker Engine log stream: apps/agent/internal/logs/decode.go.

    Go strings are byte strings, so text is modelled as bytes. RFC 3339 parsing is abstract: a
    `StampParser` says whether a candidate is a timestamp and how it is written back. */
module Decode {
  import opened Prelude

  newtype Byte = b: int | 0 <= b < 256
  type Text = seq<Byte>

  const LF: Byte := 10
  const CR: Byte := 13
  const SPACE: Byte := 32

  datatype StreamName = Stdout | Stderr
  datatype Timestamp = Now | Stamp(text: Text)
  datatype Entry = Entry(timestamp: Timestamp, stream: StreamName, message: Text)

  type StampParser = Text -> Option<Text>

  /** How the reader ends: cleanly, or with an error that is not io.EOF. */
  datatype Ending = Eof | Broken

  // ---------- one line ----------

  predicate EndsInCrLf(line: Text) {
    line != [] && (line[|line| - 1] == CR || line[|line| - 1] == LF)
  }

  function TrimRightCrLf(line: Text): Text {
    if EndsInCrLf(line) then TrimRightCrLf(line[..|line| - 1]) else line
  }

  function IndexByte(line: Text, b: Byte, from: nat): (r: int)
    requires from <= |line|
    ensures r == -1 || (from <= r < |line| && line[r] == b)
    decreases |line| - from
  {
    if from == |line| then -1 else if line[from] == b then from else IndexByte(line, b, from + 1)
  }

  function ParseTimestampedLine(rawLine: Text, stream: StreamName, parse: StampParser): Entry {
    var line := TrimRightCrLf(rawLine);
    var space := IndexByte(line, SPACE, 0);
    if space > 0 && parse(line[..space]).Some?
    then Entry(Stamp(parse(line[..space]).value), stream, line[space + 1..])
    else Entry(Now, stream, line)
  }

  // ---------- whole payloads, as strings.ReplaceAll and strings.Split see them ----------

  function NormaliseNewlines(s: Text): Text {
    if s == [] then []
    else if |s| >= 2 && s[0] == CR && s[1] == LF then [LF] + NormaliseNewlines(s[2..])
    else [s[0]] + NormaliseNewlines(s[1..])
  }

  function SplitLF(s: Text): (parts: seq<Text>)
    ensures parts != []
  {
    if s == [] then [[]]
    else
      var rest := SplitLF(s[1..]);
      if s[0] == LF then [[]] + rest else [[s[0]] + rest[0]] + rest[1..]
  }

  // ---------- the reference: a stream is a sequence of LF-terminated pieces ----------

  /** The length of the first piece: up to and including the first LF, or everything. */
  function PieceLength(s: Text): (n: nat)
    requires s != []
    ensures 0 < n <= |s| && LF !in s[..n - 1]
    ensures n < |s| ==> s[n - 1] == LF
  {
    if s[0] == LF || |s| == 1 then 1 else 1 + PieceLength(s[1..])
  }

  function Pieces(s: Text): seq<Text> {
    if s == [] then [] else [s[..PieceLength(s)]] + Pieces(s[PieceLength(s)..])
  }

  function ParseAll(lines: seq<Text>, stream: StreamName, parse: StampParser): seq<Entry> {
    if lines == [] then []
    else [ParseTimestampedLine(lines[0], stream, parse)] + ParseAll(lines[1..], stream, parse)
  }

  /** One entry for every piece, blank ones included. */
  function LineEntries(payload: Text, stream: StreamName, parse: StampParser): seq<Entry> {
    ParseAll(Pieces(payload), stream, parse)
  }

  // ---------- frames ----------

  datatype Frame = Frame(code: Byte, payload: Text)

  function StreamOf(code: Byte): StreamName {
    if code == 2 then Stderr else Stdout
  }

  function BigEndian(n: nat): (r: Text)
    requires n < 0x1_0000_0000
    ensures |r| == 4
  {
    [(n / 256 / 256 / 256) as Byte, (n / 256 / 256 % 256) as Byte, (n / 256 % 256) as Byte, (n % 256) as Byte]
  }

  function Uint32(b: Text): nat {
    if b == [] then 0 else Uint32(b[..|b| - 1]) * 256 + b[|b| - 1] as nat
  }

  ghost predicate WireFrames(fs: seq<Frame>) {
    forall i :: 0 <= i < |fs| ==> fs[i].code <= 2 && |fs[i].payload| < 0x1_0000_0000
  }

  function EncodeFrame(f: Frame): (r: Text)
    requires |f.payload| < 0x1_0000_0000
    ensures |r| == 8 + |f.payload|
  {
    [f.code, 0, 0, 0] + BigEndian(|f.payload|) + f.payload
  }

  ghost function EncodeFrames(fs: seq<Frame>): Text
    requires WireFrames(fs)
  {
    if fs == [] then [] else EncodeFrame(fs[0]) + EncodeFrames(fs[1..])
  }

  /** The frames whose encoding lies wholly in the first `cut` bytes. */
  ghost function CompleteFrames(fs: seq<Frame>, cut: nat): seq<Frame> {
    if fs == [] || 8 + |fs[0].payload| > cut then []
    else [fs[0]] + CompleteFrames(fs[1..], cut - (8 + |fs[0].payload|))
  }

  function FrameEntries(fs: seq<Frame>, parse: StampParser): seq<Entry> {
    if fs == [] then []
    else LineEntries(fs[0].payload, StreamOf(fs[0].code), parse) + FrameEntries(fs[1..], parse)
  }

  /** What a byte stream holds when it is read frame by frame and the unfinished rest is ignored. */
  function FramesIn(input: Text): seq<Frame>
    decreases |input|
  {
    if |input| < 8 then []
    else
      var size := Uint32(input[4..8]);
      if |input| < 8 + size then [] else [Frame(input[0], input[8..8 + size])] + FramesIn(input[8 + size..])
  }

  /** What follows the complete frames of a byte stream. */
  function Unfinished(input: Text): Text
    decreases |input|
  {
    if |input| < 8 || |input| < 8 + Uint32(input[4..8]) then input else Unfinished(input[8 + Uint32(input[4..8])..])
  }

  predicate IsLikelyMultiplexed(header: Text) {
    |header| >= 8 && header[0] <= 2 && header[1] == 0 && header[2] == 0 && header[3] == 0
  }

  /** Every entry a log stream decodes to, for a callback that accepts them all. */
  function LogEntries(input: Text, parse: StampParser): seq<Entry> {
    if |input| < 8 then []
    else if IsLikelyMultiplexed(input[..8]) then FrameEntries(FramesIn(input), parse)
    else LineEntries(input, Stdout, parse)
  }

  // ---------- the loops ----------

  /** The error that is returned: the callback's own, or where the reader's error was met. */
  datatype DecodeError = NoError | CallbackRefused | PeekFailed | HeaderFailed | PayloadFailed | LineFailed

  /** The callback refuses an entry before the reader can fail behind it. */
  function ErrorOf(entries: seq<Entry>, room: nat, ending: Ending, failed: DecodeError): (error: DecodeError)
    ensures failed != NoError && failed != CallbackRefused ==>
      (error == CallbackRefused <==> |entries| > room) && (error == NoError <==> |entries| <= room && ending.Eof?)
    ensures |entries| <= room && ending.Broken? ==> error == failed
  {
    if |entries| > room then CallbackRefused else if ending.Eof? then NoError else failed
  }

  /** What a callback that accepts `room` entries and then fails has seen. */
  function Accepted(entries: seq<Entry>, room: nat): (seen: seq<Entry>)
    ensures seen <= entries && |seen| <= room && (|seen| < room ==> seen == entries)
  {
    if |entries| <= room then entries else entries[..room]
  }

  method EmitLines(payload: Text, stream: StreamName, parse: StampParser, room: nat)
    returns (seen: seq<Entry>, ok: bool)
    ensures seen == Accepted(LineEntries(payload, stream, parse), room)
    ensures ok <==> |LineEntries(payload, stream, parse)| <= room
  {
    hide LineEntries, ParseTimestampedLine, NormaliseNewlines;
    var parts := SplitLF(NormaliseNewlines(payload));
    ghost var all := LineEntries(payload, stream, parse);
    PartsArePieces(payload, stream, parse);
    seen := [];
    for i := 0 to |parts|
      invariant |seen| <= room
      invariant all == seen + PartEntries(parts[i..], stream, parse)
    {
      FirstPart(parts[i..], stream, parse);
      assert parts[i..][1..] == parts[i + 1..];
      if parts[i] == [] && i == |parts| - 1 {
        continue;
      }
      var entry := ParseTimestampedLine(parts[i], stream, parse);
      AcceptedStep(all, seen, [entry], PartEntries(parts[i + 1..], stream, parse), room);
      if |seen| == room {
        return seen, false;
      }
      seen := seen + [entry];
    }
    return seen, true;
  }

  method DecodePlainLines(input: Text, ending: Ending, stream: StreamName, parse: StampParser, room: nat)
    returns (seen: seq<Entry>, error: DecodeError)
    ensures seen == Accepted(LineEntries(input, stream, parse), room)
    ensures error == ErrorOf(LineEntries(input, stream, parse), room, ending, LineFailed)
  {
    ghost var all := LineEntries(input, stream, parse);
    var rest := input;
    seen := [];
    while rest != []
      invariant |seen| <= room
      invariant all == seen + LineEntries(rest, stream, parse)
      decreases |rest|
    {
      var n := PieceLength(rest);
      var line := rest[..n];
      var got, accepted := EmitLines(line, stream, parse, room - |seen|);
      FirstPiece(rest, stream, parse);
      AcceptedStep(all, seen, LineEntries(line, stream, parse), LineEntries(rest[n..], stream, parse), room);
      seen := seen + got;
      if !accepted {
        return seen, CallbackRefused;
      }
      rest := rest[n..];
    }
    return seen, if ending.Eof? then NoError else LineFailed;
  }

  method DecodeMultiplexed(input: Text, ending: Ending, parse: StampParser, room: nat)
    returns (seen: seq<Entry>, error: DecodeError)
    ensures seen == Accepted(FrameEntries(FramesIn(input), parse), room)
    ensures error == ErrorOf(FrameEntries(FramesIn(input), parse), room, ending,
                             if |Unfinished(input)| < 8 then HeaderFailed else PayloadFailed)
  {
    hide FramesIn, Unfinished, FrameEntries, LineEntries, Uint32;
    ghost var frames := FramesIn(input);
    ghost var all := FrameEntries(frames, parse);
    var rest := input;
    seen := [];
    while |rest| >= 8
      invariant |seen| <= room
      invariant frames == FramesIn(rest) && Unfinished(input) == Unfinished(rest)
      invariant all == seen + FrameEntries(frames, parse)
      decreases |rest|
    {
      var stream := StreamOf(rest[0]);
      var size := Uint32(rest[4..8]);
      if size == 0 {
        FirstFrame(rest, 0);
        FirstFrameEntries(frames, parse);
        frames, rest := frames[1..], rest[8..];
        continue;
      }
      if |rest| < 8 + size {
        NoFrame(rest);
        NoFrameEntries(parse);
        return seen, if ending.Eof? then NoError else PayloadFailed;
      }
      var payload := rest[8..8 + size];
      FirstFrame(rest, size);
      FirstFrameEntries(frames, parse);
      AcceptedStep(all, seen, LineEntries(payload, stream, parse), FrameEntries(frames[1..], parse), room);
      var got, accepted := EmitLines(payload, stream, parse, room - |seen|);
      seen := seen + got;
      if !accepted {
        return seen, CallbackRefused;
      }
      frames, rest := frames[1..], rest[8 + size..];
    }
    NoFrame(rest);
    NoFrameEntries(parse);
    return seen, if ending.Eof? then NoError else HeaderFailed;
  }

  method DecodeLogStream(input: Text, ending: Ending, parse: StampParser, room: nat)
    returns (seen: seq<Entry>, error: DecodeError)
    ensures seen == Accepted(LogEntries(input, parse), room)
    ensures error == ErrorOf(LogEntries(input, parse), room, ending,
                             if |input| < 8 then PeekFailed
                             else if !IsLikelyMultiplexed(input[..8]) then LineFailed
                             else if |Unfinished(input)| < 8 then HeaderFailed else PayloadFailed)
  {
    if |input| < 8 {
      return [], if ending.Eof? then NoError else PeekFailed;
    }
    if IsLikelyMultiplexed(input[..8]) {
      seen, error := DecodeMultiplexed(input, ending, parse, room);
    } else {
      seen, error := DecodePlainLines(input, ending, Stdout, parse, room);
    }
  }

  // ---------- splitting a payload agrees with its pieces ----------

  /** What emitLines makes of the parts of a split: one entry each, save for an empty last one. */
  ghost function PartEntries(parts: seq<Text>, stream: StreamName, parse: StampParser): seq<Entry> {
    if parts == [] || parts == [[]] then []
    else [ParseTimestampedLine(parts[0], stream, parse)] + PartEntries(parts[1..], stream, parse)
  }

  lemma FirstPart(parts: seq<Text>, stream: StreamName, parse: StampParser)
    requires parts != []
    ensures parts[0] == [] && |parts| == 1 ==> PartEntries(parts, stream, parse) == []
    ensures parts[0] != [] || |parts| > 1 ==>
      PartEntries(parts, stream, parse)
      == [ParseTimestampedLine(parts[0], stream, parse)] + PartEntries(parts[1..], stream, parse)
  {}

  lemma {:induction false} NormaliseAppend(p: Text, q: Text)
    requires p == [] || p[|p| - 1] == LF
    ensures NormaliseNewlines(p + q) == NormaliseNewlines(p) + NormaliseNewlines(q)
    decreases |p|
  {
    if p == [] {
      assert p + q == q;
    } else {
      var k := if |p| >= 2 && p[0] == CR && p[1] == LF then 2 else 1;
      assert (p + q)[0] == p[0] && (|p| >= 2 ==> (p + q)[1] == p[1]);
      assert (p + q)[k..] == p[k..] + q;
      NormaliseAppend(p[k..], q);
    }
  }

  lemma {:induction false} NormaliseUnbroken(s: Text)
    requires LF !in s
    ensures NormaliseNewlines(s) == s
  {
    if s != [] {
      assert |s| >= 2 ==> s[1] in s;
      NormaliseUnbroken(s[1..]);
      assert s == [s[0]] + s[1..];
    }
  }

  /** The content of a terminated piece once a CR before its LF is dropped. */
  ghost function WithoutCr(content: Text): Text {
    if content != [] && content[|content| - 1] == CR then content[..|content| - 1] else content
  }

  lemma WithoutCrRest(content: Text)
    requires content != [] && content != [CR]
    ensures WithoutCr(content) == [content[0]] + WithoutCr(content[1..])
  {
    var rest := content[1..];
    assert content == [content[0]] + rest;
    if rest == [] {
      assert WithoutCr(content) == content && WithoutCr(rest) == [];
    } else {
      assert rest[|rest| - 1] == content[|content| - 1];
      assert content[..|content| - 1] == [content[0]] + rest[..|rest| - 1];
    }
  }

  lemma {:induction false} NormaliseTerminated(content: Text)
    requires LF !in content
    ensures NormaliseNewlines(content + [LF]) == WithoutCr(content) + [LF]
  {
    var s := content + [LF];
    if content == [] {
      assert s[1..] == [];
    } else if content == [CR] {
      assert s[2..] == [] && content[..0] == [];
    } else {
      var rest := content[1..];
      if rest == [] {
        assert s[0] != CR;
      } else {
        assert s[1] == content[1] && content[1] in content;
      }
      assert s[1..] == rest + [LF];
      NormaliseTerminated(rest);
      WithoutCrRest(content);
    }
  }

  lemma TrimTerminated(content: Text)
    ensures TrimRightCrLf(content + [LF]) == TrimRightCrLf(WithoutCr(content))
  {
    assert (content + [LF])[..|content|] == content;
  }

  lemma {:induction false} SplitLine(body: Text, rest: Text)
    requires LF !in body
    ensures SplitLF(body + [LF] + rest) == [body] + SplitLF(rest)
    ensures SplitLF(body) == [body]
    decreases |body|
  {
    if body == [] {
      assert body + [LF] + rest == [LF] + rest;
    } else {
      assert LF !in body[1..];
      assert body[0] in body && body == [body[0]] + body[1..];
      assert (body + [LF] + rest)[1..] == body[1..] + [LF] + rest;
      SplitLine(body[1..], rest);
    }
  }

  /** strings.Split of the normalised payload yields one entry per piece. */
  lemma {:induction false} PartsArePieces(s: Text, stream: StreamName, parse: StampParser)
    ensures PartEntries(SplitLF(NormaliseNewlines(s)), stream, parse) == LineEntries(s, stream, parse)
    decreases |s|
  {
    hide NormaliseNewlines, ParseTimestampedLine;
    if s == [] {
      NormaliseUnbroken(s);
    } else {
      var n := PieceLength(s);
      var piece, rest := s[..n], s[n..];
      assert s == piece + rest;
      FirstPiece(s, stream, parse);
      if piece[n - 1] == LF {
        TerminatedPiece(piece, rest, stream, parse);
        PartsArePieces(rest, stream, parse);
      } else {
        assert piece == s && rest == [] && s == s[..n - 1] + [s[n - 1]];
        UnterminatedPiece(s, stream, parse);
      }
    }
  }

  lemma TerminatedPiece(piece: Text, rest: Text, stream: StreamName, parse: StampParser)
    requires piece != [] && piece[|piece| - 1] == LF && LF !in piece[..|piece| - 1]
    ensures PartEntries(SplitLF(NormaliseNewlines(piece + rest)), stream, parse)
         == [ParseTimestampedLine(piece, stream, parse)]
          + PartEntries(SplitLF(NormaliseNewlines(rest)), stream, parse)
  {
    var content := piece[..|piece| - 1];
    assert piece == content + [LF];
    NormaliseAppend(piece, rest);
    NormaliseTerminated(content);
    TrimTerminated(content);
    var body, tail := WithoutCr(content), SplitLF(NormaliseNewlines(rest));
    SplitLine(body, NormaliseNewlines(rest));
    FirstPart([body] + tail, stream, parse);
    assert ([body] + tail)[1..] == tail;
  }

  lemma UnterminatedPiece(piece: Text, stream: StreamName, parse: StampParser)
    requires piece != [] && LF !in piece
    ensures PartEntries(SplitLF(NormaliseNewlines(piece)), stream, parse)
         == [ParseTimestampedLine(piece, stream, parse)]
  {
    NormaliseUnbroken(piece);
    SplitLine(piece, []);
    FirstPart([piece], stream, parse);
    assert PartEntries([piece][1..], stream, parse) == [];
  }

  lemma OneLine(line: Text, stream: StreamName, parse: StampParser)
    ensures ParseAll([line], stream, parse) == [ParseTimestampedLine(line, stream, parse)]
  {
    assert [line][1..] == [];
    assert ParseAll([line][1..], stream, parse) == [];
  }

  /** The entries of a stream are the entry of its first piece and those of the rest. */
  lemma FirstPiece(s: Text, stream: StreamName, parse: StampParser)
    requires s != []
    ensures var n := PieceLength(s);
            && LineEntries(s[..n], stream, parse) == [ParseTimestampedLine(s[..n], stream, parse)]
            && LineEntries(s, stream, parse) == LineEntries(s[..n], stream, parse) + LineEntries(s[n..], stream, parse)
  {
    var n := PieceLength(s);
    var piece := s[..n];
    var m := PieceLength(piece);
    assert m == n;
    assert piece[..m] == piece && piece[m..] == [];
    assert Pieces(piece[m..]) == [];
    assert Pieces(piece) == [piece];
    OneLine(piece, stream, parse);
    assert Pieces(s)[1..] == Pieces(s[n..]);
  }

  lemma FirstFrame(s: Text, size: nat)
    requires |s| >= 8 + size && size == Uint32(s[4..8])
    ensures FramesIn(s) != [] && FramesIn(s)[0] == Frame(s[0], s[8..8 + size])
    ensures FramesIn(s)[1..] == FramesIn(s[8 + size..])
    ensures Unfinished(s) == Unfinished(s[8 + size..])
  {
    hide Uint32;
  }

  lemma NoFrameEntries(parse: StampParser)
    ensures FrameEntries([], parse) == []
  {}

  lemma NoFrame(s: Text)
    requires |s| < 8 || |s| < 8 + Uint32(s[4..8])
    ensures FramesIn(s) == [] && Unfinished(s) == s
  {
    hide Uint32;
  }

  lemma FirstFrameEntries(fs: seq<Frame>, parse: StampParser)
    requires fs != []
    ensures FrameEntries(fs, parse)
         == LineEntries(fs[0].payload, StreamOf(fs[0].code), parse) + FrameEntries(fs[1..], parse)
    ensures fs[0].payload == [] ==> FrameEntries(fs, parse) == FrameEntries(fs[1..], parse)
  {
    hide LineEntries;
    NoLines(StreamOf(fs[0].code), parse);
    assert [] + FrameEntries(fs[1..], parse) == FrameEntries(fs[1..], parse);
  }

  lemma NoLines(stream: StreamName, parse: StampParser)
    ensures LineEntries([], stream, parse) == []
  {}

  /** Offering the entries run by run to a callback is offering them all at once. */
  lemma AcceptedStep(all: seq<Entry>, seen: seq<Entry>, next: seq<Entry>, later: seq<Entry>, room: nat)
    requires all == seen + (next + later) && |seen| <= room
    ensures all == seen + next + later
    ensures |seen| + |next| <= room ==> Accepted(next, room - |seen|) == next
    ensures |seen| + |next| > room ==> seen + Accepted(next, room - |seen|) == Accepted(all, room)
  {}

  // ---------- what the decoder guarantees ----------

  /** Splitting is compositional at line ends. */
  lemma {:induction false} LineEntriesAppend(p: Text, q: Text, stream: StreamName, parse: StampParser)
    requires p == [] || p[|p| - 1] == LF
    ensures LineEntries(p + q, stream, parse) == LineEntries(p, stream, parse) + LineEntries(q, stream, parse)
    decreases |p|
  {
    if p == [] {
      assert p + q == q;
    } else {
      var n := PieceLength(p);
      PieceLengthAppend(p, q);
      assert (p + q)[..n] == p[..n] && (p + q)[n..] == p[n..] + q;
      assert p[n..] == [] || p[n..][|p| - n - 1] == LF;
      LineEntriesAppend(p[n..], q, stream, parse);
      FirstPiece(p, stream, parse);
      FirstPiece(p + q, stream, parse);
      Associate(LineEntries(p[..n], stream, parse), LineEntries(p[n..], stream, parse), LineEntries(q, stream, parse));
    }
  }

  lemma {:induction false} PieceLengthAppend(p: Text, q: Text)
    requires p != [] && p[|p| - 1] == LF
    ensures PieceLength(p + q) == PieceLength(p)
    decreases |p|
  {
    if p[0] != LF && |p| > 1 {
      assert (p + q)[1..] == p[1..] + q;
      PieceLengthAppend(p[1..], q);
    }
  }

  /** Every piece but the last ends in the only LF it holds. */
  ghost predicate WellCut(pieces: seq<Text>) {
    pieces == [] ||
    (var p := pieces[0];
     && p != [] && LF !in p[..|p| - 1]
     && (|pieces| > 1 ==> p[|p| - 1] == LF)
     && WellCut(pieces[1..]))
  }

  /** No byte of a payload is lost: its pieces concatenate to it ... */
  lemma {:induction false} PiecesPartition(s: Text)
    ensures Concat(Pieces(s)) == s
    decreases |s|
  {
    if s != [] {
      var n := PieceLength(s);
      PiecesPartition(s[n..]);
      FirstOfPieces(s);
      Rejoin(s, n, Pieces(s));
    }
  }

  lemma Rejoin(s: Text, n: nat, pieces: seq<Text>)
    requires n <= |s| && pieces != [] && pieces[0] == s[..n] && Concat(pieces[1..]) == s[n..]
    ensures Concat(pieces) == s
  {}

  /** ... and they are cut at the LFs only. */
  lemma {:induction false} PiecesCutAtLf(s: Text)
    ensures WellCut(Pieces(s))
    decreases |s|
  {
    if s != [] {
      var n := PieceLength(s);
      PiecesCutAtLf(s[n..]);
      FirstOfPieces(s);
      assert s[..n][..n - 1] == s[..n - 1];
    }
  }

  lemma FirstOfPieces(s: Text)
    requires s != []
    ensures var n := PieceLength(s); Pieces(s) != [] && Pieces(s)[0] == s[..n] && Pieces(s)[1..] == Pieces(s[n..])
    ensures |Pieces(s)| > 1 ==> PieceLength(s) < |s|
  {
    var n := PieceLength(s);
    assert n == |s| ==> Pieces(s[n..]) == [];
  }

  lemma BigEndianRoundTrip(n: nat)
    requires n < 0x1_0000_0000
    ensures Uint32(BigEndian(n)) == n
  {
    var b := BigEndian(n);
    var m := n / 256;
    assert b[..3][..2] == b[..2] && b[..2][..1] == b[..1] && b[..1][..0] == [];
    assert Uint32(b[..1]) == m / 256 / 256;
    assert Uint32(b[..2]) == m / 256;
    assert Uint32(b[..3]) == m;
  }

  lemma {:induction false} FramesInPrefix(fs: seq<Frame>, cut: nat)
    requires WireFrames(fs)
    requires cut <= |EncodeFrames(fs)|
    ensures FramesIn(EncodeFrames(fs)[..cut]) == CompleteFrames(fs, cut)
    decreases |fs|
  {
    hide Uint32, BigEndian;
    if fs != [] {
      var f, rest := fs[0], fs[1..];
      var wire := EncodeFrames(fs)[..cut];
      var n := 8 + |f.payload|;
      BigEndianRoundTrip(|f.payload|);
      if cut >= 8 {
        var size := BigEndian(|f.payload|);
        assert EncodeFrames(fs) == [f.code, 0, 0, 0] + size + f.payload + EncodeFrames(rest);
        assert wire[..8] == [f.code, 0, 0, 0] + size;
        assert wire[4..8] == wire[..8][4..8] == size;
        if cut >= n {
          assert wire == EncodeFrame(f) + EncodeFrames(rest)[..cut - n];
          assert wire[8..n] == f.payload && wire[n..] == EncodeFrames(rest)[..cut - n];
          FramesInPrefix(rest, cut - n);
        }
      }
    }
  }

  lemma FirstHeader(fs: seq<Frame>, cut: nat)
    requires WireFrames(fs) && 8 <= cut <= |EncodeFrames(fs)|
    ensures IsLikelyMultiplexed(EncodeFrames(fs)[..cut][..8])
  {
    var wire := EncodeFrame(fs[0]) + EncodeFrames(fs[1..]);
    assert wire[..cut][..8] == wire[..8] == EncodeFrame(fs[0])[..8];
  }

  /** Multiplex round trip with truncation: cutting the encoded frames anywhere yields exactly the
      entries of the frames that lie before the cut. */
  lemma MultiplexRoundTrip(fs: seq<Frame>, cut: nat, parse: StampParser)
    requires WireFrames(fs)
    requires cut <= |EncodeFrames(fs)|
    ensures LogEntries(EncodeFrames(fs)[..cut], parse) == FrameEntries(CompleteFrames(fs, cut), parse)
    ensures cut == |EncodeFrames(fs)| ==> CompleteFrames(fs, cut) == fs
  {
    FramesInPrefix(fs, cut);
    AllFramesComplete(fs);
    if cut >= 8 {
      FirstHeader(fs, cut);
    }
  }

  lemma {:induction false} AllFramesComplete(fs: seq<Frame>)
    requires WireFrames(fs)
    ensures CompleteFrames(fs, |EncodeFrames(fs)|) == fs
  {
    if fs != [] {
      AllFramesComplete(fs[1..]);
      assert |EncodeFrames(fs)| == 8 + |fs[0].payload| + |EncodeFrames(fs[1..])|;
    }
  }

  // ---------- from the writer's side ----------

  /** Some output of a container, and the stream it went to. */
  datatype Output = Output(stream: StreamName, text: Text)

  /** Docker marks a frame with 2 for stderr and with 0 or 1 for stdout. */
  ghost predicate Coded(output: seq<Output>, codes: seq<Byte>) {
    |codes| == |output|
    && forall i :: 0 <= i < |output| ==>
         |output[i].text| < 0x1_0000_0000 && (if output[i].stream.Stderr? then codes[i] == 2 else codes[i] == 0 || codes[i] == 1)
  }

  ghost function FramesOf(output: seq<Output>, codes: seq<Byte>): (fs: seq<Frame>)
    requires Coded(output, codes)
    ensures |fs| == |output| && WireFrames(fs)
  {
    if output == [] then [] else [Frame(codes[0], output[0].text)] + FramesOf(output[1..], codes[1..])
  }

  /** Each output's lines, tagged with its stream. */
  ghost function OutputEntries(output: seq<Output>, parse: StampParser): seq<Entry> {
    if output == [] then []
    else LineEntries(output[0].text, output[0].stream, parse) + OutputEntries(output[1..], parse)
  }

  lemma {:induction false} FramesOfAre(output: seq<Output>, codes: seq<Byte>)
    requires Coded(output, codes)
    ensures forall i :: 0 <= i < |output| ==> FramesOf(output, codes)[i] == Frame(codes[i], output[i].text)
  {
    if output != [] {
      FramesOfAre(output[1..], codes[1..]);
    }
  }

  lemma {:induction false} FramesTagged(fs: seq<Frame>, output: seq<Output>, parse: StampParser)
    requires |fs| == |output|
    requires forall i :: 0 <= i < |fs| ==>
      fs[i].payload == output[i].text
      && (if output[i].stream.Stderr? then fs[i].code == 2 else fs[i].code == 0 || fs[i].code == 1)
    ensures FrameEntries(fs, parse) == OutputEntries(output, parse)
  {
    hide LineEntries;
    if fs != [] {
      FramesTagged(fs[1..], output[1..], parse);
    }
  }

  /** How many frames are complete in the first `cut` bytes. */
  lemma {:induction false} CompletePrefix(fs: seq<Frame>, cut: nat)
    requires WireFrames(fs)
    ensures var n := |CompleteFrames(fs, cut)|;
      && n <= |fs| && CompleteFrames(fs, cut) == fs[..n] && |EncodeFrames(fs[..n])| <= cut
      && (n < |fs| ==> cut < |EncodeFrames(fs[..n + 1])|)
    decreases |fs|
  {
    if fs != [] {
      var size := 8 + |fs[0].payload|;
      FirstEncoded(fs, 0);
      if size <= cut {
        CompletePrefix(fs[1..], cut - size);
        var n := |CompleteFrames(fs[1..], cut - size)|;
        FirstEncoded(fs, n);
        if n + 1 < |fs| {
          FirstEncoded(fs, n + 1);
        }
        assert CompleteFrames(fs, cut) == [fs[0]] + fs[1..][..n] == fs[..n + 1];
        hide EncodeFrames, CompleteFrames;
      } else {
        assert fs[1..][..0] == [];
      }
    }
  }

  lemma FirstEncoded(fs: seq<Frame>, n: nat)
    requires WireFrames(fs) && n < |fs|
    ensures |EncodeFrames(fs[..n + 1])| == 8 + |fs[0].payload| + |EncodeFrames(fs[1..][..n])|
  {
    assert fs[..n + 1][1..] == fs[1..][..n];
  }

  /** Multiplex round trip, from what was written to which stream: cutting the stream anywhere yields exactly the
      lines of the outputs whose frames are complete, in order, each tagged with the stream it was written to. */
  lemma OutputDecoded(output: seq<Output>, codes: seq<Byte>, cut: nat, parse: StampParser) returns (n: nat)
    requires Coded(output, codes) && cut <= |EncodeFrames(FramesOf(output, codes))|
    ensures n <= |output|
    ensures LogEntries(EncodeFrames(FramesOf(output, codes))[..cut], parse) == OutputEntries(output[..n], parse)
    ensures |EncodeFrames(FramesOf(output, codes)[..n])| <= cut
    ensures n < |output| ==> cut < |EncodeFrames(FramesOf(output, codes)[..n + 1])|
  {
    hide EncodeFrames, LogEntries, FrameEntries, OutputEntries, CompleteFrames;
    var fs := FramesOf(output, codes);
    FramesOfAre(output, codes);
    MultiplexRoundTrip(fs, cut, parse);
    CompletePrefix(fs, cut);
    n := |CompleteFrames(fs, cut)|;
    FramesTagged(fs[..n], output[..n], parse);
  }

  /** One entry for each line, all of them tagged alike. */
  lemma {:induction false} LinesTagged(lines: seq<Text>, stream: StreamName, parse: StampParser)
    ensures |ParseAll(lines, stream, parse)| == |lines|
    ensures forall i :: 0 <= i < |lines| ==>
      ParseAll(lines, stream, parse)[i] == ParseTimestampedLine(lines[i], stream, parse)
      && ParseAll(lines, stream, parse)[i].stream == stream
  {
    if lines != [] {
      LinesTagged(lines[1..], stream, parse);
    }
  }

  /** What is taken for multiplexed: exactly the headers of frames. */
  lemma MultiplexedHeaders(header: Text)
    requires |header| == 8
    ensures IsLikelyMultiplexed(header)
      <==> exists code: Byte, size: nat :: code <= 2 && size < 0x1_0000_0000 && header == [code, 0, 0, 0] + BigEndian(size)
  {
    hide Uint32, BigEndian;
    var size := Uint32(header[4..8]);
    BigEndianOfSize(header[4..8]);
    if IsLikelyMultiplexed(header) {
      assert header == [header[0], 0, 0, 0] + BigEndian(size);
    }
  }

  /** Four bytes are the big-endian form of the number they spell. */
  lemma BigEndianOfSize(b: Text)
    requires |b| == 4
    ensures Uint32(b) < 0x1_0000_0000 && BigEndian(Uint32(b)) == b
    ensures Uint32(b) == b[0] as nat * 16777216 + b[1] as nat * 65536 + b[2] as nat * 256 + b[3] as nat
  {
    SpelledOut(b);
    DigitsOf(b[0], b[1], b[2], b[3]);
  }

  lemma DigitsOf(a: Byte, b: Byte, c: Byte, d: Byte)
    ensures var n := a as nat * 16777216 + b as nat * 65536 + c as nat * 256 + d as nat;
      n < 0x1_0000_0000 && BigEndian(n) == [a, b, c, d]
  {
    var n := a as nat * 16777216 + b as nat * 65536 + c as nat * 256 + d as nat;
    assert n / 256 == a as nat * 65536 + b as nat * 256 + c as nat && n % 256 == d as nat;
    assert n / 256 / 256 == a as nat * 256 + b as nat && n / 256 % 256 == c as nat;
    assert n / 256 / 256 / 256 == a as nat && n / 256 / 256 % 256 == b as nat;
  }

  lemma SpelledOut(b: Text)
    requires |b| == 4
    ensures Uint32(b) == b[0] as nat * 16777216 + b[1] as nat * 65536 + b[2] as nat * 256 + b[3] as nat
  {
    assert b[..3][..2] == b[..2] && b[..2][..1] == b[..1] && b[..1][..0] == [];
    assert Uint32(b[..1]) == b[0] as nat;
    assert Uint32(b[..2]) == b[0] as nat * 256 + b[1] as nat;
    assert Uint32(b[..3]) == Uint32(b[..2]) * 256 + b[2] as nat;
  }

  /** A stream that does not look multiplexed is decoded line by line exactly when it is empty or has at least
      eight bytes: the header peek drops a shorter one whole. */
  lemma TextStreamDecoded(input: Text, parse: StampParser)
    requires |input| >= 8 ==> !IsLikelyMultiplexed(input[..8])
    ensures LogEntries(input, parse) == LineEntries(input, Stdout, parse) <==> |input| == 0 || |input| >= 8
  {
    if 0 < |input| < 8 {
      FirstPiece(input, Stdout, parse);
    }
  }

  /** Every stream that ends within its first eight bytes is dropped, though it has something to say. */
  lemma ShortStreamDropped(input: Text, parse: StampParser)
    requires 0 < |input| < 8
    ensures LogEntries(input, parse) == [] && |LineEntries(input, Stdout, parse)| > 0
  {
    FirstPiece(input, Stdout, parse);
  }

  // ---------- the streams this agent reads ----------

  /** A line as Docker sends it, with its timestamp when asked for it; the message of a terminal's ends in a CR. */
  datatype WrittenLine = Stamped(stamp: Text, message: Text) | Bare(message: Text)

  /** No word that `parse` takes for a time stands before the first space. */
  ghost predicate NoStamp(line: Text, parse: StampParser) {
    forall n :: 0 < n < |line| && line[n] == SPACE && SPACE !in line[..n] ==> parse(line[..n]).None?
  }

  ghost predicate WellWritten(l: WrittenLine, parse: StampParser) {
    && LF !in l.message
    && match l
       case Stamped(stamp, _) => stamp != [] && SPACE !in stamp && LF !in stamp && !EndsInCrLf(stamp) && parse(stamp).Some?
       case Bare(message) => NoStamp(TrimRightCrLf(message), parse)
  }

  ghost predicate AllWritten(lines: seq<WrittenLine>, parse: StampParser) {
    forall i :: 0 <= i < |lines| ==> WellWritten(lines[i], parse)
  }

  function LineText(l: WrittenLine): Text {
    match l case Stamped(stamp, message) => stamp + [SPACE] + message + [LF] case Bare(message) => message + [LF]
  }

  function LineTexts(lines: seq<WrittenLine>): Text {
    if lines == [] then [] else LineText(lines[0]) + LineTexts(lines[1..])
  }

  /** Each line's own time, if it has one, and its message, less the CR of a terminal. */
  ghost function WrittenEntries(lines: seq<WrittenLine>, stream: StreamName, parse: StampParser): seq<Entry>
    requires AllWritten(lines, parse)
  {
    if lines == [] then []
    else
      [Entry(match lines[0] case Stamped(stamp, _) => Stamp(parse(stamp).value) case Bare(_) => Now, stream,
             TrimRightCrLf(lines[0].message))]
      + WrittenEntries(lines[1..], stream, parse)
  }

  /** What trimming takes off: CRs and LFs at the end, and nothing more. */
  lemma {:induction false} TrimmedIs(line: Text, kept: Text)
    ensures TrimRightCrLf(line) == kept
      <==> |kept| <= |line| && line[..|kept|] == kept && !EndsInCrLf(kept)
           && forall i :: |kept| <= i < |line| ==> line[i] == CR || line[i] == LF
  {
    if EndsInCrLf(line) {
      var rest := line[..|line| - 1];
      TrimmedIs(rest, kept);
      if |kept| < |line| {
        assert rest[..|kept|] == line[..|kept|];
      } else if |kept| == |line| && line[..|kept|] == kept {
        assert kept == line;
      }
      if |kept| <= |rest| && forall i :: |kept| <= i < |rest| ==> rest[i] == CR || rest[i] == LF {
        assert forall i :: |kept| <= i < |line| ==> line[i] == (if i < |rest| then rest[i] else line[|line| - 1]);
      }
    } else {
      assert line != [] && |kept| < |line| ==> line[|line| - 1] != CR && line[|line| - 1] != LF;
      assert line[..|line|] == line;
    }
  }

  lemma {:induction false} TrimAfter(head: Text, tail: Text)
    requires head != [] && !EndsInCrLf(head)
    ensures TrimRightCrLf(head + tail) == head + TrimRightCrLf(tail)
    decreases |tail|
  {
    var whole := head + tail;
    if tail == [] {
      assert whole == head && head + [] == head;
    } else if EndsInCrLf(tail) {
      assert whole[..|whole| - 1] == head + tail[..|tail| - 1];
      TrimAfter(head, tail[..|tail| - 1]);
    }
  }

  lemma {:induction false} IndexAfter(head: Text, tail: Text, from: nat)
    requires from <= |head| && SPACE !in head && tail != [] && tail[0] == SPACE
    ensures IndexByte(head + tail, SPACE, from) == |head|
    decreases |head| - from
  {
    if from < |head| {
      assert (head + tail)[from] == head[from] && head[from] in head;
      IndexAfter(head, tail, from + 1);
    }
  }

  lemma StampedLineParsed(l: WrittenLine, stream: StreamName, parse: StampParser)
    requires WellWritten(l, parse) && l.Stamped?
    ensures ParseTimestampedLine(LineText(l), stream, parse)
      == Entry(Stamp(parse(l.stamp).value), stream, TrimRightCrLf(l.message))
  {
    hide TrimRightCrLf, IndexByte;
    var head, content := l.stamp + [SPACE], l.message + [LF];
    assert LineText(l) == head + content;
    TrimAfter(head, content);
    TrimLf(l.message);
    var line := head + TrimRightCrLf(l.message);
    assert line == l.stamp + ([SPACE] + TrimRightCrLf(l.message));
    IndexAfter(l.stamp, [SPACE] + TrimRightCrLf(l.message), 0);
    assert line[..|l.stamp|] == l.stamp && line[|l.stamp| + 1..] == TrimRightCrLf(l.message);
  }

  /** The space found is the first. */
  lemma {:induction false} IndexIsFirst(line: Text, from: nat)
    requires from <= |line| && SPACE !in line[..from]
    ensures IndexByte(line, SPACE, from) >= 0 ==> SPACE !in line[..IndexByte(line, SPACE, from)]
    decreases |line| - from
  {
    if from < |line| && line[from] != SPACE {
      assert line[..from + 1] == line[..from] + [line[from]];
      IndexIsFirst(line, from + 1);
    }
  }

  lemma BareLineParsed(message: Text, stream: StreamName, parse: StampParser)
    requires NoStamp(TrimRightCrLf(message), parse)
    ensures ParseTimestampedLine(message + [LF], stream, parse) == Entry(Now, stream, TrimRightCrLf(message))
  {
    TrimLf(message);
    assert TrimRightCrLf(message)[..0] == [];
    IndexIsFirst(TrimRightCrLf(message), 0);
  }

  lemma TrimLf(message: Text)
    ensures TrimRightCrLf(message + [LF]) == TrimRightCrLf(message)
  {
    assert (message + [LF])[..|message|] == message;
  }

  lemma {:induction false} PieceLengthLine(body: Text, rest: Text)
    requires LF !in body
    ensures PieceLength(body + [LF] + rest) == |body| + 1
    decreases |body|
  {
    var s := body + [LF] + rest;
    if body != [] {
      assert body[0] in body && s[0] == body[0];
      assert s[1..] == body[1..] + [LF] + rest;
      PieceLengthLine(body[1..], rest);
    }
  }

  /** Every line of a payload of lines comes out with its own time and message. */
  lemma {:induction false} WrittenLinesParsed(lines: seq<WrittenLine>, stream: StreamName, parse: StampParser)
    requires AllWritten(lines, parse)
    ensures LineEntries(LineTexts(lines), stream, parse) == WrittenEntries(lines, stream, parse)
    decreases |lines|
  {
    hide ParseTimestampedLine, TrimRightCrLf, NoStamp, EndsInCrLf;
    if lines != [] {
      var l, rest := lines[0], LineTexts(lines[1..]);
      var body := if l.Stamped? then l.stamp + [SPACE] + l.message else l.message;
      var s := LineTexts(lines);
      assert LineText(l) == body + [LF] && s == body + [LF] + rest;
      PieceLengthLine(body, rest);
      assert s[..|LineText(l)|] == LineText(l) && s[|LineText(l)|..] == rest;
      FirstPiece(s, stream, parse);
      if l.Stamped? {
        StampedLineParsed(l, stream, parse);
      } else {
        BareLineParsed(l.message, stream, parse);
      }
      WrittenLinesParsed(lines[1..], stream, parse);
    }
  }

  /** A stream that begins with a line that is at least seven characters long and begins with a printable one. */
  lemma WrittenStart(lines: seq<WrittenLine>)
    requires lines != [] && |LineText(lines[0])| >= 8 && LineText(lines[0])[0] > 2
    ensures |LineTexts(lines)| >= 8 && !IsLikelyMultiplexed(LineTexts(lines)[..8])
  {
    var s := LineText(lines[0]) + LineTexts(lines[1..]);
    assert s[..8][0] == s[0] == LineText(lines[0])[0];
  }

  /** A text stream, as a terminal's, is decoded whole, every line with its own time and message: an empty one,
      and one whose first line has at least seven characters, of which the first is no control character. What
      this agent asks Docker for has a timestamp of twenty or more in front of each line. */
  lemma TextLinesDecoded(lines: seq<WrittenLine>, parse: StampParser)
    requires AllWritten(lines, parse)
    requires lines != [] ==> |LineText(lines[0])| >= 8 && LineText(lines[0])[0] > 2
    ensures LogEntries(LineTexts(lines), parse) == WrittenEntries(lines, Stdout, parse)
  {
    WrittenLinesParsed(lines, Stdout, parse);
    if lines != [] {
      WrittenStart(lines);
    }
    hide LineTexts, WrittenEntries, LogEntries, AllWritten, LineEntries, IsLikelyMultiplexed;
    assert lines == [] ==> LineTexts(lines) == [] by {
      NoLineTexts();
    }
    TextStreamDecoded(LineTexts(lines), parse);
  }

  lemma NoLineTexts()
    ensures LineTexts([]) == []
  {}
}
