/** The browser's log view: SSE framing and the pause buffer of apps/web/src/hooks/useContainerLogs.ts.

    JSON.parse is abstract: `parse` gives the `entries` of a payload (none when it has no such array)
    or nothing when the text is malformed. */
module LogView {
  import opened Prelude

  const MAX_ENTRIES: nat := 5000

  // ---------- framing ----------

  /** buffer.indexOf('\n\n'). */
  function IndexOfSeparator(s: string): (i: int)
    ensures i == -1 || (0 <= i <= |s| - 2 && s[i] == '\n' && s[i + 1] == '\n')
  {
    if |s| < 2 then -1
    else if s[0] == '\n' && s[1] == '\n' then 0
    else var i := IndexOfSeparator(s[1..]); if i == -1 then -1 else i + 1
  }

  function Frames(s: string): seq<string>
    decreases |s|
  {
    var i := IndexOfSeparator(s);
    if i == -1 then [] else [s[..i]] + Frames(s[i + 2..])
  }

  function Rest(s: string): string
    decreases |s|
  {
    var i := IndexOfSeparator(s);
    if i == -1 then s else Rest(s[i + 2..])
  }

  lemma {:induction false} SeparatorAppend(s: string, t: string)
    ensures IndexOfSeparator(s) != -1 ==> IndexOfSeparator(s + t) == IndexOfSeparator(s)
  {
    if |s| >= 2 && !(s[0] == '\n' && s[1] == '\n') {
      assert (s + t)[1..] == s[1..] + t;
      SeparatorAppend(s[1..], t);
    }
  }

  lemma FirstFrame(s: string, i: nat, tail: string)
    requires IndexOfSeparator(s) == i && tail == s[i + 2..]
    ensures Frames(s) == [s[..i]] + Frames(tail) && Rest(s) == Rest(tail)
  {}

  /** Handling a first read early changes nothing: its frames come out, and its rest waits. */
  lemma {:induction false} FramesAppend(s: string, t: string)
    ensures Frames(s + t) == Frames(s) + Frames(Rest(s) + t)
    ensures Rest(s + t) == Rest(Rest(s) + t)
    decreases |s|
  {
    var i := IndexOfSeparator(s);
    if i == -1 {
      assert Frames(s) == [] && Rest(s) == s;
    } else {
      var tail := s[i + 2..];
      SeparatorAppend(s, t);
      assert (s + t)[..i] == s[..i] && (s + t)[i + 2..] == tail + t;
      FirstFrame(s, i, tail);
      FirstFrame(s + t, i, tail + t);
      FramesAppend(tail, t);
      Associate([s[..i]], Frames(tail), Frames(Rest(tail) + t));
    }
  }

  lemma {:induction false} RestHasNoSeparator(s: string)
    ensures IndexOfSeparator(Rest(s)) == -1 && Frames(Rest(s)) == [] && Rest(Rest(s)) == Rest(s)
    decreases |s|
  {
    if IndexOfSeparator(s) != -1 {
      RestHasNoSeparator(s[IndexOfSeparator(s) + 2..]);
    }
  }

  // ---------- the split, characterised ----------

  /** Frames as a sender writes them: each followed by a blank line. */
  function Encode(frames: seq<string>): string {
    if frames == [] then "" else frames[0] + "\n\n" + Encode(frames[1..])
  }

  /** A frame that no blank line can be read into, not even with the separator that follows it. */
  ghost predicate Clean(frame: string) { IndexOfSeparator(frame + "\n") == -1 }

  lemma {:induction false} SeparatorAfterClean(f: string, t: string)
    requires Clean(f)
    ensures IndexOfSeparator(f + "\n\n" + t) == |f|
  {
    var s := f + "\n\n" + t;
    if f != "" {
      assert (f + "\n")[1..] == f[1..] + "\n" && s[1..] == f[1..] + "\n\n" + t;
      assert s[1] == (f + "\n")[1];
      SeparatorAfterClean(f[1..], t);
    }
  }

  lemma {:induction false} FirstFrameClean(s: string)
    requires IndexOfSeparator(s) != -1
    ensures Clean(s[..IndexOfSeparator(s)])
  {
    var i := IndexOfSeparator(s);
    if i > 0 {
      FirstFrameClean(s[1..]);
      assert s[..i][1..] == s[1..][..i - 1];
      assert (s[..i] + "\n")[1..] == s[1..][..i - 1] + "\n";
      assert i >= 2 ==> (s[..i] + "\n")[1] == s[1];
    }
  }

  /** The frames and the rest are the only clean frames and separator-free rest that spell the text. */
  lemma {:induction false} SplitCharacterised(s: string, frames: seq<string>, rest: string)
    ensures frames == Frames(s) && rest == Rest(s)
      <==> s == Encode(frames) + rest && (forall i :: 0 <= i < |frames| ==> Clean(frames[i])) && IndexOfSeparator(rest) == -1
    decreases |s|, |frames|
  {
    SplitSpells(s);
    FramesAreClean(s);
    RestHasNoSeparator(s);
    if s == Encode(frames) + rest && (forall i :: 0 <= i < |frames| ==> Clean(frames[i])) && IndexOfSeparator(rest) == -1 {
      EncodedSplit(frames, rest);
    }
  }

  lemma {:induction false} SplitSpells(s: string)
    ensures s == Encode(Frames(s)) + Rest(s)
    decreases |s|
  {
    var i := IndexOfSeparator(s);
    if i == -1 {
      assert Encode(Frames(s)) == "" && "" + s == s;
    } else {
      var frame, tail := s[..i], s[i + 2..];
      SplitSpells(tail);
      FirstFrame(s, i, tail);
      EncodeFirst(frame, Frames(tail));
      CutAt(s, i);
      Associate(frame + "\n\n", Encode(Frames(tail)), Rest(tail));
    }
  }

  lemma CutAt(s: string, i: nat)
    requires IndexOfSeparator(s) == i
    ensures s == s[..i] + "\n\n" + s[i + 2..]
  {}

  lemma {:induction false} FramesAreClean(s: string)
    ensures forall i :: 0 <= i < |Frames(s)| ==> Clean(Frames(s)[i])
    decreases |s|
  {
    var i := IndexOfSeparator(s);
    if i != -1 {
      FramesAreClean(s[i + 2..]);
      FirstFrameClean(s);
      FirstFrame(s, i, s[i + 2..]);
    }
  }

  lemma EncodeFirst(frame: string, frames: seq<string>)
    ensures Encode([frame] + frames) == frame + "\n\n" + Encode(frames)
  {
    assert ([frame] + frames)[1..] == frames;
  }

  lemma {:induction false} EncodedSplit(frames: seq<string>, rest: string)
    requires (forall i :: 0 <= i < |frames| ==> Clean(frames[i])) && IndexOfSeparator(rest) == -1
    ensures Frames(Encode(frames) + rest) == frames && Rest(Encode(frames) + rest) == rest
  {
    if frames == [] {
      assert Encode(frames) + rest == rest;
    } else {
      var f, tail := frames[0], Encode(frames[1..]) + rest;
      EncodedSplit(frames[1..], rest);
      SeparatorAfterClean(f, tail);
      var s := f + "\n\n" + tail;
      assert Encode(frames) + rest == s;
      assert s[..|f|] == f && s[|f| + 2..] == tail;
    }
  }

  // ---------- one frame ----------

  /** White space as String.prototype.trim sees it. */
  predicate IsWhite(c: char) {
    c == ' ' || '\t' <= c <= '\r' || c == '\U{A0}' || c == '\U{1680}' || '\U{2000}' <= c <= '\U{200A}'
    || c == '\U{2028}' || c == '\U{2029}' || c == '\U{202F}' || c == '\U{205F}' || c == '\U{3000}' || c == '\U{FEFF}'
  }

  function Trim(s: string): string {
    if s == "" then ""
    else if IsWhite(s[0]) then Trim(s[1..])
    else if IsWhite(s[|s| - 1]) then Trim(s[..|s| - 1])
    else s
  }

  /** The characters themselves. */
  lemma WhiteIs(c: char)
    ensures IsWhite(c) <==> c in "\t\n\U{0B}\U{0C}\r \U{A0}\U{1680}\U{2028}\U{2029}\U{202F}\U{205F}\U{3000}\U{FEFF}"
                               + "\U{2000}\U{2001}\U{2002}\U{2003}\U{2004}\U{2005}\U{2006}\U{2007}\U{2008}\U{2009}\U{200A}"
  {}

  function SplitLines(s: string): (lines: seq<string>)
    ensures lines != []
  {
    if s == "" then [""]
    else
      var rest := SplitLines(s[1..]);
      if s[0] == '\n' then [""] + rest else [[s[0]] + rest[0]] + rest[1..]
  }

  function JoinLines(lines: seq<string>): string {
    if lines == [] then "" else if |lines| == 1 then lines[0] else lines[0] + "\n" + JoinLines(lines[1..])
  }

  predicate StartsWith(s: string, prefix: string) { |prefix| <= |s| && s[..|prefix|] == prefix }

  datatype Fields = Fields(event: string, data: seq<string>)

  function Field(fields: Fields, line: string): Fields {
    if StartsWith(line, "event:") then fields.(event := Trim(line[6..]))
    else if StartsWith(line, "data:") then fields.(data := fields.data + [Trim(line[5..])])
    else fields
  }

  function FieldsOf(lines: seq<string>): Fields {
    if lines == [] then Fields("message", []) else Field(FieldsOf(lines[..|lines| - 1]), lines[|lines| - 1])
  }

  type Parser<E> = string -> Option<seq<E>>

  // ---------- a frame as a sender writes it ----------

  /** `before` and `after` are the blanks around what a line carries. */
  datatype FrameLine =
    | EventLine(before: string, name: string, after: string)
    | DataLine(before: string, text: string, after: string)
    | OtherLine(line: string)

  function LineText(l: FrameLine): string {
    match l
    case EventLine(before, name, after) => "event:" + (before + name + after)
    case DataLine(before, text, after) => "data:" + (before + text + after)
    case OtherLine(line) => line
  }

  ghost predicate Blank(s: string) { forall i :: 0 <= i < |s| ==> s[i] == ' ' || s[i] == '\t' || s[i] == '\r' }

  /** One line of text whose ends are visible, or nothing. */
  ghost predicate OneLine(s: string) {
    '\n' !in s && (s != "" ==> '!' <= s[0] <= '~' && '!' <= s[|s| - 1] <= '~')
  }

  ghost predicate WellWritten(l: FrameLine) {
    match l
    case EventLine(before, name, after) => Blank(before) && OneLine(name) && Blank(after)
    case DataLine(before, text, after) => Blank(before) && OneLine(text) && Blank(after)
    case OtherLine(line) => '\n' !in line && !StartsWith(line, "event:") && !StartsWith(line, "data:")
  }

  ghost predicate AllWellWritten(lines: seq<FrameLine>) {
    forall i :: 0 <= i < |lines| ==> WellWritten(lines[i])
  }

  function LineTexts(lines: seq<FrameLine>): (texts: seq<string>)
    ensures |texts| == |lines|
  {
    if lines == [] then [] else LineTexts(lines[..|lines| - 1]) + [LineText(lines[|lines| - 1])]
  }

  /** The name on the last event line, and the text on each data line. */
  ghost function EventOf(lines: seq<FrameLine>): string {
    if lines == [] then "message"
    else match lines[|lines| - 1] case EventLine(_, name, _) => name case _ => EventOf(lines[..|lines| - 1])
  }

  ghost function DataOf(lines: seq<FrameLine>): seq<string> {
    if lines == [] then []
    else
      var before := DataOf(lines[..|lines| - 1]);
      match lines[|lines| - 1] case DataLine(_, text, _) => before + [text] case _ => before
  }

  lemma {:induction false} SplitUnbroken(s: string)
    requires '\n' !in s
    ensures SplitLines(s) == [s]
  {
    if s != "" {
      assert s[0] in s && s == [s[0]] + s[1..];
      SplitUnbroken(s[1..]);
    }
  }

  lemma {:induction false} SplitFirst(line: string, rest: string)
    requires '\n' !in line
    ensures SplitLines(line + "\n" + rest) == [line] + SplitLines(rest)
  {
    var s := line + "\n" + rest;
    if line == "" {
      assert s[1..] == rest;
    } else {
      assert line[0] in line && s[0] == line[0] && s[1..] == line[1..] + "\n" + rest;
      SplitFirst(line[1..], rest);
      assert line == [line[0]] + line[1..];
    }
  }

  lemma {:induction false} SplitJoined(lines: seq<string>)
    requires lines != [] && forall i :: 0 <= i < |lines| ==> '\n' !in lines[i]
    ensures SplitLines(JoinLines(lines)) == lines
  {
    if |lines| == 1 {
      SplitUnbroken(lines[0]);
    } else {
      SplitFirst(lines[0], JoinLines(lines[1..]));
      SplitJoined(lines[1..]);
    }
  }

  lemma {:induction false} BlankBefore(blank: string, s: string)
    requires Blank(blank)
    ensures Trim(blank + s) == Trim(s)
  {
    if blank == "" {
      assert blank + s == s;
    } else {
      assert (blank + s)[1..] == blank[1..] + s;
      BlankBefore(blank[1..], s);
    }
  }

  lemma {:induction false} BlankAfter(s: string, blank: string)
    requires s != "" && OneLine(s) && Blank(blank)
    ensures Trim(s + blank) == s
  {
    if blank == "" {
      assert s + blank == s;
    } else {
      var n := |blank| - 1;
      var t := s + blank;
      assert t[..|t| - 1] == s + blank[..n] && t[|t| - 1] == blank[n];
      BlankAfter(s, blank[..n]);
    }
  }

  lemma Trimmed(before: string, s: string, after: string)
    requires Blank(before) && OneLine(s) && Blank(after)
    ensures Trim(before + s + after) == s && '\n' !in before + s + after
  {
    assert before + s + after == before + (s + after);
    BlankBefore(before, s + after);
    if s == "" {
      assert s + after == after && after + "" == after;
      BlankBefore(after, "");
    } else {
      BlankAfter(s, after);
    }
  }

  lemma LineField(fields: Fields, l: FrameLine)
    requires WellWritten(l)
    ensures '\n' !in LineText(l)
    ensures Field(fields, LineText(l)) ==
      match l
      case EventLine(_, name, _) => fields.(event := name)
      case DataLine(_, text, _) => fields.(data := fields.data + [text])
      case OtherLine(_) => fields
  {
    hide Blank, OneLine, Trim;
    match l {
      case EventLine(before, name, after) =>
        Trimmed(before, name, after);
        var line := "event:" + (before + name + after);
        assert line[..6] == "event:" && line[6..] == before + name + after;
      case DataLine(before, text, after) =>
        Trimmed(before, text, after);
        var line := "data:" + (before + text + after);
        assert line[..5] == "data:" && line[5..] == before + text + after;
        assert !StartsWith(line, "event:") by { assert line[0] == 'd'; }
      case OtherLine(_) =>
    }
  }

  lemma {:induction false} FieldsWritten(lines: seq<FrameLine>)
    requires AllWellWritten(lines)
    ensures FieldsOf(LineTexts(lines)) == Fields(EventOf(lines), DataOf(lines))
    ensures forall i :: 0 <= i < |lines| ==> '\n' !in LineTexts(lines)[i]
  {
    hide WellWritten, Field, LineText;
    if lines != [] {
      var n := |lines| - 1;
      FieldsWritten(lines[..n]);
      assert LineTexts(lines)[..n] == LineTexts(lines[..n]);
      LineField(Fields(EventOf(lines[..n]), DataOf(lines[..n])), lines[n]);
    }
  }

  /** A frame pushes the entries of its data lines, joined, exactly when its last event line says `logs.chunk`
      and it has data; otherwise nothing. */
  lemma FrameRead<E>(lines: seq<FrameLine>, parse: Parser<E>)
    requires lines != [] && AllWellWritten(lines)
    ensures FrameEntries(JoinLines(LineTexts(lines)), parse) ==
      if EventOf(lines) == "logs.chunk" && DataOf(lines) != []
      then match parse(JoinLines(DataOf(lines))) case Some(entries) => entries case None => []
      else []
  {
    FieldsWritten(lines);
    hide AllWellWritten, JoinLines, LineTexts, FieldsOf, EventOf, DataOf, SplitLines;
    SplitJoined(LineTexts(lines));
  }

  /** The entries one frame pushes. */
  function FrameEntries<E>(frame: string, parse: Parser<E>): seq<E> {
    var fields := FieldsOf(SplitLines(frame));
    if fields.event != "logs.chunk" || fields.data == [] then []
    else match parse(JoinLines(fields.data)) case None => [] case Some(entries) => entries
  }

  method HandleFrame<E>(frame: string, parse: Parser<E>) returns (pushed: seq<E>)
    ensures pushed == FrameEntries(frame, parse)
    ensures forall lines :: lines != [] && AllWellWritten(lines) && frame == JoinLines(LineTexts(lines)) ==>
      pushed == if EventOf(lines) == "logs.chunk" && DataOf(lines) != []
                then match parse(JoinLines(DataOf(lines))) case Some(entries) => entries case None => []
                else []
  {
    forall lines | lines != [] && AllWellWritten(lines) && frame == JoinLines(LineTexts(lines))
      ensures FrameEntries(frame, parse) ==
        if EventOf(lines) == "logs.chunk" && DataOf(lines) != []
        then match parse(JoinLines(DataOf(lines))) case Some(entries) => entries case None => []
        else []
    {
      FrameRead(lines, parse);
    }
    hide AllWellWritten, LineTexts, EventOf, DataOf;
    var lines := SplitLines(frame);
    var fields := Fields("message", []);
    for i := 0 to |lines|
      invariant fields == FieldsOf(lines[..i])
    {
      assert lines[..i + 1][..i] == lines[..i];
      fields := Field(fields, lines[i]);
    }
    assert lines[..|lines|] == lines;
    if fields.event != "logs.chunk" || fields.data == [] {
      return [];
    }
    match parse(JoinLines(fields.data)) {
      case None => return [];
      case Some(entries) => return entries;
    }
  }

  function AllEntries<E>(frames: seq<string>, parse: Parser<E>): seq<E> {
    if frames == [] then [] else FrameEntries(frames[0], parse) + AllEntries(frames[1..], parse)
  }

  lemma {:induction false} AllEntriesAppend<E>(a: seq<string>, b: seq<string>, parse: Parser<E>)
    ensures AllEntries(a + b, parse) == AllEntries(a, parse) + AllEntries(b, parse)
  {
    if a == [] {
      assert a + b == b;
    } else {
      assert (a + b)[1..] == a[1..] + b;
      AllEntriesAppend(a[1..], b, parse);
    }
  }

  // ---------- the view ----------

  datatype View<E> = View(rest: string, entries: seq<E>, buffer: seq<E>, paused: bool)

  function Push<E>(v: View<E>, next: seq<E>): View<E> {
    if next == [] then v
    else if v.paused then v.(buffer := LastN(v.buffer + next, MAX_ENTRIES))
    else v.(entries := LastN(v.entries + next, MAX_ENTRIES))
  }

  function PushAll<E>(v: View<E>, frames: seq<string>, parse: Parser<E>): View<E>
    decreases |frames|
  {
    if frames == [] then v else PushAll(Push(v, FrameEntries(frames[0], parse)), frames[1..], parse)
  }

  function Read<E>(v: View<E>, text: string, parse: Parser<E>): View<E> {
    PushAll(v, Frames(v.rest + text), parse).(rest := Rest(v.rest + text))
  }

  function Toggle<E>(v: View<E>): View<E> {
    if v.paused && v.buffer != []
    then v.(paused := false, buffer := [], entries := LastN(v.entries + v.buffer, MAX_ENTRIES))
    else v.(paused := !v.paused)
  }

  function Clear<E>(v: View<E>): View<E> { v.(entries := [], buffer := []) }

  class LogStreamView<E> {
    const parse: Parser<E>
    var text: string
    var entries: seq<E>
    var buffer: seq<E>
    var paused: bool

    ghost function State(): View<E> reads this { View(text, entries, buffer, paused) }

    constructor (parse: Parser<E>)
      ensures State() == View("", [], [], false) && this.parse == parse
    {
      this.parse, text, entries, buffer, paused := parse, "", [], [], false;
    }

    ghost function Lists(): View<E> reads this { View("", entries, buffer, paused) }

    method PushEntries(next: seq<E>)
      modifies `entries, `buffer
      ensures State() == Push(old(State()), next) && Lists() == Push(old(Lists()), next)
    {
      if next == [] {
        return;
      }
      if paused {
        buffer := LastN(buffer + next, MAX_ENTRIES);
        return;
      }
      entries := LastN(entries + next, MAX_ENTRIES);
    }

    /** One turn of the read loop: the decoded chunk is added and every complete frame is handled. */
    method OnRead(chunk: string)
      modifies this
      ensures State() == Read(old(State()), chunk, parse)
    {
      text := text + chunk;
      ghost var all := text;
      var separator := IndexOfSeparator(text);
      while separator != -1
        invariant separator == IndexOfSeparator(text)
        invariant PushAll(Lists(), Frames(text), parse) == PushAll(old(Lists()), Frames(all), parse)
        invariant Rest(text) == Rest(all)
        decreases |text|
      {
        var frame := text[..separator];
        FirstFrame(text, separator, text[separator + 2..]);
        PushFirst(Lists(), frame, Frames(text[separator + 2..]), parse);
        text := text[separator + 2..];
        var pushed := HandleFrame(frame, parse);
        PushEntries(pushed);
        separator := IndexOfSeparator(text);
      }
      PushAllIgnoresRest(old(State()), "", Frames(all), parse);
    }

    method TogglePause()
      modifies this
      ensures State() == Toggle(old(State()))
    {
      var next := !paused;
      if !next && |buffer| > 0 {
        var buffered := buffer;
        buffer := [];
        entries := LastN(entries + buffered, MAX_ENTRIES);
      }
      paused := next;
    }

    method ClearEntries()
      modifies this
      ensures State() == Clear(old(State()))
    {
      entries := [];
      buffer := [];
    }
  }

  lemma PushFirst<E>(v: View<E>, frame: string, frames: seq<string>, parse: Parser<E>)
    ensures PushAll(v, [frame] + frames, parse) == PushAll(Push(v, FrameEntries(frame, parse)), frames, parse)
  {
    assert ([frame] + frames)[1..] == frames;
  }

  lemma {:induction false} PushAllIgnoresRest<E>(v: View<E>, rest: string, frames: seq<string>, parse: Parser<E>)
    ensures PushAll(v.(rest := rest), frames, parse) == PushAll(v, frames, parse).(rest := rest)
    decreases |frames|
  {
    if frames != [] {
      PushAllIgnoresRest(Push(v, FrameEntries(frames[0], parse)), rest, frames[1..], parse);
    }
  }

  // ---------- pausing is transparent, and so is the cutting into reads ----------

  /** The view holds the newest of `pushed`, split between what is shown and what waits. */
  ghost predicate Holds<E>(v: View<E>, pushed: seq<E>) {
    && |v.entries| <= MAX_ENTRIES && |v.buffer| <= MAX_ENTRIES
    && (!v.paused ==> v.buffer == [])
    && LastN(v.entries + v.buffer, MAX_ENTRIES) == LastN(pushed, MAX_ENTRIES)
  }

  lemma LastNAppend<E>(a: seq<E>, b: seq<E>, c: seq<E>, n: nat)
    requires LastN(a, n) == LastN(b, n)
    ensures LastN(a + c, n) == LastN(b + c, n)
  {
    LastNOuter(a, c, n);
    LastNOuter(b, c, n);
  }

  lemma LastNOuter<E>(a: seq<E>, c: seq<E>, n: nat)
    ensures LastN(a + c, n) == LastN(LastN(a, n) + c, n)
  {}

  lemma LastNInner<E>(a: seq<E>, b: seq<E>, n: nat)
    ensures LastN(a + LastN(b, n), n) == LastN(a + b, n)
  {}

  lemma PushHolds<E>(v: View<E>, pushed: seq<E>, next: seq<E>)
    requires Holds(v, pushed)
    ensures Holds(Push(v, next), pushed + next)
  {
    if next == [] {
      assert pushed + next == pushed;
    } else {
      LastNAppend(v.entries + v.buffer, pushed, next, MAX_ENTRIES);
      Associate(v.entries, v.buffer, next);
      if v.paused {
        LastNInner(v.entries, v.buffer + next, MAX_ENTRIES);
      } else {
        assert v.entries + v.buffer == v.entries;
        var shown := LastN(v.entries + next, MAX_ENTRIES);
        assert shown + [] == shown;
      }
    }
  }

  lemma {:induction false} PushAllHolds<E>(v: View<E>, pushed: seq<E>, frames: seq<string>, parse: Parser<E>)
    requires Holds(v, pushed)
    ensures Holds(PushAll(v, frames, parse), pushed + AllEntries(frames, parse))
    decreases |frames|
  {
    if frames == [] {
      assert pushed + [] == pushed;
    } else {
      PushHolds(v, pushed, FrameEntries(frames[0], parse));
      PushAllHolds(Push(v, FrameEntries(frames[0], parse)), pushed + FrameEntries(frames[0], parse), frames[1..], parse);
      Associate(pushed, FrameEntries(frames[0], parse), AllEntries(frames[1..], parse));
    }
  }

  lemma ReadHolds<E>(v: View<E>, text: string, mark: nat, chunk: string, parse: Parser<E>)
    requires mark <= |Frames(text)| && v.rest == Rest(text) && Holds(v, AllEntries(Frames(text)[mark..], parse))
    ensures var after := Read(v, chunk, parse);
      && mark <= |Frames(text + chunk)| && after.rest == Rest(text + chunk)
      && Holds(after, AllEntries(Frames(text + chunk)[mark..], parse))
  {
    hide Frames, Rest, AllEntries, PushAll;
    var next := Frames(v.rest + chunk);
    FramesAppend(text, chunk);
    PushAllHolds(v, AllEntries(Frames(text)[mark..], parse), next, parse);
    assert (Frames(text) + next)[mark..] == Frames(text)[mark..] + next;
    AllEntriesAppend(Frames(text)[mark..], next, parse);
  }

  datatype Event = Chunk(text: string) | PauseToggled | Cleared

  function Run<E>(v: View<E>, events: seq<Event>, parse: Parser<E>): View<E> {
    if events == [] then v
    else
      var before, last := Run(v, events[..|events| - 1], parse), events[|events| - 1];
      match last
      case Chunk(text) => Read(before, text, parse)
      case PauseToggled => Toggle(before)
      case Cleared => Clear(before)
  }

  /** All text read so far. */
  function TextOf(events: seq<Event>): string {
    if events == [] then ""
    else
      var last := events[|events| - 1];
      TextOf(events[..|events| - 1]) + (if last.Chunk? then last.text else "")
  }

  /** How many frames had been handled when the view was last cleared. */
  function ClearedAt(events: seq<Event>): nat {
    if events == [] then 0
    else if events[|events| - 1].Cleared? then |Frames(TextOf(events))|
    else ClearedAt(events[..|events| - 1])
  }

  /** The last 5000. */
  ghost function Newest<E>(all: seq<E>): seq<E> {
    all[if |all| <= 5000 then 0 else |all| - 5000..]
  }

  /** After any mix of reads, pause toggles and clears, however the text was cut: the lists keep their
      bound, and an unpaused view shows the newest entries of the frames since the last clear, as if it
      had never been paused and the text had come in one piece. */
  lemma {:induction false} ViewIsTransparent<E>(events: seq<Event>, parse: Parser<E>)
    ensures var v := Run(View("", [], [], false), events, parse);
      var frames := Frames(TextOf(events));
      && ClearedAt(events) <= |frames|
      && v.rest == Rest(TextOf(events)) && IndexOfSeparator(v.rest) == -1
      && |v.entries| <= 5000 && |v.buffer| <= 5000
      && Holds(v, AllEntries(frames[ClearedAt(events)..], parse))
      && (!v.paused ==> v.entries == Newest(AllEntries(frames[ClearedAt(events)..], parse)))
    decreases |events|
  {
    if events != [] {
      var earlier, last := events[..|events| - 1], events[|events| - 1];
      ViewIsTransparent(earlier, parse);
      var before := Run(View("", [], [], false), earlier, parse);
      var text, mark := TextOf(earlier), ClearedAt(earlier);
      match last {
        case Chunk(chunk) =>
          RestHasNoSeparator(text + chunk);
          ReadHolds(before, text, mark, chunk, parse);
        case PauseToggled =>
          assert TextOf(events) == text;
          assert before.entries + [] == before.entries;
        case Cleared =>
          assert TextOf(events) == text;
          assert Frames(text)[|Frames(text)|..] == [];
      }
      var v := Run(View("", [], [], false), events, parse);
      assert v.buffer == [] ==> v.entries + v.buffer == v.entries;
    }
  }

  // ---------- while it is paused ----------

  /** Whether the toggles so far leave the view paused. */
  ghost function PausedAfter(events: seq<Event>): bool {
    if events == [] then false
    else
      var before := PausedAfter(events[..|events| - 1]);
      if events[|events| - 1].PauseToggled? then !before else before
  }

  /** How many frames the view has taken up: those handled before it was paused, if it is. */
  ghost function ShownAt(events: seq<Event>): nat {
    if events == [] then 0
    else if PausedAfter(events) && !events[|events| - 1].PauseToggled? then ShownAt(events[..|events| - 1])
    else |Frames(TextOf(events))|
  }

  lemma {:induction false} PausedPushes<E>(v: View<E>, frames: seq<string>, parse: Parser<E>)
    ensures PushAll(v, frames, parse).paused == v.paused
    ensures v.paused ==> PushAll(v, frames, parse).entries == v.entries
    decreases |frames|
  {
    if frames != [] {
      PausedPushes(Push(v, FrameEntries(frames[0], parse)), frames[1..], parse);
    }
  }

  lemma {:induction false} FramesGrow(events: seq<Event>)
    requires events != []
    ensures Frames(TextOf(events[..|events| - 1])) <= Frames(TextOf(events))
    ensures ShownAt(events) <= |Frames(TextOf(events))| && ClearedAt(events) <= |Frames(TextOf(events))|
  {
    var earlier, last := events[..|events| - 1], events[|events| - 1];
    FramesAppend(TextOf(earlier), if last.Chunk? then last.text else "");
    if earlier != [] {
      FramesGrow(earlier);
    }
  }

  /** The view is paused after an odd number of toggles, and shows meanwhile what it showed when it was paused,
      until it is cleared. */
  ghost predicate ShowsPaused<E>(v: View<E>, events: seq<Event>, parse: Parser<E>) {
    var frames := Frames(TextOf(events));
    && v.paused == PausedAfter(events)
    && ClearedAt(events) <= |frames| && ShownAt(events) <= |frames|
    && (v.paused ==> v.entries == if ClearedAt(events) >= ShownAt(events) then []
                                  else Newest(AllEntries(frames[ClearedAt(events)..ShownAt(events)], parse)))
  }

  lemma ChunkWhilePaused<E>(before: View<E>, events: seq<Event>, parse: Parser<E>)
    requires events != [] && events[|events| - 1].Chunk? && ShowsPaused(before, events[..|events| - 1], parse)
    ensures ShowsPaused(Read(before, events[|events| - 1].text, parse), events, parse)
  {
    hide PushAll, Frames, LastN, AllEntries, Rest;
    var earlier, chunk := events[..|events| - 1], events[|events| - 1].text;
    FramesGrow(events);
    PausedPushes(before, Frames(before.rest + chunk), parse);
    var was, now := Frames(TextOf(earlier)), Frames(TextOf(events));
    if PausedAfter(events) && ClearedAt(events) < ShownAt(events) {
      assert now[ClearedAt(events)..ShownAt(events)] == was[ClearedAt(events)..ShownAt(events)];
    }
  }

  lemma ToggleShows<E>(before: View<E>, events: seq<Event>, parse: Parser<E>)
    requires events != [] && events[|events| - 1].PauseToggled? && ShowsPaused(before, events[..|events| - 1], parse)
    requires var earlier := events[..|events| - 1];
      !before.paused ==> before.entries == Newest(AllEntries(Frames(TextOf(earlier))[ClearedAt(earlier)..], parse))
    ensures ShowsPaused(Toggle(before), events, parse)
  {
    assert AllEntries<E>([], parse) == [] && Newest<E>([]) == [];
    hide Frames, LastN, AllEntries;
    var earlier := events[..|events| - 1];
    var frames, at := Frames(TextOf(earlier)), ClearedAt(earlier);
    assert TextOf(events) == TextOf(earlier);
    assert frames[at..|frames|] == frames[at..] && (at == |frames| ==> frames[at..] == []);
  }

  lemma ClearShows<E>(before: View<E>, events: seq<Event>, parse: Parser<E>)
    requires events != [] && events[|events| - 1].Cleared? && ShowsPaused(before, events[..|events| - 1], parse)
    ensures ShowsPaused(Clear(before), events, parse)
  {
    hide Frames, LastN, AllEntries;
    assert TextOf(events) == TextOf(events[..|events| - 1]);
  }

  lemma {:induction false} PausedShows<E>(events: seq<Event>, parse: Parser<E>)
    ensures ShowsPaused(Run(View("", [], [], false), events, parse), events, parse)
    decreases |events|
  {
    if events != [] {
      var earlier, last := events[..|events| - 1], events[|events| - 1];
      var before := Run(View("", [], [], false), earlier, parse);
      PausedShows(earlier, parse);
      ViewIsTransparent(earlier, parse);
      hide ShowsPaused, Holds, Frames, AllEntries, LastN, Read, Toggle, Clear;
      match last {
        case Chunk(chunk) => ChunkWhilePaused(before, events, parse);
        case PauseToggled => ToggleShows(before, events, parse);
        case Cleared => ClearShows(before, events, parse);
      }
    }
  }

  // ---------- from the sender's text ----------

  /** The server's event stream: one event for each chunk. */
  ghost function ServerText(payloads: seq<string>): string {
    if payloads == [] then "" else "event: logs.chunk\n" + "data: " + payloads[0] + "\n\n" + ServerText(payloads[1..])
  }

  /** The entries of the chunks, in order; none of one that does not parse. */
  ghost function PayloadEntries<E>(payloads: seq<string>, parse: Parser<E>): seq<E> {
    if payloads == [] then []
    else (match parse(payloads[0]) case Some(entries) => entries case None => []) + PayloadEntries(payloads[1..], parse)
  }

  ghost function ChunkFrame(payload: string): string { "event: logs.chunk\n" + "data: " + payload }

  ghost function ChunkFrames(payloads: seq<string>): (frames: seq<string>)
    ensures |frames| == |payloads|
  {
    if payloads == [] then [] else [ChunkFrame(payloads[0])] + ChunkFrames(payloads[1..])
  }

  lemma {:induction false} NoSeparator(a: string, b: string)
    requires '\n' !in a && '\n' !in b && b != ""
    ensures IndexOfSeparator(a + "\n" + b + "\n") == -1
  {
    var s := a + "\n" + b + "\n";
    if a == "" {
      assert s[1..] == b + "\n" && s[1] == b[0] && b[0] in b;
      NoSeparatorLine(b);
    } else {
      assert s[1..] == a[1..] + "\n" + b + "\n" && s[0] == a[0] && a[0] in a;
      NoSeparator(a[1..], b);
    }
  }

  lemma {:induction false} NoSeparatorLine(b: string)
    requires '\n' !in b
    ensures IndexOfSeparator(b + "\n") == -1
  {
    if b != "" {
      assert (b + "\n")[1..] == b[1..] + "\n" && b[0] in b;
      NoSeparatorLine(b[1..]);
    }
  }

  /** One more line. */
  lemma LineAdded(lines: seq<FrameLine>, l: FrameLine)
    ensures LineTexts(lines + [l]) == LineTexts(lines) + [LineText(l)]
    ensures EventOf(lines + [l]) == if l.EventLine? then l.name else EventOf(lines)
    ensures DataOf(lines + [l]) == if l.DataLine? then DataOf(lines) + [l.text] else DataOf(lines)
  {
    assert (lines + [l])[..|lines|] == lines;
  }

  /** The lines of a chunk's frame. */
  lemma ChunkLines(payload: string)
    requires OneLine(payload)
    ensures var lines := [EventLine(" ", "logs.chunk", ""), DataLine(" ", payload, "")];
      && AllWellWritten(lines) && EventOf(lines) == "logs.chunk" && DataOf(lines) == [payload]
      && LineTexts(lines) == ["event: " + "logs.chunk", "data: " + payload]
  {
    var event, data := EventLine(" ", "logs.chunk", ""), DataLine(" ", payload, "");
    assert "event:" + (" " + "logs.chunk" + "") == "event: " + "logs.chunk";
    assert "data:" + (" " + payload + "") == "data: " + payload;
    assert WellWritten(event) && WellWritten(data);
    NoLines();
    hide LineTexts, EventOf, DataOf;
    LineAdded([], event);
    LineAdded([event], data);
    assert [] + [event] == [event] && [event] + [data] == [event, data];
  }

  lemma NoLines()
    ensures LineTexts([]) == [] && DataOf([]) == []
  {}

  lemma ChunkFrameRead<E>(payload: string, parse: Parser<E>)
    requires OneLine(payload)
    ensures Clean(ChunkFrame(payload))
    ensures FrameEntries(ChunkFrame(payload), parse) == match parse(payload) case Some(entries) => entries case None => []
  {
    hide FrameEntries, AllWellWritten, EventOf, DataOf, LineTexts, IndexOfSeparator, OneLine;
    ChunkLines(payload);
    ChunkFrameClean(payload);
    var a, b := "event: " + "logs.chunk", "data: " + payload;
    TwoLines(a, b);
    assert JoinLines([payload]) == payload;
    FrameRead([EventLine(" ", "logs.chunk", ""), DataLine(" ", payload, "")], parse);
    assert a + "\n" + b == ChunkFrame(payload);
  }

  lemma TwoLines(a: string, b: string)
    ensures JoinLines([a, b]) == a + "\n" + b
  {
    assert [a, b][1..] == [b];
  }

  lemma ChunkFrameClean(payload: string)
    requires OneLine(payload)
    ensures Clean(ChunkFrame(payload))
  {
    hide IndexOfSeparator, Trim;
    var a, b := "event: " + "logs.chunk", "data: " + payload;
    NoSeparator(a, b);
    assert ChunkFrame(payload) + "\n" == a + "\n" + b + "\n";
  }

  lemma {:induction false} ServerFrames<E>(payloads: seq<string>, parse: Parser<E>)
    requires forall i :: 0 <= i < |payloads| ==> OneLine(payloads[i])
    ensures ServerText(payloads) == Encode(ChunkFrames(payloads))
    ensures forall i :: 0 <= i < |payloads| ==> Clean(ChunkFrames(payloads)[i])
    ensures AllEntries(ChunkFrames(payloads), parse) == PayloadEntries(payloads, parse)
  {
    hide Clean, OneLine, FrameEntries;
    if payloads != [] {
      ServerFrames(payloads[1..], parse);
      ChunkFrameRead(payloads[0], parse);
      assert ChunkFrames(payloads)[1..] == ChunkFrames(payloads[1..]);
    }
  }

  lemma {:induction false} NeverCleared(events: seq<Event>)
    requires forall i :: 0 <= i < |events| ==> !events[i].Cleared?
    ensures ClearedAt(events) == 0
  {
    if events != [] {
      NeverCleared(events[..|events| - 1]);
    }
  }

  /** However the server's text is cut into reads, and wherever in it the last read ends, and whenever the view was
      paused and resumed: unpaused, it shows the last 5000 entries of the chunks that have come in whole. */
  lemma ServerTextShown<E>(events: seq<Event>, payloads: seq<string>, partial: string, parse: Parser<E>)
    requires forall i :: 0 <= i < |payloads| ==> OneLine(payloads[i])
    requires forall i :: 0 <= i < |events| ==> !events[i].Cleared?
    requires TextOf(events) == ServerText(payloads) + partial && IndexOfSeparator(partial) == -1
    requires !PausedAfter(events)
    ensures Run(View("", [], [], false), events, parse).entries == Newest(PayloadEntries(payloads, parse))
  {
    ServerFrames(payloads, parse);
    EncodedSplit(ChunkFrames(payloads), partial);
    NeverCleared(events);
    ViewIsTransparent(events, parse);
    PausedShows(events, parse);
    hide Run, LastN, AllEntries, TextOf, PayloadEntries, Frames;
    assert ChunkFrames(payloads)[0..] == ChunkFrames(payloads);
  }
}
