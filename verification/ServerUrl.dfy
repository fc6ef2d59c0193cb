/** The `server.url` editor and reader of apps/cli/cmd/internal/agent/install/config.go. */
module ServerUrl {
  import opened Prelude

  // ---------- the pieces of Go's strings and strconv packages that are used ----------

  /** unicode.IsSpace. */
  predicate IsSpace(c: char) {
    c == ' ' || '\t' <= c <= '\r' || c == '\U{85}' || c == '\U{A0}' || c == '\U{1680}'
    || '\U{2000}' <= c <= '\U{200A}' || c == '\U{2028}' || c == '\U{2029}' || c == '\U{202F}'
    || c == '\U{205F}' || c == '\U{3000}'
  }

  function SpacesBefore(s: string): (n: nat)
    ensures n <= |s|
  {
    if s == "" || !IsSpace(s[0]) then 0 else 1 + SpacesBefore(s[1..])
  }

  function ContentEnd(s: string): (n: nat)
    ensures n <= |s|
  {
    if s == "" then 0 else if !IsSpace(s[|s| - 1]) then |s| else ContentEnd(s[..|s| - 1])
  }

  function TrimSpace(s: string): string {
    if SpacesBefore(s) >= ContentEnd(s) then "" else s[SpacesBefore(s)..ContentEnd(s)]
  }

  predicate HasPrefix(s: string, prefix: string) { |prefix| <= |s| && s[..|prefix|] == prefix }

  /** strings.TrimLeft(s, " \t") is s without its first Indent(s) characters. */
  function Indent(s: string): (n: nat)
    ensures n <= |s|
  {
    if s != "" && (s[0] == ' ' || s[0] == '\t') then 1 + Indent(s[1..]) else 0
  }

  predicate IsQuote(c: char) { c == '"' || c == '\'' }

  /** strings.Trim(s, `"'`). */
  function TrimQuotes(s: string): string {
    if s == "" then ""
    else if IsQuote(s[0]) then TrimQuotes(s[1..])
    else if IsQuote(s[|s| - 1]) then TrimQuotes(s[..|s| - 1])
    else s
  }

  /** strings.SplitAfter(s, "\n"): the last line has no line feed and may be empty. */
  function SplitAfterLF(s: string): (lines: seq<string>)
    ensures lines != []
  {
    if s == "" then [""]
    else
      var rest := SplitAfterLF(s[1..]);
      if s[0] == '\n' then ["\n"] + rest else [[s[0]] + rest[0]] + rest[1..]
  }

  const HEX: string := "0123456789abcdef"

  function Hex(n: nat, digits: nat): (r: string)
    ensures |r| == digits
    ensures digits > 0 ==> r[digits - 1] == HEX[n % 16]
  {
    if digits == 0 then "" else Hex(n / 16, digits - 1) + [HEX[n % 16]]
  }

  /** unicode.IsPrint; what lies beyond ASCII is read from `table`. */
  predicate IsPrint(c: char, table: char -> bool) {
    if c < '\U{80}' then ' ' <= c <= '~' else table(c)
  }

  predicate Unescaped(c: char, table: char -> bool) { c != '"' && c != '\\' && IsPrint(c, table) }

  function Escape(c: char, table: char -> bool): (r: string)
    ensures Unescaped(c, table) ==> r == [c]
    ensures !Unescaped(c, table) ==> |r| >= 2 && r[0] == '\\' && (c != '"' ==> !IsQuote(r[|r| - 1]))
  {
    if Unescaped(c, table) then [c]
    else if c == '"' || c == '\\' then ['\\', c]
    else if c == '\U{07}' then "\\a" else if c == '\U{08}' then "\\b" else if c == '\U{0C}' then "\\f"
    else if c == '\n' then "\\n" else if c == '\r' then "\\r" else if c == '\t' then "\\t"
    else if c == '\U{0B}' then "\\v"
    else if c < ' ' || c == '\U{7F}' then "\\x" + Hex(c as nat, 2)
    else if c < '\U{10000}' then "\\u" + Hex(c as nat, 4)
    else "\\U" + Hex(c as nat, 8)
  }

  lemma {:induction false} HexHasNoNewline(n: nat, digits: nat)
    ensures '\n' !in Hex(n, digits)
  {
    if digits > 0 {
      HexHasNoNewline(n / 16, digits - 1);
    }
  }

  lemma EscapeHasNoNewline(c: char, table: char -> bool)
    ensures '\n' !in Escape(c, table)
  {
    HexHasNoNewline(c as nat, 2);
    HexHasNoNewline(c as nat, 4);
    HexHasNoNewline(c as nat, 8);
  }

  function EscapeAll(s: string, table: char -> bool): string {
    if s == "" then "" else Escape(s[0], table) + EscapeAll(s[1..], table)
  }

  /** strconv.Quote. */
  function Quote(s: string, table: char -> bool): string { "\"" + EscapeAll(s, table) + "\"" }

  // ---------- what both programs make of the file ----------

  datatype Line = Ignored | Section(server: bool) | Key(url: Option<string>)

  function Classify(line: string): Line {
    var trimmed := TrimSpace(line);
    if trimmed == "" || trimmed[0] == '#' then Ignored
    else if line[0] != ' ' && line[0] != '\t' then Section(HasPrefix(trimmed, "server:"))
    else if HasPrefix(trimmed, "url:") then Key(Some(trimmed[4..]))
    else Key(None)
  }

  /** A raw line without its "\r\n" or "\n", and that ending. */
  function Body(raw: string): string { raw[..|raw| - |Ending(raw)|] }

  function Ending(raw: string): (r: string)
    ensures |r| <= |raw|
  {
    if raw == "" || raw[|raw| - 1] != '\n' then ""
    else if |raw| >= 2 && raw[|raw| - 2] == '\r' then "\r\n"
    else "\n"
  }

  lemma BodyAndEnding(raw: string)
    ensures Body(raw) + Ending(raw) == raw
  {
    var n := |raw|;
    if raw == "" || raw[n - 1] != '\n' {
      assert Ending(raw) == "";
    } else if n >= 2 && raw[n - 2] == '\r' {
      assert Ending(raw) == "\r\n" && raw[n - 2..] == ['\r', '\n'];
    } else {
      assert Ending(raw) == "\n" && raw[n - 1..] == ['\n'];
    }
  }

  /** bufio.ScanLines: also drops a carriage return at the end of an unterminated last line. */
  function Scanned(raw: string): string {
    var line := if raw != "" && raw[|raw| - 1] == '\n' then raw[..|raw| - 1] else raw;
    if line != "" && line[|line| - 1] == '\r' then line[..|line| - 1] else line
  }

  function Kinds(lines: seq<string>): (kinds: seq<Line>)
    ensures |kinds| == |lines|
  {
    if lines == [] then [] else [Classify(Body(lines[0]))] + Kinds(lines[1..])
  }

  function ScannedKinds(lines: seq<string>): (kinds: seq<Line>)
    ensures |kinds| == |lines|
  {
    if lines == [] then [] else [Classify(Scanned(lines[0]))] + ScannedKinds(lines[1..])
  }

  /** The index of the line that holds server.url. */
  function UrlLine(kinds: seq<Line>, inServer: bool): (found: Option<nat>)
    ensures found.Some? ==> found.value < |kinds| && kinds[found.value].Key? && kinds[found.value].url.Some?
  {
    if kinds == [] then None
    else if inServer && kinds[0].Key? && kinds[0].url.Some? then Some(0)
    else Shift(UrlLine(kinds[1..], if kinds[0].Section? then kinds[0].server else inServer), 1)
  }

  function Shift(found: Option<nat>, offset: nat): Option<nat> {
    match found case None => None case Some(i) => Some(i + offset)
  }

  function UrlValue(raw: string): string { TrimQuotes(TrimSpace(raw)) }

  /** The line with its value replaced by an already quoted one. */
  function NewLine(raw: string, quoted: string): string {
    Body(raw)[..Indent(Body(raw))] + ("url: " + quoted) + Ending(raw)
  }

  /** What replaceServerURL returns: nothing if there is no server.url. */
  function Replaced(content: string, url: string, table: char -> bool): Option<string> {
    var lines := SplitAfterLF(content);
    match UrlLine(Kinds(lines), false)
    case None => None
    case Some(i) => Some(Concat(lines[i := NewLine(lines[i], Quote(url, table))]))
  }

  function ServerUrlOf(content: string): Option<string> {
    var kinds := Kinds(SplitAfterLF(content));
    match UrlLine(kinds, false)
    case None => None
    case Some(i) => Some(UrlValue(kinds[i].url.value))
  }

  // ---------- the programs ----------

  /** The scan both programs make, over lines already classified. */
  method FindUrlLine(kinds: seq<Line>) returns (found: Option<nat>)
    ensures found == UrlLine(kinds, false)
  {
    var inServer := false;
    for index := 0 to |kinds|
      invariant UrlLine(kinds, false) == Shift(UrlLine(kinds[index..], inServer), index)
    {
      UrlLineStep(kinds, index, inServer);
      match kinds[index] {
        case Ignored =>
        case Section(server) => inServer := server;
        case Key(None) =>
        case Key(Some(_)) =>
          if inServer {
            return Some(index);
          }
      }
    }
    return None;
  }

  method ReplaceServerURL(content: string, url: string, table: char -> bool) returns (updated: Option<string>)
    ensures updated == Replaced(content, url, table)
  {
    var lines := SplitAfterLF(content);
    var found := FindUrlLine(Kinds(lines));
    match found {
      case None => return None;
      case Some(index) =>
        lines := lines[index := NewLine(lines[index], Quote(url, table))];
        return Some(Concat(lines));
    }
  }

  method ReadServerURL(content: string) returns (url: Option<string>)
    ensures url == ServerUrlOf(content)
  {
    var kinds := ScannedKinds(SplitAfterLF(content));
    ScannedKindsAlike(SplitAfterLF(content));
    var found := FindUrlLine(kinds);
    match found {
      case None => return None;
      case Some(index) => return Some(UrlValue(kinds[index].url.value));
    }
  }

  lemma UrlLineStep(kinds: seq<Line>, index: nat, inServer: bool)
    requires index < |kinds|
    ensures UrlLine(kinds[index..], inServer)
         == if inServer && kinds[index].Key? && kinds[index].url.Some? then Some(0)
            else Shift(UrlLine(kinds[index + 1..], if kinds[index].Section? then kinds[index].server else inServer), 1)
  {
    assert kinds[index..][1..] == kinds[index + 1..];
  }

  lemma {:induction false} ScannedKindsAlike(lines: seq<string>)
    ensures ScannedKinds(lines) == Kinds(lines)
  {
    if lines != [] {
      ScannedAlike(lines[0]);
      ScannedKindsAlike(lines[1..]);
    }
  }

  /** Trimming a line takes off the carriage return that only the scanner removes. */
  lemma ScannedAlike(raw: string)
    ensures Classify(Scanned(raw)) == Classify(Body(raw))
  {
    if Scanned(raw) != Body(raw) {
      assert Body(raw) == Scanned(raw) + "\r";
      TrimSpaceSuffix(Scanned(raw), '\r');
    }
  }

  lemma {:induction false} TrimSpaceSuffix(s: string, c: char)
    requires IsSpace(c)
    ensures TrimSpace(s + [c]) == TrimSpace(s)
    ensures TrimSpace(s) != "" ==> (s + [c])[0] == s[0]
  {
    assert (s + [c])[..|s|] == s;
    assert ContentEnd(s + [c]) == ContentEnd(s);
    SpacesBeforeSuffix(s, c);
  }

  lemma {:induction false} SpacesBeforeSuffix(s: string, c: char)
    requires IsSpace(c)
    ensures SpacesBefore(s + [c]) == (if SpacesBefore(s) == |s| then |s| + 1 else SpacesBefore(s))
  {
    if s == "" {
      assert (s + [c])[1..] == "";
    } else {
      assert (s + [c])[1..] == s[1..] + [c];
      SpacesBeforeSuffix(s[1..], c);
    }
  }

  // ---------- splitting and joining ----------

  ghost predicate Terminated(raw: string) {
    raw != "" && raw[|raw| - 1] == '\n' && '\n' !in raw[..|raw| - 1]
  }

  /** The shape of strings.SplitAfter's result. */
  ghost predicate LineList(lines: seq<string>) {
    lines != [] && (if |lines| == 1 then '\n' !in lines[0] else Terminated(lines[0]) && LineList(lines[1..]))
  }

  lemma {:induction false} SplitIsLineList(s: string)
    ensures LineList(SplitAfterLF(s)) && Concat(SplitAfterLF(s)) == s
  {
    var lines := SplitAfterLF(s);
    if s == "" {
      assert Concat(lines[1..]) == [];
    } else {
      var rest := SplitAfterLF(s[1..]);
      SplitIsLineList(s[1..]);
      if s[0] == '\n' {
        assert lines[1..] == rest;
      } else {
        ConsFirst(s[0], rest);
      }
      assert s == [s[0]] + s[1..];
    }
  }

  lemma ConsFirst(c: char, rest: seq<string>)
    requires LineList(rest) && c != '\n'
    ensures LineList([[c] + rest[0]] + rest[1..])
    ensures Concat([[c] + rest[0]] + rest[1..]) == [c] + Concat(rest)
  {
    var lines := [[c] + rest[0]] + rest[1..];
    assert lines[1..] == rest[1..];
    if |rest| > 1 {
      assert ([c] + rest[0])[..|rest[0]|] == [c] + rest[0][..|rest[0]| - 1];
    }
    Associate([c], rest[0], Concat(rest[1..]));
  }

  lemma {:induction false} SplitUnbroken(s: string)
    requires '\n' !in s
    ensures SplitAfterLF(s) == [s]
  {
    if s != "" {
      SplitUnbroken(s[1..]);
      assert s[0] in s && s == [s[0]] + s[1..];
    }
  }

  lemma SplitFirst(s: string)
    requires s != ""
    ensures var rest := SplitAfterLF(s[1..]);
      SplitAfterLF(s) == if s[0] == '\n' then ["\n"] + rest else [[s[0]] + rest[0]] + rest[1..]
  {}

  lemma TerminatedRest(line: string)
    requires Terminated(line)
    ensures line != ""
    ensures if |line| == 1 then line == "\n" else line[0] != '\n' && Terminated(line[1..])
  {
    if |line| > 1 {
      assert line[0] == line[..|line| - 1][0];
      assert line[1..][..|line| - 2] == line[..|line| - 1][1..];
    }
  }

  lemma {:induction false} SplitTerminated(line: string, rest: string)
    requires Terminated(line)
    ensures SplitAfterLF(line + rest) == [line] + SplitAfterLF(rest)
  {
    hide SplitAfterLF, Terminated;
    var s := line + rest;
    TerminatedRest(line);
    SplitFirst(s);
    assert s[1..] == line[1..] + rest && s[0] == line[0];
    if |line| == 1 {
      assert line[1..] + rest == rest;
    } else {
      SplitTerminated(line[1..], rest);
      assert line == [line[0]] + line[1..];
    }
  }

  lemma {:induction false} SplitJoined(lines: seq<string>)
    requires LineList(lines)
    ensures SplitAfterLF(Concat(lines)) == lines
  {
    if |lines| == 1 {
      assert Concat(lines[1..]) == [] && Concat(lines) == lines[0];
      SplitUnbroken(lines[0]);
    } else {
      SplitJoined(lines[1..]);
      SplitTerminated(lines[0], Concat(lines[1..]));
    }
  }

  // ---------- the rewritten line ----------

  ghost predicate Quoted(q: string) {
    |q| >= 2 && q[0] == '"' && q[|q| - 1] == '"' && '\n' !in q
  }

  lemma QuoteIsQuoted(s: string, table: char -> bool)
    ensures Quoted(Quote(s, table))
  {
    EscapedHasNoNewline(s, table);
  }

  lemma {:induction false} EscapedHasNoNewline(s: string, table: char -> bool)
    ensures '\n' !in EscapeAll(s, table)
  {
    if s != "" {
      EscapeHasNoNewline(s[0], table);
      EscapedHasNoNewline(s[1..], table);
    }
  }

  lemma {:induction false} IndentIsBlank(s: string)
    ensures forall i :: 0 <= i < Indent(s) ==> IsSpace(s[i]) && s[i] != '\n'
    ensures Indent(s) == 0 <==> s == "" || (s[0] != ' ' && s[0] != '\t')
  {
    if s != "" && (s[0] == ' ' || s[0] == '\t') {
      IndentIsBlank(s[1..]);
    }
  }

  lemma {:induction false} IndentOf(blank: string, rest: string)
    requires Indent(blank) == |blank| && rest != "" && rest[0] != ' ' && rest[0] != '\t'
    ensures Indent(blank + rest) == |blank|
  {
    if blank == "" {
      assert blank + rest == rest;
    } else {
      assert (blank + rest)[1..] == blank[1..] + rest;
      IndentOf(blank[1..], rest);
    }
  }

  lemma {:induction false} IndentOfIndent(s: string)
    ensures Indent(s[..Indent(s)]) == Indent(s)
  {
    if Indent(s) > 0 {
      IndentOfIndent(s[1..]);
      assert s[..Indent(s)][1..] == s[1..][..Indent(s[1..])];
    }
  }

  lemma AssignmentShape(q: string)
    requires Quoted(q)
    ensures var a := "url: " + q;
      |a| > 4 && a[..4] == "url:" && a[4..] == " " + q && a[0] == 'u' && a[|a| - 1] == '"' && '\n' !in a
  {
    assert "url: "[..4] == "url:";
  }

  lemma NewLineShape(raw: string, q: string)
    requires Quoted(q)
    ensures Ending(NewLine(raw, q)) == Ending(raw)
    ensures Body(NewLine(raw, q)) == Body(raw)[..Indent(Body(raw))] + ("url: " + q)
  {
    EndingOf(Body(raw)[..Indent(Body(raw))] + ("url: " + q), Ending(raw));
  }

  lemma EndingOf(kept: string, ending: string)
    requires kept != "" && kept[|kept| - 1] == '"' && ending in {"", "\n", "\r\n"}
    ensures Ending(kept + ending) == ending && Body(kept + ending) == kept
  {
    var line := kept + ending;
    assert line[|kept| - 1] == '"';
    if ending == "\r\n" {
      assert line[|line| - 1] == '\n' && line[|line| - 2] == '\r';
    }
  }

  lemma KeyIsIndented(line: string)
    requires Classify(line).Key?
    ensures Indent(line) > 0 && (line[0] == ' ' || line[0] == '\t')
  {}

  lemma NotSpaces()
    ensures !IsSpace('u') && !IsSpace('"')
  {}

  /** The new line keeps the indentation, and both programs find the key in it. */
  lemma NewLineFound(raw: string, q: string)
    requires Classify(Body(raw)).Key? && Quoted(q)
    ensures Classify(Body(NewLine(raw, q))) == Key(Some(" " + q))
    ensures Indent(Body(NewLine(raw, q))) == Indent(Body(raw))
    ensures Body(NewLine(raw, q))[..Indent(Body(raw))] == Body(raw)[..Indent(Body(raw))]
  {
    hide TrimSpace, Quoted, IsSpace, Classify, Body, Ending, NewLine;
    var body := Body(raw);
    KeyIsIndented(body);
    NotSpaces();
    var blank, a := body[..Indent(body)], "url: " + q;
    NewLineShape(raw, q);
    AssignmentShape(q);
    IndentIsBlank(body);
    IndentOfIndent(body);
    IndentOf(blank, a);
    TrimIndented(blank, a);
    ClassifyKey(blank + a, a);
  }

  lemma ClassifyKey(line: string, trimmed: string)
    requires line != "" && (line[0] == ' ' || line[0] == '\t')
    requires TrimSpace(line) == trimmed && |trimmed| > 4 && trimmed[..4] == "url:"
    ensures Classify(line) == Key(Some(trimmed[4..]))
  {
    assert trimmed[0] == trimmed[..4][0] == 'u';
  }

  lemma TrimIndented(blank: string, a: string)
    requires forall i :: 0 <= i < |blank| ==> IsSpace(blank[i])
    requires a != "" && !IsSpace(a[0]) && !IsSpace(a[|a| - 1])
    ensures TrimSpace(blank + a) == a
  {
    SpacesBeforeIs(blank, a);
    assert ContentEnd(blank + a) == |blank + a|;
  }

  lemma {:induction false} SpacesBeforeIs(blank: string, a: string)
    requires forall i :: 0 <= i < |blank| ==> IsSpace(blank[i])
    requires a != "" && !IsSpace(a[0])
    ensures SpacesBefore(blank + a) == |blank|
  {
    if blank == "" {
      assert blank + a == a;
    } else {
      assert (blank + a)[1..] == blank[1..] + a;
      SpacesBeforeIs(blank[1..], a);
    }
  }

  lemma {:induction false} KindAt(lines: seq<string>, i: nat)
    requires i < |lines|
    ensures Kinds(lines)[i] == Classify(Body(lines[i]))
  {
    if i > 0 {
      KindAt(lines[1..], i - 1);
    }
  }

  lemma KindsUpdate(lines: seq<string>, i: nat, line: string, kind: Line)
    requires i < |lines| && kind == Classify(Body(line))
    ensures Kinds(lines[i := line]) == Kinds(lines)[i := kind]
  {
    var updated := lines[i := line];
    var before, after := Kinds(lines), Kinds(updated);
    forall j | 0 <= j < |lines| ensures after[j] == if j == i then kind else before[j] {
      KindAt(lines, j);
      KindAt(updated, j);
    }
    assert after == before[i := kind];
  }

  lemma KindsCons(lines: seq<string>) returns (first: Line)
    requires lines != []
    ensures first == Classify(Body(lines[0])) && Kinds(lines) == [first] + Kinds(lines[1..])
  {
    first := Classify(Body(lines[0]));
  }

  lemma {:induction false} UrlLineUpdate(kinds: seq<Line>, inServer: bool, i: nat, kind: Line)
    requires UrlLine(kinds, inServer) == Some(i) && kind.Key? && kind.url.Some?
    ensures UrlLine(kinds[i := kind], inServer) == Some(i)
  {
    if i > 0 {
      var after := if kinds[0].Section? then kinds[0].server else inServer;
      UrlLineUpdate(kinds[1..], after, i - 1, kind);
      assert kinds[i := kind][1..] == kinds[1..][i - 1 := kind];
    }
  }

  lemma {:induction false} LineListUpdate(lines: seq<string>, i: nat, line: string)
    requires LineList(lines) && i < |lines|
    requires if i < |lines| - 1 then Terminated(line) else '\n' !in line
    ensures LineList(lines[i := line])
  {
    if i == 0 {
      assert lines[i := line][1..] == lines[1..];
    } else {
      LineListUpdate(lines[1..], i - 1, line);
      assert lines[i := line][1..] == lines[1..][i - 1 := line];
    }
  }

  lemma {:induction false} LineAt(lines: seq<string>, i: nat)
    requires LineList(lines) && i < |lines|
    ensures if i < |lines| - 1 then Terminated(lines[i]) else '\n' !in lines[i]
  {
    if i > 0 {
      LineAt(lines[1..], i - 1);
    }
  }

  // ---------- the lens ----------

  /** Replacing succeeds exactly when the reader finds a URL, whatever the new one is. */
  lemma ReplaceIffRead(content: string, url: string, table: char -> bool)
    ensures Replaced(content, url, table).Some? <==> ServerUrlOf(content).Some?
  {}

  /** Only the line of the key changes: it keeps its indentation and its ending, and every other line is
      byte for byte what it was. */
  lemma OnlyUrlLineChanges(content: string, url: string, table: char -> bool) returns (i: nat)
    requires Replaced(content, url, table).Some?
    ensures var before, after := SplitAfterLF(content), SplitAfterLF(Replaced(content, url, table).value);
      && UrlLine(Kinds(before), false) == Some(i) && UrlLine(Kinds(after), false) == Some(i)
      && |after| == |before|
      && (forall j :: 0 <= j < |after| && j != i ==> after[j] == before[j])
      && after[i] == NewLine(before[i], Quote(url, table))
      && before[i] == Body(before[i]) + Ending(before[i]) && after[i] == Body(after[i]) + Ending(before[i])
      && Kinds(after)[i] == Key(Some(" " + Quote(url, table)))
  {
    var lines, q := SplitAfterLF(content), Quote(url, table);
    QuoteIsQuoted(url, table);
    i := UrlLine(Kinds(lines), false).value;
    SplitIsLineList(content);
    LineRewritten(lines, i, q);
    BodyAndEnding(lines[i]);
    BodyAndEnding(NewLine(lines[i], q));
  }

  lemma LineRewritten(lines: seq<string>, i: nat, q: string)
    requires LineList(lines) && UrlLine(Kinds(lines), false) == Some(i) && Quoted(q)
    ensures var after := lines[i := NewLine(lines[i], q)];
      && SplitAfterLF(Concat(after)) == after
      && UrlLine(Kinds(after), false) == Some(i)
      && Kinds(after)[i] == Key(Some(" " + q))
    ensures Ending(NewLine(lines[i], q)) == Ending(lines[i])
    ensures Classify(Body(lines[i])).Key?
  {
    hide NewLine, Classify, Body, Ending, SplitAfterLF, Concat, Quoted, Terminated;
    var line := NewLine(lines[i], q);
    KindAt(lines, i);
    NewLineShape(lines[i], q);
    NewLineFound(lines[i], q);
    KindsUpdate(lines, i, line, Key(Some(" " + q)));
    UrlLineUpdate(Kinds(lines), false, i, Key(Some(" " + q)));
    LineAt(lines, i);
    NewLineTerminated(lines[i], q);
    LineListUpdate(lines, i, line);
    SplitJoined(lines[i := line]);
  }

  lemma NewLineTerminated(raw: string, q: string)
    requires Quoted(q)
    ensures Terminated(raw) ==> Terminated(NewLine(raw, q))
    ensures '\n' !in raw ==> '\n' !in NewLine(raw, q)
  {
    AssignmentShape(q);
    IndentIsBlank(Body(raw));
    var kept := Body(raw)[..Indent(Body(raw))] + ("url: " + q);
    assert '\n' !in kept;
    var line := kept + Ending(raw);
    if Terminated(raw) {
      assert line[..|line| - 1] == kept + Ending(raw)[..|Ending(raw)| - 1];
    }
  }

  lemma NewLineTwice(raw: string, q: string, next: string)
    requires Classify(Body(raw)).Key? && Quoted(q)
    ensures NewLine(NewLine(raw, q), next) == NewLine(raw, next)
  {
    hide Classify, Quoted;
    NewLineFound(raw, q);
    NewLineShape(raw, q);
  }

  lemma RewrittenTwice(lines: seq<string>, i: nat, q: string, next: string)
    requires LineList(lines) && UrlLine(Kinds(lines), false) == Some(i) && Quoted(q)
    ensures var after := lines[i := NewLine(lines[i], q)];
      && SplitAfterLF(Concat(after)) == after && UrlLine(Kinds(after), false) == Some(i)
      && after[i := NewLine(after[i], next)] == lines[i := NewLine(lines[i], next)]
  {
    hide NewLine, Classify, Body, Ending, SplitAfterLF, Concat, Quoted, Kinds, UrlLine;
    LineRewritten(lines, i, q);
    NewLineTwice(lines[i], q, next);
  }

  /** Writing twice leaves what the second write alone would have. */
  lemma PutPut(content: string, url: string, next: string, table: char -> bool)
    requires Replaced(content, url, table).Some?
    ensures Replaced(Replaced(content, url, table).value, next, table) == Replaced(content, next, table)
  {
    var lines := SplitAfterLF(content);
    QuoteIsQuoted(url, table);
    SplitIsLineList(content);
    RewrittenTwice(lines, UrlLine(Kinds(lines), false).value, Quote(url, table), Quote(next, table));
  }

  /** The URLs that survive being written and read: quoting escapes nothing in them, and no apostrophe
      stands at either end for the reader to trim. */
  predicate Plain(url: string, table: char -> bool) {
    && (forall i :: 0 <= i < |url| ==> Unescaped(url[i], table))
    && (url != "" ==> url[0] != '\'' && url[|url| - 1] != '\'')
  }

  lemma {:induction false} EscapeGrows(s: string, table: char -> bool)
    ensures (forall i :: 0 <= i < |s| ==> Unescaped(s[i], table)) ==> EscapeAll(s, table) == s
    ensures !(forall i :: 0 <= i < |s| ==> Unescaped(s[i], table)) ==> |EscapeAll(s, table)| > |s|
    ensures |EscapeAll(s, table)| >= |s|
  {
    if s != "" {
      EscapeGrows(s[1..], table);
      assert s == [s[0]] + s[1..];
      if forall i :: 0 <= i < |s[1..]| ==> Unescaped(s[1..][i], table) {
        assert forall i :: 1 <= i < |s| ==> s[i] == s[1..][i - 1];
      }
    }
  }

  /** The ends of an escaped text come from the ends of the text. */
  lemma {:induction false} EscapedEnds(s: string, table: char -> bool)
    requires s != ""
    ensures EscapeAll(s, table) != "" && EscapeAll(s, table)[0] == Escape(s[0], table)[0]
    ensures Last(EscapeAll(s, table)) == Last(Escape(s[|s| - 1], table))
  {
    var first, rest := Escape(s[0], table), EscapeAll(s[1..], table);
    assert first != "";
    if |s| == 1 {
      assert s[1..] == "" && first + rest == first;
    } else {
      EscapedEnds(s[1..], table);
      assert Last(first + rest) == Last(rest);
    }
  }

  function Last(s: string): char
    requires s != ""
  {
    s[|s| - 1]
  }

  lemma {:induction false} TrimQuotesAround(e: string)
    ensures TrimQuotes("\"" + e + "\"") == TrimQuotes(e)
    ensures TrimQuotes(e) == e <==> e == "" || (!IsQuote(e[0]) && !IsQuote(e[|e| - 1]))
  {
    var q := "\"" + e + "\"";
    assert q[1..] == e + "\"";
    TrimQuotesEnd(e);
    TrimShortens(e);
  }

  lemma {:induction false} TrimQuotesEnd(e: string)
    ensures TrimQuotes(e + "\"") == TrimQuotes(e)
    decreases |e|
  {
    var q := e + "\"";
    if e == "" {
      assert q[1..] == "";
    } else if IsQuote(e[0]) {
      assert q[1..] == e[1..] + "\"";
      TrimQuotesEnd(e[1..]);
    } else {
      assert q[..|q| - 1] == e;
    }
  }

  lemma {:induction false} TrimShortens(e: string)
    ensures |TrimQuotes(e)| <= |e|
    ensures e != "" && (IsQuote(e[0]) || IsQuote(e[|e| - 1])) ==> |TrimQuotes(e)| < |e|
    ensures TrimQuotes(e) != "" ==> !IsQuote(TrimQuotes(e)[0]) && !IsQuote(TrimQuotes(e)[|TrimQuotes(e)| - 1])
    decreases |e|
  {
    if e != "" {
      if IsQuote(e[0]) {
        TrimShortens(e[1..]);
      } else if IsQuote(e[|e| - 1]) {
        TrimShortens(e[..|e| - 1]);
      }
    }
  }

  lemma QuoteReadsBack(url: string, table: char -> bool)
    ensures TrimQuotes(Quote(url, table)) == url <==> Plain(url, table)
  {
    var e := EscapeAll(url, table);
    EscapeGrows(url, table);
    TrimQuotesAround(e);
    TrimShortens(e);
    if url != "" {
      EscapedEnds(url, table);
    }
  }

  /** Reading back what was written gives the URL exactly when the URL is plain. */
  lemma PutGet(content: string, url: string, table: char -> bool)
    requires Replaced(content, url, table).Some?
    ensures ServerUrlOf(Replaced(content, url, table).value) == Some(url) <==> Plain(url, table)
  {
    var i := OnlyUrlLineChanges(content, url, table);
    QuotedValue(url, table);
    QuoteReadsBack(url, table);
  }

  /** A double quote in the host: the reader returns something else. */
  lemma QuoteInHostNotRead(content: string, table: char -> bool)
    requires Replaced(content, "wss://a\"b/agents", table).Some?
    ensures ServerUrlOf(Replaced(content, "wss://a\"b/agents", table).value) != Some("wss://a\"b/agents")
  {
    var url := "wss://a\"b/agents";
    PutGet(content, url, table);
    assert url[7] == '"' && !Unescaped(url[7], table);
  }

  lemma QuotedValue(url: string, table: char -> bool)
    ensures UrlValue(" " + Quote(url, table)) == TrimQuotes(Quote(url, table))
  {
    TrimIndented(" ", Quote(url, table));
  }

  // ---------- the generated file ----------

  /** One line of configTemplate once its verbs are filled in. */
  datatype TemplateLine = Comment(text: string) | Blank | Header(name: string) | Setting(key: string, quoted: string)

  function Render(line: TemplateLine): string {
    match line
    case Comment(text) => text + "\n"
    case Blank => "\n"
    case Header(name) => name + "\n"
    case Setting(key, quoted) => "  " + key + ": " + quoted + "\n"
  }

  function RenderAll(template: seq<TemplateLine>): seq<string> {
    if template == [] then [""] else [Render(template[0])] + RenderAll(template[1..])
  }

  /** Fields of a layout as RenderConfig prints them; RestartCommand() is printed unquoted. */
  datatype Layout = Layout(restartCommand: string, configDir: string, identityPath: string,
                           dockerSocket: string, logLevel: string)

  const TITLE: string := "# DockSight Agent " + "configuration"
  const HINT: string := "# Written by \"docksight " + "agent install\". Edit and " + "restart the service:"
  const ENDPOINT: string := "  # DockSight platform " + "WebSocket endpoint for " + "agent registration"

  function Preamble(command: string): seq<TemplateLine> {
    [Comment(TITLE), Comment(HINT), Comment(command), Blank]
  }

  function AgentSection(dataDir: string, identity: string): seq<TemplateLine> {
    [Header("agent:"), Setting("data_dir", dataDir), Setting("identity_file", identity), Blank]
  }

  function ServerSection(url: string): seq<TemplateLine> {
    [Header("server:"), Comment(ENDPOINT), Setting("url", url), Blank]
  }

  function OtherSections(socket: string, level: string): seq<TemplateLine> {
    [Header("docker:"), Setting("socket", socket), Blank, Header("logging:"), Setting("level", level)]
  }

  function Template(command: string, dataDir: string, identity: string, url: string, socket: string, level: string)
    : seq<TemplateLine>
  {
    Preamble(command) + AgentSection(dataDir, identity) + ServerSection(url) + OtherSections(socket, level)
  }

  function ConfigTemplate(layout: Layout, url: string, table: char -> bool): seq<TemplateLine> {
    Template("#   " + layout.restartCommand, Quote(layout.configDir, table), Quote(layout.identityPath, table),
             Quote(url, table), Quote(layout.dockerSocket, table), Quote(layout.logLevel, table))
  }

  function RenderConfig(layout: Layout, url: string, table: char -> bool): string {
    Concat(RenderAll(ConfigTemplate(layout, url, table)))
  }

  ghost predicate AllWellFormed(template: seq<TemplateLine>) {
    forall i :: 0 <= i < |template| ==> WellFormed(template[i])
  }

  ghost predicate WellFormed(line: TemplateLine) {
    match line
    case Comment(text) => '\n' !in text && |text| > 3 && (text[0] == '#' || text[..3] == "  #")
    case Blank => true
    case Header(name) => '\n' !in name && name != "" && 'a' <= name[0] <= 'z' && name[|name| - 1] == ':'
    case Setting(key, quoted) => '\n' !in key && Quoted(quoted)
  }

  /** How the two programs classify such a line. */
  ghost predicate Fits(line: TemplateLine, kind: Line) {
    match line
    case Comment(_) => kind.Ignored?
    case Blank => kind.Ignored?
    case Header(name) => kind == Section(HasPrefix(name, "server:"))
    case Setting(key, quoted) => !kind.Section? && (key == "url" ==> kind == Key(Some(" " + quoted)))
  }

  lemma {:induction false} ContentEndAfter(s: string, i: nat)
    requires i < |s| && !IsSpace(s[i])
    ensures ContentEnd(s) > i
  {
    if IsSpace(s[|s| - 1]) {
      ContentEndAfter(s[..|s| - 1], i);
    }
  }

  lemma FirstContent(blank: string, rest: string)
    requires forall i :: 0 <= i < |blank| ==> IsSpace(blank[i])
    requires rest != "" && !IsSpace(rest[0])
    ensures TrimSpace(blank + rest) != "" && TrimSpace(blank + rest)[0] == rest[0]
  {
    SpacesBeforeIs(blank, rest);
    ContentEndAfter(blank + rest, |blank|);
  }

  lemma CommentIgnored(body: string)
    requires |body| > 2 && (body[0] == '#' || body[..3] == "  #")
    ensures Classify(body).Ignored?
  {
    if body[0] == '#' {
      FirstContent("", body);
      assert "" + body == body;
    } else {
      assert body[2] == body[..3][2];
      FirstContent("  ", body[2..]);
      assert body == "  " + body[2..];
    }
  }

  lemma CommentFits(text: string)
    requires WellFormed(Comment(text))
    ensures Terminated(text + "\n") && Classify(Body(text + "\n")).Ignored?
  {
    var raw := text + "\n";
    assert raw[..|raw| - 1] == text;
    assert Body(raw)[..3] == text[..3] && Body(raw)[0] == text[0];
    CommentIgnored(Body(raw));
  }

  lemma BodyOfLine(text: string)
    requires '\n' !in text && text != "" && text[|text| - 1] != '\r'
    ensures Terminated(text + "\n") && Body(text + "\n") == text
  {
    var raw := text + "\n";
    assert raw[..|raw| - 1] == text && raw[|raw| - 2] == text[|text| - 1];
  }

  lemma HeaderFits(name: string)
    requires WellFormed(Header(name))
    ensures Terminated(name + "\n") && Classify(Body(name + "\n")) == Section(HasPrefix(name, "server:"))
  {
    BodyOfLine(name);
    TrimIndented("", name);
    assert "" + name == name;
  }

  lemma SettingFits(key: string, quoted: string)
    requires WellFormed(Setting(key, quoted))
    ensures var raw := Render(Setting(key, quoted));
      Terminated(raw) && Fits(Setting(key, quoted), Classify(Body(raw)))
  {
    var text := "  " + key + ": " + quoted;
    assert Render(Setting(key, quoted)) == text + "\n";
    BodyOfLine(text);
    if key == "url" {
      AssignmentShape(quoted);
      assert text == "  " + ("url: " + quoted);
      TrimIndented("  ", "url: " + quoted);
      ClassifyKey(text, "url: " + quoted);
    }
  }

  lemma LineFits(line: TemplateLine)
    requires WellFormed(line)
    ensures Terminated(Render(line)) && Fits(line, Classify(Body(Render(line))))
  {
    match line {
      case Comment(text) => CommentFits(text);
      case Blank =>
      case Header(name) => HeaderFits(name);
      case Setting(key, quoted) => SettingFits(key, quoted);
    }
  }

  lemma {:induction false} TemplateFits(template: seq<TemplateLine>)
    requires AllWellFormed(template)
    ensures var lines := RenderAll(template);
      && |lines| == |template| + 1 && LineList(lines)
      && forall i :: 0 <= i < |template| ==> Fits(template[i], Kinds(lines)[i])
  {
    if template != [] {
      LineFits(template[0]);
      TemplateFits(template[1..]);
      var lines, rest := RenderAll(template), RenderAll(template[1..]);
      assert lines[1..] == rest;
      var _ := KindsCons(lines);
    }
  }

  lemma {:induction false} SkipLines(kinds: seq<Line>, from: nat, to: nat, inServer: bool)
    requires from <= to <= |kinds|
    requires forall i :: from <= i < to ==> !kinds[i].Section? && !(inServer && kinds[i].Key?)
    ensures UrlLine(kinds[from..], inServer) == Shift(UrlLine(kinds[to..], inServer), to - from)
    decreases |kinds| - from
  {
    if from < to {
      UrlLineStep(kinds, from, inServer);
      SkipLines(kinds, from + 1, to, inServer);
    }
  }

  /** Where the scan of a generated file stops. */
  lemma TemplateScanned(kinds: seq<Line>)
    requires |kinds| > 10 && (forall i :: 0 <= i < 4 || 5 <= i < 8 ==> !kinds[i].Section?)
    requires kinds[4] == Section(false) && kinds[8] == Section(true) && kinds[9].Ignored?
    requires kinds[10].Key? && kinds[10].url.Some?
    ensures UrlLine(kinds, false) == Some(10)
  {
    hide UrlLine;
    assert kinds[0..] == kinds;
    SkipLines(kinds, 0, 4, false);
    UrlLineStep(kinds, 4, false);
    SkipLines(kinds, 5, 8, false);
    UrlLineStep(kinds, 8, false);
    SkipLines(kinds, 9, 10, true);
    UrlLineStep(kinds, 10, true);
  }

  lemma TemplateRead(template: seq<TemplateLine>, quoted: string)
    requires |template| > 10 && AllWellFormed(template)
    requires forall i :: 0 <= i < 4 || 5 <= i < 8 ==> !template[i].Header?
    requires template[4].Header? && !HasPrefix(template[4].name, "server:")
    requires template[8].Header? && HasPrefix(template[8].name, "server:")
    requires template[9].Comment? && template[10] == Setting("url", quoted)
    ensures ServerUrlOf(Concat(RenderAll(template))) == Some(UrlValue(" " + quoted))
  {
    TemplateFits(template);
    SplitJoined(RenderAll(template));
    TemplateScanned(Kinds(RenderAll(template)));
  }

  lemma TitleText()
    ensures WellFormed(Comment(TITLE))
  {
    var a, b := "# DockSight Agent ", "configuration";
    assert '\n' !in a && '\n' !in b;
    assert TITLE == a + b;
  }

  lemma FourWellFormed(a: TemplateLine, b: TemplateLine, c: TemplateLine, d: TemplateLine)
    requires WellFormed(a) && WellFormed(b) && WellFormed(c) && WellFormed(d)
    ensures AllWellFormed([a, b, c, d])
  {
    hide WellFormed;
  }

  lemma PreambleWellFormed(command: string)
    requires WellFormed(Comment(command))
    ensures AllWellFormed(Preamble(command))
  {
    TitleText();
    HintText();
    FourWellFormed(Comment(TITLE), Comment(HINT), Comment(command), Blank);
  }

  lemma ServerSectionWellFormed(url: string)
    requires Quoted(url)
    ensures AllWellFormed(ServerSection(url))
  {
    EndpointText();
    FourWellFormed(Header("server:"), Comment(ENDPOINT), Setting("url", url), Blank);
  }

  lemma OtherSectionsWellFormed(dataDir: string, identity: string, socket: string, level: string)
    requires Quoted(dataDir) && Quoted(identity) && Quoted(socket) && Quoted(level)
    ensures AllWellFormed(AgentSection(dataDir, identity)) && AllWellFormed(OtherSections(socket, level))
  {}

  lemma SectionsRead(a: seq<TemplateLine>, b: seq<TemplateLine>, c: seq<TemplateLine>, d: seq<TemplateLine>, quoted: string)
    requires |a| == 4 && |b| == 4 && |c| == 4
    requires AllWellFormed(a) && AllWellFormed(b) && AllWellFormed(c) && AllWellFormed(d)
    requires forall i :: 0 <= i < 4 ==> !a[i].Header? && (i > 0 ==> !b[i].Header?)
    requires b[0].Header? && !HasPrefix(b[0].name, "server:")
    requires c[0].Header? && HasPrefix(c[0].name, "server:") && c[1].Comment? && c[2] == Setting("url", quoted)
    ensures ServerUrlOf(Concat(RenderAll(a + b + c + d))) == Some(UrlValue(" " + quoted))
  {
    hide WellFormed, RenderAll, Concat, ServerUrlOf, UrlValue, HasPrefix;
    var t := a + b + c + d;
    assert forall i :: 0 <= i < 4 ==> t[i] == a[i] && t[4 + i] == b[i] && t[8 + i] == c[i];
    TemplateRead(t, quoted);
  }

  lemma FilledTemplateRead(command: string, dataDir: string, identity: string, url: string, socket: string, level: string)
    requires WellFormed(Comment(command))
    requires Quoted(dataDir) && Quoted(identity) && Quoted(url) && Quoted(socket) && Quoted(level)
    ensures ServerUrlOf(Concat(RenderAll(Template(command, dataDir, identity, url, socket, level))))
         == Some(UrlValue(" " + url))
  {
    PreambleWellFormed(command);
    ServerSectionWellFormed(url);
    OtherSectionsWellFormed(dataDir, identity, socket, level);
    hide WellFormed, AllWellFormed, Quoted, RenderAll, Concat, ServerUrlOf, UrlValue;
    SectionsRead(Preamble(command), AgentSection(dataDir, identity), ServerSection(url), OtherSections(socket, level), url);
  }

  lemma HintText()
    ensures WellFormed(Comment(HINT))
  {
    var a, b, c := "# Written by \"docksight ", "agent install\". Edit and ", "restart the service:";
    assert '\n' !in a && '\n' !in b && '\n' !in c;
    assert HINT == a + b + c;
  }

  lemma EndpointText()
    ensures WellFormed(Comment(ENDPOINT))
  {
    var a, b, c := "  # DockSight platform ", "WebSocket endpoint for ", "agent registration";
    assert '\n' !in a && '\n' !in b && '\n' !in c;
    assert ENDPOINT == a + b + c && (a + b + c)[..3] == a[..3];
  }

  /** In a generated file the reader finds the URL it was generated for, exactly when it is plain. */
  lemma RenderedConfigRead(layout: Layout, url: string, table: char -> bool)
    requires '\n' !in layout.restartCommand
    ensures ServerUrlOf(RenderConfig(layout, url, table)) == Some(url) <==> Plain(url, table)
  {
    QuoteIsQuoted(url, table);
    QuoteIsQuoted(layout.configDir, table);
    QuoteIsQuoted(layout.identityPath, table);
    QuoteIsQuoted(layout.dockerSocket, table);
    QuoteIsQuoted(layout.logLevel, table);
    FilledTemplateRead("#   " + layout.restartCommand, Quote(layout.configDir, table), Quote(layout.identityPath, table),
                       Quote(url, table), Quote(layout.dockerSocket, table), Quote(layout.logLevel, table));
    QuotedValue(url, table);
    QuoteReadsBack(url, table);
  }

  // ---------- in any file ----------

  ghost predicate Blanks(s: string) { forall i :: 0 <= i < |s| ==> s[i] == ' ' || s[i] == '\t' || s[i] == '\r' }

  /** Text of one line whose ends are visible, or nothing. */
  ghost predicate OneLine(s: string) {
    '\n' !in s && (s != "" ==> '!' <= s[0] <= '~' && '!' <= s[|s| - 1] <= '~')
  }

  lemma {:induction false} TrimTail(s: string, after: string)
    requires Blanks(after)
    ensures TrimSpace(s + after) == TrimSpace(s)
  {
    hide TrimSpace;
    if after == "" {
      assert s + after == s;
    } else {
      var n := |after| - 1;
      TrimTail(s, after[..n]);
      TrimSpaceSuffix(s + after[..n], after[n]);
      assert s + after == s + after[..n] + [after[n]];
    }
  }

  lemma TrimAround(before: string, s: string, after: string)
    requires Blanks(before) && OneLine(s) && Blanks(after)
    ensures TrimSpace(before + s + after) == s
  {
    TrimTail(before + s, after);
    if s == "" {
      TrimTail("", before);
      assert before + s == "" + before;
    } else {
      TrimIndented(before, s);
    }
  }

  lemma BodyOf(text: string, ending: string)
    requires '\n' !in text && ending in {"", "\n", "\r\n"}
    ensures var body := Body(text + ending);
      body == text || (text != "" && text[|text| - 1] == '\r' && body == text[..|text| - 1])
  {
    var raw := text + ending;
    if ending != "" {
      assert raw[|raw| - 1] == '\n' && raw[..|text|] == text;
    } else if raw != "" {
      assert raw[|raw| - 1] in text;
    }
  }

  /** How both programs take a line: what it begins with, and whether it begins in column zero, is what counts. */
  lemma LineRead(blank: string, text: string, after: string, ending: string)
    requires Blanks(blank) && OneLine(text) && Blanks(after) && ending in {"", "\n", "\r\n"}
    ensures Classify(Body(blank + text + after + ending)) ==
      if text == "" || text[0] == '#' then Ignored
      else if blank != "" && (blank[0] == ' ' || blank[0] == '\t')
      then Key(if |text| >= 4 && text[..4] == "url:" then Some(text[4..]) else None)
      else Section(|text| >= 7 && text[..7] == "server:")
  {
    var line := blank + text + after;
    hide TrimSpace, Body;
    TrimAround(blank, text, after);
    BodyOf(line, ending);
    var body := Body(line + ending);
    if body != line {
      TrimTail(body, "\r");
      assert line == body + "\r";
    }
    assert TrimSpace(body) == text;
    if text != "" {
      EmptyTrim(body);
      assert body[0] == line[0] && line[0] == if blank != "" then blank[0] else text[0];
    }
  }

  lemma EmptyTrim(s: string)
    requires TrimSpace(s) != ""
    ensures s != ""
  {}

  /** Of what stands behind the key, the blanks and then the quotes around it are not part of the URL. */
  lemma ValueRead(before: string, opening: string, url: string, closing: string)
    requires Blanks(before) && OneLine(url) && url != ""
    requires url[0] != '"' && url[0] != '\'' && url[|url| - 1] != '"' && url[|url| - 1] != '\''
    requires Quotes(opening) && Quotes(closing)
    ensures UrlValue(before + (opening + url + closing)) == url
  {
    hide TrimSpace, OneLine, TrimQuotes, IsQuote;
    var value := opening + url + closing;
    QuotedLine(opening, url, closing);
    QuotesAround(opening, url, closing);
    TrimBefore(before, value);
  }

  lemma TrimBefore(before: string, s: string)
    requires Blanks(before) && OneLine(s)
    ensures TrimSpace(before + s) == s
  {
    hide TrimSpace, OneLine;
    TrimAround(before, s, "");
    assert before + s + "" == before + s;
  }

  ghost predicate Quotes(s: string) { forall i :: 0 <= i < |s| ==> s[i] == '"' || s[i] == '\'' }

  lemma QuotesAround(opening: string, url: string, closing: string)
    requires url != "" && url[0] != '"' && url[0] != '\'' && url[|url| - 1] != '"' && url[|url| - 1] != '\''
    requires Quotes(opening) && Quotes(closing)
    ensures TrimQuotes(opening + url + closing) == url
  {
    hide TrimQuotes, IsQuote, Quotes;
    QuotesBefore(opening, url + closing);
    QuotesAfter(url, closing);
    assert opening + url + closing == opening + (url + closing);
  }

  lemma QuotedLine(opening: string, url: string, closing: string)
    requires OneLine(url) && url != ""
    requires Quotes(opening) && Quotes(closing)
    ensures OneLine(opening + url + closing)
  {
    var value := opening + url + closing;
    forall i | 0 <= i < |value| ensures value[i] != '\n' {
      assert value[i] == if i < |opening| then opening[i] else if i < |opening + url| then url[i - |opening|]
                         else closing[i - |opening + url|];
    }
  }

  lemma {:induction false} QuotesBefore(opening: string, s: string)
    requires Quotes(opening)
    ensures TrimQuotes(opening + s) == TrimQuotes(s)
  {
    if opening == "" {
      assert opening + s == s;
    } else {
      assert (opening + s)[1..] == opening[1..] + s;
      QuotesBefore(opening[1..], s);
    }
  }

  lemma {:induction false} QuotesAfter(url: string, closing: string)
    requires url != "" && url[0] != '"' && url[0] != '\'' && url[|url| - 1] != '"' && url[|url| - 1] != '\''
    requires Quotes(closing)
    ensures TrimQuotes(url + closing) == url
  {
    if closing == "" {
      assert url + closing == url;
    } else {
      var n, t := |closing| - 1, url + closing;
      assert t[..|t| - 1] == url + closing[..n] && t[|t| - 1] == closing[n];
      QuotesAfter(url, closing[..n]);
    }
  }

  /** The last section that begins before line `i` is the server's. */
  ghost predicate InServer(kinds: seq<Line>, i: nat) {
    exists h :: 0 <= h < i && h < |kinds| && kinds[h] == Section(true) && forall j :: h < j < i && j < |kinds| ==> !kinds[j].Section?
  }

  ghost predicate UrlAt(kinds: seq<Line>, i: nat) {
    i < |kinds| && kinds[i].Key? && kinds[i].url.Some? && InServer(kinds, i)
  }

  lemma ServerStep(kinds: seq<Line>, n: nat)
    requires n < |kinds|
    ensures InServer(kinds, n + 1) <==> if kinds[n].Section? then kinds[n].server else InServer(kinds, n)
  {
    if kinds[n] == Section(true) {
      assert kinds[n] == Section(true);
    } else if !kinds[n].Section? && InServer(kinds, n) {
      var h :| 0 <= h < n && kinds[h] == Section(true) && forall j :: h < j < n ==> !kinds[j].Section?;
      assert kinds[h] == Section(true);
    }
  }

  lemma {:induction false} FirstUrlFrom(kinds: seq<Line>, n: nat, inServer: bool)
    requires n <= |kinds| && (inServer <==> InServer(kinds, n)) && forall j :: 0 <= j < n ==> !UrlAt(kinds, j)
    ensures match UrlLine(kinds[n..], inServer)
      case Some(k) => UrlAt(kinds, n + k) && forall j :: 0 <= j < n + k ==> !UrlAt(kinds, j)
      case None => forall j :: 0 <= j < |kinds| ==> !UrlAt(kinds, j)
    decreases |kinds| - n
  {
    hide InServer, UrlAt;
    if n < |kinds| {
      UrlLineStep(kinds, n, inServer);
      ServerStep(kinds, n);
      UrlAtIff(kinds, n);
      hide UrlLine;
      if !UrlAt(kinds, n) {
        FirstUrlFrom(kinds, n + 1, if kinds[n].Section? then kinds[n].server else inServer);
      }
    }
  }

  lemma UrlAtIff(kinds: seq<Line>, n: nat)
    requires n < |kinds|
    ensures UrlAt(kinds, n) <==> kinds[n].Key? && kinds[n].url.Some? && InServer(kinds, n)
  {}

  ghost predicate HasUrl(kinds: seq<Line>) { exists i: nat :: UrlAt(kinds, i) }

  /** Both programs take the first `url` key of a server section, and there is something to take exactly when
      there is such a key. */
  lemma FirstUrlTaken(content: string, i: nat)
    ensures var kinds := Kinds(SplitAfterLF(content));
      && (ServerUrlOf(content).Some? <==> HasUrl(kinds))
      && (UrlAt(kinds, i) && (forall j: nat :: j < i ==> !UrlAt(kinds, j)) ==>
            ServerUrlOf(content) == Some(UrlValue(kinds[i].url.value)) && UrlLine(kinds, false) == Some(i))
  {
    var kinds := Kinds(SplitAfterLF(content));
    FirstUrl(kinds);
    hide InServer, UrlValue, UrlLine;
    match UrlLine(kinds, false) {
      case Some(k) =>
        assert UrlAt(kinds, k);
        assert k < i || i < k || k == i;
      case None =>
        assert ServerUrlOf(content).None?;
        assert forall j: nat :: !UrlAt(kinds, j);
    }
  }

  lemma UrlAtInside(kinds: seq<Line>)
    ensures forall j: nat :: UrlAt(kinds, j) ==> j < |kinds|
  {}

  lemma FirstUrl(kinds: seq<Line>)
    ensures match UrlLine(kinds, false)
      case Some(k) => UrlAt(kinds, k) && forall j: nat :: j < k ==> !UrlAt(kinds, j)
      case None => forall j: nat :: !UrlAt(kinds, j)
  {
    UrlAtInside(kinds);
    assert kinds[0..] == kinds && !InServer(kinds, 0);
    hide InServer, UrlAt, UrlLine;
    FirstUrlFrom(kinds, 0, false);
    var found := UrlLine(kinds, false);
    assert found.Some? ==> 0 + found.value == found.value;
  }

  // ---------- what a quoted text means ----------

  ghost predicate HexDigits(s: string) { forall i :: 0 <= i < |s| ==> '0' <= s[i] <= '9' || 'a' <= s[i] <= 'f' }

  ghost function HexValue(s: string): nat
    requires HexDigits(s)
  {
    if s == "" then 0
    else
      var last := s[|s| - 1];
      16 * HexValue(s[..|s| - 1]) + if last <= '9' then last as nat - '0' as nat else last as nat - 'a' as nat + 10
  }

  ghost predicate Scalar(n: nat) { n < 0xD800 || 0xE000 <= n < 0x11_0000 }

  /** What one letter behind a backslash stands for. */
  ghost function OneLetter(letter: char): Option<char> {
    match letter
    case 'a' => Some('\U{07}') case 'b' => Some('\U{08}') case 't' => Some('\U{09}') case 'n' => Some('\U{0A}')
    case 'v' => Some('\U{0B}') case 'f' => Some('\U{0C}') case 'r' => Some('\U{0D}')
    case '"' => Some('"') case '\\' => Some('\\') case _ => None
  }

  /** How many digits of a character's number follow. */
  ghost function DigitsAfter(letter: char): nat {
    match letter case 'x' => 2 case 'u' => 4 case 'U' => 8 case _ => 0
  }

  /** What the characters between double quotes stand for, in Go as in YAML; None if they are no such text. */
  ghost function Meaning(s: string): Option<string>
    decreases |s|, 1
  {
    if s == "" then Some("")
    else if s[0] == '"' then None
    else if s[0] != '\\' then Before(s[0], Meaning(s[1..]))
    else if |s| < 2 then None
    else if OneLetter(s[1]).Some? then Before(OneLetter(s[1]).value, Meaning(s[2..]))
    else if DigitsAfter(s[1]) > 0 then Numbered(s, DigitsAfter(s[1]))
    else None
  }

  /** A character given by its number, in so many digits. */
  ghost function Numbered(s: string, digits: nat): Option<string>
    requires |s| >= 2
    decreases |s|, 0
  {
    if |s| >= 2 + digits && HexDigits(s[2..2 + digits]) && Scalar(HexValue(s[2..2 + digits]))
    then Before(HexValue(s[2..2 + digits]) as char, Meaning(s[2 + digits..])) else None
  }

  ghost function Before(c: char, rest: Option<string>): Option<string> {
    match rest case None => None case Some(t) => Some([c] + t)
  }

  ghost function Sixteens(digits: nat): nat { if digits == 0 then 1 else 16 * Sixteens(digits - 1) }

  lemma {:induction false} HexReads(n: nat, digits: nat)
    requires n < Sixteens(digits)
    ensures HexDigits(Hex(n, digits)) && HexValue(Hex(n, digits)) == n
  {
    if digits > 0 {
      HexReads(n / 16, digits - 1);
      OneMoreDigit(Hex(n / 16, digits - 1), n / 16, n % 16);
    }
  }

  lemma OneMoreDigit(h: string, high: nat, low: nat)
    requires low < 16 && HexDigits(h) && HexValue(h) == high
    ensures HexDigits(h + [HEX[low]]) && HexValue(h + [HEX[low]]) == 16 * high + low
  {
    DigitRead(low);
    hide HexDigits;
    var t := h + [HEX[low]];
    assert t[..|t| - 1] == h && t[|t| - 1] == HEX[low];
    assert HexDigits(t) by { AllDigits(h, HEX[low]); }
  }

  lemma AllDigits(h: string, c: char)
    requires HexDigits(h) && ('0' <= c <= '9' || 'a' <= c <= 'f')
    ensures HexDigits(h + [c])
  {}

  lemma DigitRead(low: nat)
    requires low < 16
    ensures var c := HEX[low];
      if c <= '9' then '0' <= c && low == c as nat - '0' as nat else 'a' <= c <= 'f' && low == c as nat - 'a' as nat + 10
  {}

  lemma NumberedReads(letter: char, n: nat, rest: string)
    requires var digits := DigitsAfter(letter); digits > 0 && n < Sixteens(digits) && Scalar(n)
    ensures Meaning(['\\', letter] + Hex(n, DigitsAfter(letter)) + rest) == Before(n as char, Meaning(rest))
  {
    var digits := DigitsAfter(letter);
    assert OneLetter(letter).None?;
    HexReads(n, digits);
    hide Hex, HexValue, HexDigits, OneLetter, DigitsAfter, Sixteens;
    var s := ['\\', letter] + Hex(n, digits) + rest;
    assert s[0] == '\\' && s[1] == letter && s[2..2 + digits] == Hex(n, digits) && s[2 + digits..] == rest;
  }

  lemma LetterReads(letter: char, rest: string)
    requires OneLetter(letter).Some?
    ensures Meaning(['\\', letter] + rest) == Before(OneLetter(letter).value, Meaning(rest))
  {
    var s := ['\\', letter] + rest;
    assert s[0] == '\\' && s[1] == letter && s[2..] == rest;
  }

  lemma PlainReads(c: char, rest: string)
    requires c != '"' && c != '\\'
    ensures Meaning([c] + rest) == Before(c, Meaning(rest))
  {
    assert ([c] + rest)[1..] == rest;
  }

  /** The letter that a character is escaped with. */
  lemma EscapeShape(c: char, table: char -> bool) returns (letter: char)
    requires !Unescaped(c, table)
    ensures (Escape(c, table) == ['\\', letter] && OneLetter(letter) == Some(c))
      || (DigitsAfter(letter) > 0 && c as nat < Sixteens(DigitsAfter(letter)) && Scalar(c as nat)
          && Escape(c, table) == ['\\', letter] + Hex(c as nat, DigitsAfter(letter)))
  {
    SixteensAre();
    hide Hex, Sixteens;
    letter := Escape(c, table)[1];
  }

  lemma EscapeMeans(c: char, rest: string, table: char -> bool)
    ensures Meaning(Escape(c, table) + rest) == Before(c, Meaning(rest))
  {
    if Unescaped(c, table) {
      PlainReads(c, rest);
    } else {
      var letter := EscapeShape(c, table);
      hide Meaning, Hex, Escape, OneLetter, DigitsAfter, Sixteens;
      if Escape(c, table) == ['\\', letter] && OneLetter(letter) == Some(c) {
        LetterReads(letter, rest);
      } else {
        NumberedReads(letter, c as nat, rest);
      }
    }
  }

  lemma SixteensAre()
    ensures Sixteens(2) == 256 && Sixteens(4) == 65536 && Sixteens(8) == 0x1_0000_0000
  {
    assert Sixteens(1) == 16 && Sixteens(3) == 4096 && Sixteens(5) == 1048576 && Sixteens(6) == 16777216;
  }

  /** Whatever the URL holds, what is written for it means that URL to whoever reads double-quoted text. */
  lemma {:induction false} QuoteMeans(url: string, table: char -> bool)
    ensures Meaning(EscapeAll(url, table)) == Some(url)
    ensures Quote(url, table) == "\"" + EscapeAll(url, table) + "\""
  {
    hide Meaning, Escape;
    if url == "" {
      EmptyMeans();
    } else {
      QuoteMeans(url[1..], table);
      EscapeMeans(url[0], EscapeAll(url[1..], table), table);
      assert url == [url[0]] + url[1..];
    }
  }

  lemma EmptyMeans()
    ensures Meaning("") == Some("")
  {}

  /** What quoting leaves alone: in ASCII whatever is visible, and the space, but for the two that need a backslash. */
  lemma UnescapedIs(c: char, table: char -> bool)
    ensures Unescaped(c, table) <==> if c < '\U{80}' then ' ' <= c <= '~' && c != '"' && c != '\\' else table(c)
  {}

  /** White space is what Unicode says it is. */
  lemma SpacesAre(c: char)
    ensures IsSpace(c) <==> c in "\t\n\U{0B}\U{0C}\r \U{85}\U{A0}\U{1680}\U{2028}\U{2029}\U{202F}\U{205F}\U{3000}"
                               + "\U{2000}\U{2001}\U{2002}\U{2003}\U{2004}\U{2005}\U{2006}\U{2007}\U{2008}\U{2009}\U{200A}"
  {}
}
