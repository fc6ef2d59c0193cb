/** NormalizeServerURL of apps/cli/cmd/internal/agent/install/config.go: what the commands make of the URL that
    was typed, before it is written. */
module PlatformUrl {
  import opened Prelude
  import opened ServerUrl

  /** The parts of net/url's URL that are used; parsing itself is abstract. */
  datatype ParsedUrl = ParsedUrl(scheme: string, host: string, path: string)

  type UrlParser = string -> Option<ParsedUrl>

  const ENDPOINT_NAME: string := "agents"

  predicate Contains(s: string, part: string) {
    HasPrefix(s, part) || (s != "" && Contains(s[1..], part))
  }

  predicate HasSuffix(s: string, suffix: string) {
    |suffix| <= |s| && s[|s| - |suffix|..] == suffix
  }

  function Lower(s: string): string {
    if s == "" then ""
    else [if 'A' <= s[0] <= 'Z' then s[0] - 'A' + 'a' else s[0]] + Lower(s[1..])
  }

  function WebsocketScheme(scheme: string): Option<string> {
    var lower := Lower(scheme);
    if lower == "https" || lower == "wss" then Some("wss")
    else if lower == "http" || lower == "ws" then Some("ws")
    else None
  }

  // ---------- path.Clean, of rooted paths ----------

  /** strings.Trim(s, "/"). */
  function TrimSlashes(s: string): string {
    if s == "" then ""
    else if s[0] == '/' then TrimSlashes(s[1..])
    else if s[|s| - 1] == '/' then TrimSlashes(s[..|s| - 1])
    else s
  }

  function Segments(path: string): (segments: seq<string>)
    ensures segments != []
  {
    if path == "" then [""]
    else
      var rest := Segments(path[1..]);
      if path[0] == '/' then [""] + rest else [[path[0]] + rest[0]] + rest[1..]
  }

  /** Empty segments and dots go, and two dots take the segment before them along. */
  function Resolved(segments: seq<string>): seq<string> {
    if segments == [] then []
    else
      var before, last := Resolved(segments[..|segments| - 1]), segments[|segments| - 1];
      if last == "" || last == "." then before
      else if last == ".." then (if before == [] then [] else before[..|before| - 1])
      else before + [last]
  }

  function Joined(segments: seq<string>): string {
    if segments == [] then "" else Joined(segments[..|segments| - 1]) + "/" + segments[|segments| - 1]
  }

  function Clean(path: string): string {
    var joined := Joined(Resolved(Segments(path)));
    if joined == "" then "/" else joined
  }

  /** The path with the endpoint at its end, once. */
  function EndpointPath(path: string): string {
    var cleaned := Clean("/" + TrimSlashes(path));
    var prefix := if cleaned == "/" then "" else cleaned;
    if HasSuffix(prefix, "/" + ENDPOINT_NAME) then prefix else Clean(prefix + "/" + ENDPOINT_NAME)
  }

  // ---------- the URL's own String ----------

  predicate Unreserved(c: char) {
    'a' <= c <= 'z' || 'A' <= c <= 'Z' || '0' <= c <= '9' || c == '-' || c == '_' || c == '.' || c == '~'
  }

  predicate KeptInPath(c: char) {
    Unreserved(c) || c in {'$', '&', '+', ',', '/', ':', ';', '=', '@'}
  }

  predicate KeptInHost(c: char) {
    Unreserved(c) || c in {'!', '$', '&', '\'', '(', ')', '*', '+', ',', ';', '=', ':', '[', ']', '<', '>', '"'}
  }

  type Encoder = char -> string

  /** Percent-encoding, whatever the bytes of a character are. */
  ghost predicate PercentEncodes(encode: Encoder) {
    forall c: char :: encode(c) != "" && forall i :: 0 <= i < |encode(c)| ==> HexOrPercent(encode(c)[i])
  }

  ghost predicate HexOrPercent(c: char) { c == '%' || '0' <= c <= '9' || 'A' <= c <= 'F' }

  function EscapedPath(s: string, encode: Encoder): string {
    if s == "" then "" else (if KeptInPath(s[0]) then [s[0]] else encode(s[0])) + EscapedPath(s[1..], encode)
  }

  function EscapedHost(s: string, encode: Encoder): string {
    if s == "" then "" else (if KeptInHost(s[0]) then [s[0]] else encode(s[0])) + EscapedHost(s[1..], encode)
  }

  function Written(scheme: string, host: string, path: string, encode: Encoder): string {
    scheme + "://" + EscapedHost(host, encode) + EscapedPath(path, encode)
  }

  /** A bare host gets the secure scheme. */
  function Typed(raw: string): string {
    var trimmed := TrimSpace(raw);
    if Contains(trimmed, "://") then trimmed else "https://" + trimmed
  }

  /** None where the command fails. */
  function NormaliseServerURL(raw: string, parse: UrlParser, encode: Encoder): Option<string> {
    if TrimSpace(raw) == "" then None
    else match parse(Typed(raw)) case None => None case Some(u) => Assembled(u, encode)
  }

  function Assembled(u: ParsedUrl, encode: Encoder): Option<string> {
    match WebsocketScheme(u.scheme)
    case None => None
    case Some(scheme) => if u.host == "" then None else Some(Written(scheme, u.host, EndpointPath(u.path), encode))
  }

  // ---------- how it begins and ends ----------

  ghost predicate NoSlash(s: string) { '/' !in s }

  lemma {:induction false} SegmentsAppend(path: string, name: string)
    requires NoSlash(name)
    ensures Segments(path + "/" + name) == Segments(path) + [name]
  {
    var s := path + "/" + name;
    if path == "" {
      assert s[1..] == name;
      OneSegment(name);
    } else {
      assert s[1..] == path[1..] + "/" + name && s[0] == path[0];
      SegmentsAppend(path[1..], name);
    }
  }

  lemma {:induction false} OneSegment(name: string)
    requires NoSlash(name)
    ensures Segments(name) == [name]
  {
    if name != "" {
      assert name[0] in name && name == [name[0]] + name[1..];
      OneSegment(name[1..]);
    }
  }

  /** Joining the endpoint to a path puts it at the end, as a segment of its own. */
  lemma CleanEndsWith(path: string, name: string)
    requires NoSlash(name) && name != "" && name != "." && name != ".."
    ensures HasSuffix(Clean(path + "/" + name), "/" + name)
  {
    SegmentsAppend(path, name);
    var segments := Segments(path) + [name];
    assert segments[..|segments| - 1] == Segments(path);
    var resolved := Resolved(Segments(path)) + [name];
    assert Resolved(segments) == resolved;
    assert resolved[..|resolved| - 1] == Resolved(Segments(path));
    assert Joined(resolved) == Joined(Resolved(Segments(path))) + ("/" + name);
  }

  lemma EndpointAtEnd(path: string)
    ensures HasSuffix(EndpointPath(path), "/" + ENDPOINT_NAME)
  {
    hide Clean, TrimSlashes;
    var cleaned := Clean("/" + TrimSlashes(path));
    var name := ENDPOINT_NAME;
    assert NoSlash(name) && name != "" && name != "." && name != "..";
    CleanEndsWith(if cleaned == "/" then "" else cleaned, name);
  }

  lemma {:induction false} EscapedPathEnd(s: string, encode: Encoder)
    requires s != "" && KeptInPath(s[|s| - 1])
    ensures EscapedPath(s, encode) != "" && Last(EscapedPath(s, encode)) == Last(s)
  {
    var first, rest := if KeptInPath(s[0]) then [s[0]] else encode(s[0]), EscapedPath(s[1..], encode);
    if |s| == 1 {
      assert s[1..] == "" && first + rest == first;
    } else {
      EscapedPathEnd(s[1..], encode);
      assert Last(first + rest) == Last(rest);
    }
  }

  // ---------- reading it back ----------

  ghost predicate AllUnescaped(s: string, table: char -> bool) {
    forall i :: 0 <= i < |s| ==> Unescaped(s[i], table)
  }

  lemma UnescapedAppend(a: string, b: string, table: char -> bool)
    ensures AllUnescaped(a + b, table) <==> AllUnescaped(a, table) && AllUnescaped(b, table)
  {
    var s := a + b;
    assert forall i :: 0 <= i < |a| ==> s[i] == a[i];
    assert forall i :: 0 <= i < |b| ==> s[|a| + i] == b[i];
    if AllUnescaped(a, table) && AllUnescaped(b, table) {
      forall i | 0 <= i < |s| ensures Unescaped(s[i], table) {
        assert s[i] == if i < |a| then a[i] else b[i - |a|];
      }
    }
  }

  lemma {:induction false} PathUnescaped(s: string, encode: Encoder, table: char -> bool)
    requires PercentEncodes(encode)
    ensures AllUnescaped(EscapedPath(s, encode), table)
  {
    if s != "" {
      PathUnescaped(s[1..], encode, table);
      UnescapedAppend(if KeptInPath(s[0]) then [s[0]] else encode(s[0]), EscapedPath(s[1..], encode), table);
    }
  }

  /** Of all that a host may keep, quoting escapes only the double quote. */
  lemma {:induction false} HostUnescaped(s: string, encode: Encoder, table: char -> bool)
    requires PercentEncodes(encode)
    ensures AllUnescaped(EscapedHost(s, encode), table) <==> '"' !in s
  {
    if s != "" {
      var first := if KeptInHost(s[0]) then [s[0]] else encode(s[0]);
      HostUnescaped(s[1..], encode, table);
      UnescapedAppend(first, EscapedHost(s[1..], encode), table);
      assert s == [s[0]] + s[1..];
      if s[0] == '"' {
        assert !Unescaped(first[0], table);
      } else {
        assert AllUnescaped(first, table);
      }
    }
  }

  /** What is written for the parts of a URL, and when quoting leaves it alone. */
  lemma WrittenShape(scheme: string, host: string, path: string, encode: Encoder, table: char -> bool)
    requires PercentEncodes(encode) && scheme in {"ws", "wss"} && path != "" && path[|path| - 1] == 's'
    ensures var url := Written(scheme, host, path, encode);
      && url != "" && url[0] == 'w' && url[|url| - 1] == 's'
      && (AllUnescaped(url, table) <==> '"' !in host)
  {
    var head := scheme + "://";
    assert AllUnescaped(head, table);
    EscapedPathEnd(path, encode);
    PathUnescaped(path, encode, table);
    HostUnescaped(host, encode, table);
    hide AllUnescaped, EscapedHost, EscapedPath;
    UnescapedAppend(head, EscapedHost(host, encode), table);
    UnescapedAppend(head + EscapedHost(host, encode), EscapedPath(path, encode), table);
    assert (head + EscapedHost(host, encode))[0] == 'w';
  }

  lemma SchemeIsWebsocket(scheme: string)
    requires WebsocketScheme(scheme).Some?
    ensures WebsocketScheme(scheme).value in {"ws", "wss"}
  {}

  lemma EndpointLetter(path: string)
    ensures EndpointPath(path) != "" && EndpointPath(path)[|EndpointPath(path)| - 1] == 's'
  {
    EndpointAtEnd(path);
    hide EndpointPath;
    var p, suffix := EndpointPath(path), "/" + ENDPOINT_NAME;
    assert p[|p| - |suffix|..][|suffix| - 1] == suffix[|suffix| - 1] == 's';
  }

  lemma PlainIs(url: string, table: char -> bool)
    requires url != "" && url[0] == 'w' && url[|url| - 1] == 's'
    ensures Plain(url, table) <==> AllUnescaped(url, table)
  {}

  /** A URL that the commands write reads back exactly when there is no double quote in its host: whatever else
      was typed, quoting leaves it alone and no apostrophe stands at either end. */
  lemma NormalisedReadsBack(content: string, raw: string, parse: UrlParser, encode: Encoder, table: char -> bool)
    requires PercentEncodes(encode) && NormaliseServerURL(raw, parse, encode).Some?
    requires Replaced(content, NormaliseServerURL(raw, parse, encode).value, table).Some?
    ensures var url := NormaliseServerURL(raw, parse, encode).value;
      ServerUrlOf(Replaced(content, url, table).value) == Some(url) <==> '"' !in parse(Typed(raw)).value.host
  {
    hide Written, EndpointPath, WebsocketScheme, Typed, Plain, AllUnescaped, Replaced, ServerUrlOf, PercentEncodes, TrimSpace;
    var u, url := parse(Typed(raw)).value, NormaliseServerURL(raw, parse, encode).value;
    var scheme, path := WebsocketScheme(u.scheme).value, EndpointPath(u.path);
    SchemeIsWebsocket(u.scheme);
    EndpointLetter(u.path);
    WrittenShape(scheme, u.host, path, encode, table);
    PlainIs(url, table);
    PutGet(content, url, table);
  }

  // ---------- what is kept of what was typed ----------

  lemma {:induction false} ContainsAt(s: string, part: string, i: nat)
    requires i + |part| <= |s| && s[i..i + |part|] == part
    ensures Contains(s, part)
  {
    if i == 0 {
      assert s[..|part|] == s[0..|part|];
    } else {
      assert s[1..][i - 1..i - 1 + |part|] == s[i..i + |part|];
      ContainsAt(s[1..], part, i - 1);
    }
  }

  lemma {:induction false} ContainsFound(s: string, part: string) returns (i: nat)
    requires Contains(s, part)
    ensures i + |part| <= |s| && s[i..i + |part|] == part
  {
    if HasPrefix(s, part) {
      i := 0;
    } else {
      var k := ContainsFound(s[1..], part);
      i := k + 1;
      assert s[1..][k..k + |part|] == s[i..i + |part|];
    }
  }

  lemma {:induction false} LowerIs(s: string)
    ensures |Lower(s)| == |s|
    ensures forall i :: 0 <= i < |s| ==> Lower(s)[i] == if 'A' <= s[i] <= 'Z' then s[i] - 'A' + 'a' else s[i]
  {
    if s != "" {
      LowerIs(s[1..]);
    }
  }

  /** A segment of a path as it is meant: not empty, no dots, and no slash in it. */
  ghost predicate Plainly(segment: string) {
    segment != "" && segment != "." && segment != ".." && NoSlash(segment)
  }

  ghost predicate AllPlainly(segments: seq<string>) { forall i :: 0 <= i < |segments| ==> Plainly(segments[i]) }

  lemma {:induction false} JoinedSegments(segments: seq<string>)
    requires AllPlainly(segments)
    ensures Segments(Joined(segments)) == [""] + segments
  {
    if segments != [] {
      var n := |segments| - 1;
      JoinedSegments(segments[..n]);
      SegmentsAppend(Joined(segments[..n]), segments[n]);
      assert segments == segments[..n] + [segments[n]];
      Associate([""], segments[..n], [segments[n]]);
    }
  }

  lemma {:induction false} ResolvedPlain(segments: seq<string>)
    requires AllPlainly(segments)
    ensures Resolved([""] + segments) == segments
  {
    var all := [""] + segments;
    if segments == [] {
      assert all[..0] == [] && Resolved([]) == [];
    } else {
      var n := |segments| - 1;
      assert all[..n + 1] == [""] + segments[..n] && all[n + 1] == segments[n];
      ResolvedPlain(segments[..n]);
      assert segments == segments[..n] + [segments[n]];
    }
  }

  lemma {:induction false} SegmentsHaveNoSlash(path: string)
    ensures forall i :: 0 <= i < |Segments(path)| ==> NoSlash(Segments(path)[i])
  {
    if path != "" {
      SegmentsHaveNoSlash(path[1..]);
    }
  }

  lemma {:induction false} ResolvedIsPlain(segments: seq<string>)
    requires forall i :: 0 <= i < |segments| ==> NoSlash(segments[i])
    ensures AllPlainly(Resolved(segments))
  {
    if segments != [] {
      ResolvedIsPlain(segments[..|segments| - 1]);
    }
  }

  lemma JoinedEmptyIff(segments: seq<string>)
    ensures Joined(segments) == "" <==> segments == []
    ensures segments != [] ==> Joined(segments) != "/" || segments == [""]
  {
    if |segments| > 1 {
      JoinedEmptyIff(segments[..|segments| - 1]);
    } else if segments != [] {
      assert segments[..0] == [] && Joined(segments) == "/" + segments[0];
    }
  }

  lemma CleanPlain(segments: seq<string>)
    requires AllPlainly(segments)
    ensures Clean(Joined(segments)) == if segments == [] then "/" else Joined(segments)
  {
    JoinedSegments(segments);
    ResolvedPlain(segments);
    JoinedEmptyIff(segments);
  }

  /** Whether the last segment is `name`. */
  lemma EndsInName(segments: seq<string>, name: string)
    requires AllPlainly(segments) && Plainly(name)
    ensures HasSuffix(Joined(segments), "/" + name) <==> segments != [] && segments[|segments| - 1] == name
  {
    if segments != [] {
      var before, last := Joined(segments[..|segments| - 1]), segments[|segments| - 1];
      assert Plainly(last);
      LastSegment(before, last, name);
    }
  }

  lemma LastSegment(before: string, last: string, name: string)
    requires NoSlash(last) && NoSlash(name)
    ensures HasSuffix(before + "/" + last, "/" + name) <==> last == name
  {
    var s := before + "/" + last;
    assert s[|before|] == '/' && s[|before| + 1..] == last;
    if last == name {
      assert s[|before|..] == "/" + name;
    }
    if HasSuffix(s, "/" + name) {
      var n := |s| - 1 - |name|;
      assert s[n..] == "/" + name;
      assert s[n] == '/' && s[n + 1..] == name;
      OneLastSlash(s, n, |before|);
    }
  }

  lemma OneLastSlash(s: string, m: nat, n: nat)
    requires m < |s| && n < |s| && s[m] == '/' && s[n] == '/' && NoSlash(s[m + 1..]) && NoSlash(s[n + 1..])
    ensures m == n
  {
    assert forall i :: m < i < |s| ==> s[i] == s[m + 1..][i - m - 1];
    assert forall i :: n < i < |s| ==> s[i] == s[n + 1..][i - n - 1];
  }

  /** The path with the endpoint behind it, unless it is there already. */
  ghost function WithName(segments: seq<string>, name: string): seq<string> {
    if segments != [] && segments[|segments| - 1] == name then segments else segments + [name]
  }

  lemma JoinedSnoc(segments: seq<string>, name: string)
    ensures Joined(segments + [name]) == Joined(segments) + "/" + name
  {
    assert (segments + [name])[..|segments|] == segments;
  }

  lemma NameAdded(cleaned: string, segments: seq<string>, name: string)
    requires AllPlainly(segments) && Plainly(name) && cleaned == (if segments == [] then "/" else Joined(segments))
    ensures var prefix := if cleaned == "/" then "" else cleaned;
      (if HasSuffix(prefix, "/" + name) then prefix else Clean(prefix + "/" + name)) == Joined(WithName(segments, name))
  {
    hide Clean, HasSuffix, Joined, Plainly;
    JoinedEmptyIff(segments);
    EndsInName(segments, name);
    JoinedSnoc(segments, name);
    CleanPlain(segments + [name]);
    if segments != [] {
      JoinedStart(segments);
    }
  }

  lemma EndpointIsName()
    ensures Plainly(ENDPOINT_NAME)
  {}

  /** The endpoint goes behind a path that cleans to these segments. */
  lemma EndpointBehind(path: string, segments: seq<string>)
    requires AllPlainly(segments) && Clean("/" + TrimSlashes(path)) == (if segments == [] then "/" else Joined(segments))
    ensures EndpointPath(path) == Joined(WithName(segments, ENDPOINT_NAME))
  {
    EndpointIsName();
    hide Clean, TrimSlashes, HasSuffix, Joined, WithName, Plainly;
    NameAdded(Clean("/" + TrimSlashes(path)), segments, ENDPOINT_NAME);
  }

  ghost function Slashes(n: nat): (s: string)
    ensures |s| == n && forall i :: 0 <= i < n ==> s[i] == '/'
  {
    if n == 0 then "" else "/" + Slashes(n - 1)
  }

  lemma {:induction false} SlashesTrimmedBefore(before: nat, s: string)
    ensures TrimSlashes(Slashes(before) + s) == TrimSlashes(s)
  {
    var t := Slashes(before) + s;
    if before == 0 {
      assert t == s;
    } else {
      assert t[0] == '/' && t[1..] == Slashes(before - 1) + s;
      SlashesTrimmedBefore(before - 1, s);
    }
  }

  lemma {:induction false} SlashesTrimmedAfter(s: string, after: nat)
    requires s != "" && s[0] != '/' && s[|s| - 1] != '/'
    ensures TrimSlashes(s + Slashes(after)) == s
  {
    var t := s + Slashes(after);
    if after == 0 {
      assert t == s;
    } else {
      assert t[|t| - 1] == '/';
      var rest := t[..|t| - 1];
      assert |rest| == |s + Slashes(after - 1)| && forall i :: 0 <= i < |rest| ==> rest[i] == (s + Slashes(after - 1))[i];
      assert rest == s + Slashes(after - 1);
      SlashesTrimmedAfter(s, after - 1);
    }
  }

  /** However many slashes are typed before and after it, a path is kept, with the endpoint behind it, once. */
  lemma TypedPathKept(segments: seq<string>, before: nat, after: nat)
    requires AllPlainly(segments) && segments != []
    ensures Joined(segments) != ""
    ensures EndpointPath(Slashes(before) + (Joined(segments)[1..] + Slashes(after))) == Joined(WithName(segments, ENDPOINT_NAME))
  {
    hide Clean, EndpointPath, Joined, WithName, TrimSlashes, AllPlainly, Slashes;
    JoinedStart(segments);
    JoinedEnd(segments);
    var body := Joined(segments)[1..];
    SlashesTrimmedBefore(before, body + Slashes(after));
    SlashesTrimmedAfter(body, after);
    assert "/" + body == Joined(segments);
    CleanPlain(segments);
    EndpointBehind(Slashes(before) + (body + Slashes(after)), segments);
  }

  /** Nothing but slashes is no path. */
  lemma NoPathTyped(before: nat)
    ensures EndpointPath(Slashes(before)) == "/" + ENDPOINT_NAME
  {
    SlashesTrimmedBefore(before, "");
    assert Slashes(before) + "" == Slashes(before) && "/" + "" == "/";
    RootIsClean();
    hide Clean, Joined;
    EndpointBehind(Slashes(before), []);
    JoinedSnoc([], ENDPOINT_NAME);
    JoinedEmptyIff([]);
    assert [] + [ENDPOINT_NAME] == [ENDPOINT_NAME] && "" + "/" + ENDPOINT_NAME == "/" + ENDPOINT_NAME;
  }

  lemma RootIsClean()
    ensures Clean("/") == "/"
  {
    assert "/"[1..] == "" && Segments("/") == ["", ""];
    assert ["", ""][..1] == [""] && [""][..0] == [];
  }

  lemma {:induction false} JoinedStart(segments: seq<string>)
    requires AllPlainly(segments) && segments != []
    ensures |Joined(segments)| >= 2 && Joined(segments)[0] == '/' && Joined(segments)[1] != '/'
  {
    var n := |segments| - 1;
    assert Plainly(segments[n]) && segments[n][0] in segments[n];
    if n == 0 {
      assert segments[..0] == [] && Joined(segments) == "/" + segments[0];
    } else {
      JoinedStart(segments[..n]);
    }
  }

  lemma JoinedEnd(segments: seq<string>)
    requires AllPlainly(segments) && segments != []
    ensures Joined(segments) != "" && Joined(segments)[|Joined(segments)| - 1] != '/'
  {
    var last := segments[|segments| - 1];
    assert Plainly(last) && last[|last| - 1] in last;
  }

  /** Any path cleans to plain segments. */
  lemma CleanSegments(path: string) returns (segments: seq<string>)
    ensures AllPlainly(segments) && Clean(path) == (if segments == [] then "/" else Joined(segments))
  {
    segments := Resolved(Segments(path));
    SegmentsHaveNoSlash(path);
    ResolvedIsPlain(Segments(path));
    JoinedEmptyIff(segments);
  }

  /** Normalising a path again changes nothing. */
  lemma EndpointOnce(path: string)
    ensures EndpointPath(EndpointPath(path)) == EndpointPath(path)
  {
    hide Clean, EndpointPath, Joined, TrimSlashes, Plainly, Slashes;
    var segments := CleanSegments("/" + TrimSlashes(path));
    EndpointBehind(path, segments);
    EndpointIsName();
    var all := WithName(segments, ENDPOINT_NAME);
    assert WithName(all, ENDPOINT_NAME) == all;
    JoinedStart(all);
    TypedPathKept(all, 1, 0);
    assert Slashes(1) == "/" && Slashes(0) == "";
    assert Slashes(1) + (Joined(all)[1..] + Slashes(0)) == Joined(all);
  }

  /** An empty segment and a dot lead nowhere, and two dots lead back over a segment. */
  lemma DotsResolved(path: string, segment: string)
    requires Plainly(segment)
    ensures Clean(path + "/" + "") == Clean(path)
    ensures Clean(path + "/" + ".") == Clean(path)
    ensures Clean(path + "/" + segment + "/" + "..") == Clean(path)
  {
    hide Joined;
    SegmentsAppend(path, "");
    SegmentsAppend(path, ".");
    SegmentsAppend(path, segment);
    SegmentsAppend(path + "/" + segment, "..");
    Snoc(Segments(path), "");
    Snoc(Segments(path), ".");
    Snoc(Segments(path), segment);
    Snoc(Segments(path) + [segment], "..");
    var before := Resolved(Segments(path));
    assert Resolved(Segments(path) + [segment]) == before + [segment];
    assert (before + [segment])[..|before|] == before;
    assert Resolved(Segments(path) + [segment] + [".."]) == before;
  }

  lemma Snoc(s: seq<string>, t: string)
    ensures (s + [t])[..|s + [t]| - 1] == s && (s + [t])[|s + [t]| - 1] == t
  {}

  /** Two dots at the root stay there. */
  lemma RootHasNoParent()
    ensures Clean("/" + "..") == "/"
  {
    OneSegment("..");
    assert "/.."[1..] == ".." && Segments("/..") == ["", ".."];
    assert ["", ".."][..1] == [""] && [""][..0] == [];
  }

  // ---------- the documented form ----------

  ghost predicate Alphanumeric(c: char) { 'a' <= c <= 'z' || 'A' <= c <= 'Z' || '0' <= c <= '9' }

  /** What stays as it is in a path, and in a host. */
  ghost predicate PathChar(c: char) { Alphanumeric(c) || c in "-_.~$&+,/:;=@" }

  ghost predicate HostChar(c: char) { Alphanumeric(c) || c in "-_.~!$&'()*+,;=:[]<>\"" }

  ghost predicate PathChars(s: string) { forall i :: 0 <= i < |s| ==> PathChar(s[i]) }

  ghost predicate HostChars(s: string) { forall i :: 0 <= i < |s| ==> HostChar(s[i]) }

  lemma CharsKept(c: char)
    ensures KeptInPath(c) <==> PathChar(c)
    ensures KeptInHost(c) <==> HostChar(c)
  {}

  lemma {:induction false} PathKept(s: string, encode: Encoder)
    requires PathChars(s)
    ensures EscapedPath(s, encode) == s
  {
    hide KeptInPath, PathChar;
    if s != "" {
      CharsKept(s[0]);
      PathKept(s[1..], encode);
      assert s == [s[0]] + s[1..];
    }
  }

  lemma {:induction false} HostKept(s: string, encode: Encoder)
    requires HostChars(s)
    ensures EscapedHost(s, encode) == s
  {
    hide KeptInHost, HostChar;
    if s != "" {
      CharsKept(s[0]);
      HostKept(s[1..], encode);
      assert s == [s[0]] + s[1..];
    }
  }

  /** Whatever else is in a path or a host is percent-encoded. */
  lemma OthersEncoded(before: string, c: char, encode: Encoder)
    ensures PathChars(before) && !PathChar(c) ==> EscapedPath(before + [c], encode) == before + encode(c)
    ensures HostChars(before) && !HostChar(c) ==> EscapedHost(before + [c], encode) == before + encode(c)
  {
    CharsKept(c);
    hide KeptInPath, KeptInHost, PathChar, HostChar;
    PathEscapedAppend(before, [c], encode);
    HostEscapedAppend(before, [c], encode);
    assert [c][1..] == "" && encode(c) + "" == encode(c);
    if PathChars(before) {
      PathKept(before, encode);
    }
    if HostChars(before) {
      HostKept(before, encode);
    }
  }

  lemma {:induction false} PathEscapedAppend(a: string, b: string, encode: Encoder)
    ensures EscapedPath(a + b, encode) == EscapedPath(a, encode) + EscapedPath(b, encode)
  {
    hide KeptInPath;
    if a == "" {
      assert a + b == b;
    } else {
      assert (a + b)[1..] == a[1..] + b;
      PathEscapedAppend(a[1..], b, encode);
    }
  }

  lemma {:induction false} HostEscapedAppend(a: string, b: string, encode: Encoder)
    ensures EscapedHost(a + b, encode) == EscapedHost(a, encode) + EscapedHost(b, encode)
  {
    hide KeptInHost;
    if a == "" {
      assert a + b == b;
    } else {
      assert (a + b)[1..] == a[1..] + b;
      HostEscapedAppend(a[1..], b, encode);
    }
  }

  /** The parts of a URL, put together. */
  lemma AssembledIs(scheme: string, host: string, path: string, encode: Encoder)
    requires scheme == "http" || scheme == "https" || scheme == "ws" || scheme == "wss"
    requires host != "" && HostChars(host)
    requires PathChars(EndpointPath(path))
    ensures Assembled(ParsedUrl(scheme, host, path), encode)
      == Some((if scheme == "https" || scheme == "wss" then "wss" else "ws") + "://" + host + EndpointPath(path))
  {
    SchemeKept(scheme);
    hide EndpointPath, WebsocketScheme, PathChars, HostChars, EscapedPath, EscapedHost;
    PathKept(EndpointPath(path), encode);
    HostKept(host, encode);
  }

  /** http becomes ws, https becomes wss; the host is kept, and so is the path, with the endpoint behind it, once. */
  lemma DocumentedForm(raw: string, scheme: string, host: string, segments: seq<string>, before: nat, after: nat,
                       parse: UrlParser, encode: Encoder)
    requires TrimSpace(raw) != "" && AllPlainly(segments) && segments != [] && Joined(segments) != ""
    requires parse(Typed(raw)) == Some(ParsedUrl(scheme, host, Slashes(before) + (Joined(segments)[1..] + Slashes(after))))
    requires scheme == "http" || scheme == "https" || scheme == "ws" || scheme == "wss"
    requires host != "" && HostChars(host)
    requires PathChars(Joined(segments))
    ensures NormaliseServerURL(raw, parse, encode)
      == Some((if scheme == "https" || scheme == "wss" then "wss" else "ws") + "://" + host
              + (if segments[|segments| - 1] == "agents" then Joined(segments) else Joined(segments) + "/" + "agents"))
  {
    hide TrimSpace, Typed, EndpointPath, Joined, Slashes, PathChars, HostChars, AllPlainly, Assembled;
    TypedPathKept(segments, before, after);
    JoinedSnoc(segments, "agents");
    var path := if segments[|segments| - 1] == "agents" then Joined(segments) else Joined(segments) + "/" + "agents";
    assert Joined(WithName(segments, ENDPOINT_NAME)) == path;
    EndpointChars(Joined(segments));
    AssembledIs(scheme, host, Slashes(before) + (Joined(segments)[1..] + Slashes(after)), encode);
  }

  lemma EndpointChars(path: string)
    requires PathChars(path)
    ensures PathChars(path + "/" + "agents")
  {
    var all := path + "/" + "agents";
    forall i | 0 <= i < |all| ensures PathChar(all[i]) {
      assert all[i] == if i < |path| then path[i] else ("/" + "agents")[i - |path|];
    }
  }

  /** A host without a path. */
  lemma DocumentedHost(raw: string, scheme: string, host: string, before: nat, parse: UrlParser, encode: Encoder)
    requires TrimSpace(raw) != "" && parse(Typed(raw)) == Some(ParsedUrl(scheme, host, Slashes(before)))
    requires scheme == "http" || scheme == "https" || scheme == "ws" || scheme == "wss"
    requires host != "" && HostChars(host)
    ensures NormaliseServerURL(raw, parse, encode)
      == Some((if scheme == "https" || scheme == "wss" then "wss" else "ws") + "://" + host + ("/" + "agents"))
  {
    hide TrimSpace, Typed, EndpointPath, Slashes, Assembled;
    NoPathTyped(before);
    EndpointChars("");
    assert "" + "/" + "agents" == "/" + ENDPOINT_NAME;
    AssembledIs(scheme, host, Slashes(before), encode);
  }

  lemma SchemeKept(scheme: string)
    requires scheme == "http" || scheme == "https" || scheme == "ws" || scheme == "wss"
    ensures WebsocketScheme(scheme) == Some(if scheme == "https" || scheme == "wss" then "wss" else "ws")
  {
    LowerIs(scheme);
    assert Lower(scheme) == scheme;
    hide Lower;
  }

  /** Other schemes are refused, and the case of the letters does not matter. */
  lemma SchemeCase(a: string, b: string)
    requires |a| == |b|
    requires forall i :: 0 <= i < |a| ==> a[i] == b[i] || ('A' <= a[i] <= 'Z' && b[i] == a[i] - 'A' + 'a')
    ensures WebsocketScheme(a) == WebsocketScheme(b)
    ensures WebsocketScheme(b).Some? && (forall i :: 0 <= i < |b| ==> !('A' <= b[i] <= 'Z')) ==>
      b == "http" || b == "https" || b == "ws" || b == "wss"
  {
    LowerIs(a);
    LowerIs(b);
    assert Lower(a) == Lower(b);
    if forall i :: 0 <= i < |b| ==> !('A' <= b[i] <= 'Z') {
      assert Lower(b) == b;
    }
    hide Lower;
  }

  ghost predicate PartAt(s: string, part: string, i: nat) { i + |part| <= |s| && s[i..i + |part|] == part }

  lemma ContainsIff(s: string, part: string)
    ensures Contains(s, part) <==> exists i :: PartAt(s, part, i)
  {
    if Contains(s, part) {
      var i := ContainsFound(s, part);
      assert PartAt(s, part, i);
    }
    if i :| PartAt(s, part, i) {
      ContainsAt(s, part, i);
    }
  }

  /** Typing a host alone is typing it with https in front; with a scheme it is taken as it is. */
  lemma BareHostIsSecure(raw: string)
    ensures (exists i :: PartAt(TrimSpace(raw), "://", i)) ==> Typed(raw) == TrimSpace(raw)
    ensures !(exists i :: PartAt(TrimSpace(raw), "://", i)) ==> Typed(raw) == "https://" + TrimSpace(raw)
  {
    ContainsIff(TrimSpace(raw), "://");
  }
}
