// The URL path between the console data source (client) and the console handler (server).
// A character stands for one byte.
module ResourcePaths {
  import opened CheckerTypes

  const API := "api"
  const VERSION := "v1"
  const CLUSTERS := "clusters"
  const PREFIX := "/" + (API + "/" + (VERSION + "/" + (CLUSTERS + "/")))
  const NAMESPACES := "namespaces"

  predicate ClusterScoped(resource: string) {
    resource == NAMESPACES
  }

  // ---------------------------------------------------------- percent-encoding

  // Characters that may stand for themselves in a path segment.
  predicate Unescaped(c: char) {
    || 'a' <= c <= 'z' || 'A' <= c <= 'Z' || '0' <= c <= '9'
    || c in {'-', '_', '.', '~', '$', '&', '+', ':', '=', '@'}
  }

  predicate Plain(s: string) {
    forall i :: 0 <= i < |s| ==> Unescaped(s[i])
  }

  predicate Bytes(s: string) {
    forall i :: 0 <= i < |s| ==> s[i] < 256 as char
  }

  function Hex(n: nat): char
    requires n < 16
  {
    "0123456789ABCDEF"[n]
  }

  function Unhex(c: char): (r: Option<nat>)
    ensures r.Some? ==> r.value < 16
  {
    if '0' <= c <= '9' then Some((c - '0') as nat)
    else if 'A' <= c <= 'F' then Some((c - 'A') as nat + 10)
    else if 'a' <= c <= 'f' then Some((c - 'a') as nat + 10)
    else None
  }

  function EscapeChar(c: char): string
    requires c < 256 as char
  {
    if Unescaped(c) then [c] else ['%', Hex(c as nat / 16), Hex(c as nat % 16)]
  }

  function PathEscape(s: string): string
    requires Bytes(s)
  {
    if s == "" then "" else EscapeChar(s[0]) + PathEscape(s[1..])
  }

  function Prepend(a: string, o: Option<string>): Option<string> {
    match o
    case None => None
    case Some(b) => Some(a + b)
  }

  // The server's decoding of a whole path; none when an escape is malformed.
  function Unescape(s: string): Option<string> {
    if s == "" then Some("")
    else if s[0] != '%' then Prepend([s[0]], Unescape(s[1..]))
    else if |s| < 3 || Unhex(s[1]).None? || Unhex(s[2]).None? then None
    else Prepend([(16 * Unhex(s[1]).value + Unhex(s[2]).value) as char], Unescape(s[3..]))
  }

  // ------------------------------------------------------------------ the client

  datatype Request =
    | Get(cluster: string, namespace: string, resource: string, name: string)
    | List(cluster: string, namespace: string, resource: string)

  predicate UsesNamespace(r: Request) {
    !ClusterScoped(r.resource) && r.namespace != ""
  }

  // The start of every path.
  function Base(r: Request): string {
    PREFIX + r.cluster
  }

  // The end of a path, from the resource on: escaped, and as the server sees it.
  function TailRaw(r: Request): string
    requires r.Get? ==> Bytes(r.name)
  {
    "/" + r.resource + if r.Get? then "/" + PathEscape(r.name) else ""
  }

  function Tail(r: Request): string {
    "/" + r.resource + if r.Get? then "/" + r.name else ""
  }

  const SCOPE := "/" + NAMESPACES + "/"

  // Cluster and resource are inserted as they are, namespace and name are escaped.
  function BuildPath(r: Request): string
    requires Bytes(r.namespace) && (r.Get? ==> Bytes(r.name))
  {
    if UsesNamespace(r) then Base(r) + SCOPE + (PathEscape(r.namespace) + TailRaw(r))
    else Base(r) + TailRaw(r)
  }

  // ------------------------------------------------------------------ the server

  function TrimPrefix(s: string, prefix: string): string {
    if prefix <= s then s[|prefix|..] else s
  }

  function TrimRight(s: string): string {
    if s == "" || s[|s| - 1] != '/' then s else TrimRight(s[..|s| - 1])
  }

  function Split(s: string): (r: seq<string>)
    ensures |r| >= 1
  {
    if s == "" then [""]
    else
      var rest := Split(s[1..]);
      if s[0] == '/' then [""] + rest else [[s[0]] + rest[0]] + rest[1..]
  }

  function Interpret(parts: seq<string>): Option<Request> {
    if |parts| < 2 then None
    else
      var rest := parts[1..];
      var namespaced := |rest| >= 3 && rest[0] == NAMESPACES;
      var namespace := if namespaced then rest[1] else "";
      var resource := if namespaced then rest[2] else rest[0];
      var name :=
        if namespaced then if |rest| >= 4 then rest[3] else ""
        else if |rest| >= 2 then rest[1] else "";
      Some(if name != "" then Get(parts[0], namespace, resource, name)
           else List(parts[0], namespace, resource))
  }

  // What the handler understands from a decoded path.
  function ParsePath(path: string): Option<Request> {
    Interpret(Split(TrimRight(TrimPrefix(path, PREFIX))))
  }

  // Empty and "." segments go, ".." takes the segment before it along.
  function Reduce(parts: seq<string>): seq<string> {
    if parts == [] then []
    else
      var before, last := Reduce(parts[..|parts| - 1]), parts[|parts| - 1];
      if last == "" || last == "." then before
      else if last == ".." then if before == [] then [] else before[..|before| - 1]
      else before + [last]
  }

  function JoinPath(segments: seq<string>): string {
    if segments == [] then "" else "/" + segments[0] + JoinPath(segments[1..])
  }

  // The canonical form of a path (cleanPath in net/http): rooted, reduced, and with a
  // slash at the end if there was one.
  function CleanPath(p: string): string {
    var rooted := if p != "" && p[0] == '/' then p else "/" + p;
    var segments := Reduce(Split(rooted));
    if segments == [] then "/"
    else JoinPath(segments) + if rooted[|rooted| - 1] == '/' then "/" else ""
  }

  /** The path the handler gets to see. The multiplexer looks at the path as it was sent and
      redirects a path that is not canonical to its canonical form, which is then taken
      literally; only paths below the prefix are routed to the handler. */
  function Routed(raw: string): Option<string> {
    var canonical := CleanPath(raw);
    if !(PREFIX <= canonical) then None
    else if canonical == raw then Unescape(raw)
    else Some(canonical)
  }

  function Serve(raw: string): Option<Request> {
    match Routed(raw)
    case None => None
    case Some(path) => ParsePath(path)
  }

  // ------------------------------------------------------------------- decoding

  lemma HexRoundTrip(n: nat)
    requires n < 16
    ensures Unhex(Hex(n)) == Some(n)
  {
  }

  lemma PrependTwice(a: string, b: string, o: Option<string>)
    ensures Prepend(a, Prepend(b, o)) == Prepend(a + b, o)
    ensures Prepend("", o) == o
  {
    if o.Some? {
      assert a + (b + o.value) == a + b + o.value;
      assert "" + o.value == o.value;
    }
  }

  lemma UnescapeChar(c: char, rest: string)
    requires c < 256 as char
    ensures Unescape(EscapeChar(c) + rest) == Prepend([c], Unescape(rest))
  {
    var s := EscapeChar(c) + rest;
    if Unescaped(c) {
      assert s[1..] == rest;
    } else {
      assert s[0] == '%' && s[1] == Hex(c as nat / 16) && s[2] == Hex(c as nat % 16) && s[3..] == rest;
      HexRoundTrip(c as nat / 16);
      HexRoundTrip(c as nat % 16);
      assert (16 * (c as nat / 16) + c as nat % 16) as char == c;
    }
  }

  /** Decoding undoes the escaping of a segment, whatever follows it. */
  lemma {:induction false} EscapeRoundTrip(s: string, rest: string)
    requires Bytes(s)
    ensures Unescape(PathEscape(s) + rest) == Prepend(s, Unescape(rest))
  {
    if s == "" {
      assert PathEscape(s) + rest == rest;
      PrependTwice("", "", Unescape(rest));
    } else {
      EscapeRoundTrip(s[1..], rest);
      EscapedHead(s, rest);
    }
  }

  lemma {:induction false} EscapedHead(s: string, rest: string)
    requires Bytes(s) && s != ""
    requires Unescape(PathEscape(s[1..]) + rest) == Prepend(s[1..], Unescape(rest))
    ensures Unescape(PathEscape(s) + rest) == Prepend(s, Unescape(rest))
  {
    var tail := PathEscape(s[1..]) + rest;
    Associative(EscapeChar(s[0]), PathEscape(s[1..]), rest);
    UnescapeChar(s[0], tail);
    PrependTwice([s[0]], s[1..], Unescape(rest));
    assert s == [s[0]] + s[1..];
  }

  lemma Associative(a: string, b: string, c: string)
    ensures a + b + c == a + (b + c)
  {
  }

  lemma {:induction false} UnescapeLiteral(s: string, rest: string)
    requires '%' !in s
    ensures Unescape(s + rest) == Prepend(s, Unescape(rest))
  {
    if s == "" {
      assert s + rest == rest;
      PrependTwice("", "", Unescape(rest));
    } else {
      assert (s + rest)[1..] == s[1..] + rest;
      UnescapeLiteral(s[1..], rest);
      PrependTwice([s[0]], s[1..], Unescape(rest));
      assert s == [s[0]] + s[1..];
    }
  }

  function Decoded(r: Request): string {
    if UsesNamespace(r) then Base(r) + SCOPE + (r.namespace + Tail(r))
    else Base(r) + Tail(r)
  }

  // A path segment that every stage keeps.
  predicate IsSegment(s: string) {
    s != "" && '/' !in s && s != "." && s != ".."
  }

  lemma PlainHasNoPercent(s: string)
    requires Plain(s)
    ensures '%' !in s && '/' !in s
  {
  }

  predicate Sendable(r: Request) {
    && Plain(r.cluster) && Plain(r.resource) && IsSegment(r.resource)
    && Bytes(r.namespace) && (r.Get? ==> Bytes(r.name))
  }

  lemma {:induction false} TailDecoded(r: Request)
    requires Sendable(r)
    ensures Unescape(TailRaw(r)) == Some(Tail(r))
  {
    PlainHasNoPercent(r.resource);
    if r.Get? {
      var head := "/" + r.resource + "/";
      assert TailRaw(r) == head + PathEscape(r.name) && Tail(r) == head + r.name;
      assert PathEscape(r.name) + "" == PathEscape(r.name) && r.name + "" == r.name;
      EscapeRoundTrip(r.name, "");
      UnescapeLiteral(head, PathEscape(r.name));
    } else {
      assert TailRaw(r) == "/" + r.resource + "";
      UnescapeLiteral("/" + r.resource, "");
    }
  }

  lemma PrefixHasNoPercent(c: string)
    requires '%' !in c
    ensures '%' !in PREFIX + c && '%' !in PREFIX + c + SCOPE
  {
    NoPercent("/", API);
    NoPercent("/", VERSION);
    NoPercent("/", CLUSTERS);
    NoPercent("/", NAMESPACES);
  }

  lemma NoPercent(a: string, b: string)
    requires '%' !in a && '%' !in b
    ensures '%' !in a + b && '%' !in a + b + a && '%' !in b + a
  {
  }

  lemma {:induction false} DecodedOnArrival(r: Request)
    requires Sendable(r)
    ensures Unescape(BuildPath(r)) == Some(Decoded(r))
  {
    PlainHasNoPercent(r.cluster);
    PrefixHasNoPercent(r.cluster);
    TailDecoded(r);
    DecodedParts(Base(r), Base(r) + SCOPE, r);
  }

  lemma {:induction false} DecodedParts(base: string, scoped: string, r: Request)
    requires Sendable(r) && '%' !in base && '%' !in scoped && Unescape(TailRaw(r)) == Some(Tail(r))
    ensures Unescape(base + TailRaw(r)) == Some(base + Tail(r))
    ensures Unescape(scoped + (PathEscape(r.namespace) + TailRaw(r))) == Some(scoped + (r.namespace + Tail(r)))
  {
    EscapeRoundTrip(r.namespace, TailRaw(r));
    UnescapeLiteral(scoped, PathEscape(r.namespace) + TailRaw(r));
    UnescapeLiteral(base, TailRaw(r));
  }

  // ------------------------------------------------------------------- splitting

  lemma {:induction false} SplitConcat(a: string, b: string)
    ensures Split(a + "/" + b) == Split(a) + Split(b)
  {
    var s := a + "/" + b;
    if a == "" {
      assert s[1..] == b;
    } else {
      assert s[1..] == a[1..] + "/" + b;
      SplitConcat(a[1..], b);
    }
  }

  lemma {:induction false} SplitSegment(a: string)
    requires '/' !in a
    ensures Split(a) == [a]
  {
    if a != "" {
      SplitSegment(a[1..]);
      assert a == [a[0]] + a[1..];
    }
  }

  lemma {:induction false} SplitIsSlashFree(s: string, i: nat)
    requires i < |Split(s)|
    ensures '/' !in Split(s)[i]
  {
    if s != "" {
      var rest := Split(s[1..]);
      if s[0] == '/' {
        if i > 0 {
          SplitIsSlashFree(s[1..], i - 1);
        }
      } else {
        SplitIsSlashFree(s[1..], i);
      }
    }
  }

  // ------------------------------------------------------------------- round trip

  // The request as it should arrive: an unused namespace is dropped.
  function Expected(r: Request): Request {
    r.(namespace := if UsesNamespace(r) then r.namespace else "")
  }

  // The condition for that, readable off the request.
  predicate Recoverable(r: Request) {
    && IsSegment(r.cluster)
    && (UsesNamespace(r) ==> IsSegment(r.namespace))
    && (r.Get? ==> IsSegment(r.name))
  }

  function Segments(r: Request): seq<string> {
    (if UsesNamespace(r) then [r.cluster, NAMESPACES, r.namespace] else [r.cluster]) + LastSegments(r)
  }

  function LastSegments(r: Request): seq<string> {
    if r.Get? then [r.resource, r.name] else [r.resource]
  }

  lemma PrefixStripped(a: string)
    ensures TrimPrefix(PREFIX + a, PREFIX) == a
  {
  }

  lemma {:induction false} TailSplit(r: Request)
    requires Plain(r.resource) && (r.Get? ==> '/' !in r.name)
    ensures Tail(r) == "/" + Tail(r)[1..]
    ensures Split(Tail(r)[1..]) == LastSegments(r)
  {
    PlainHasNoPercent(r.resource);
    SplitSegment(r.resource);
    if r.Get? {
      SplitSegment(r.name);
      SplitConcat(r.resource, r.name);
      assert Tail(r)[1..] == r.resource + "/" + r.name;
    } else {
      assert Tail(r)[1..] == r.resource;
    }
  }

  lemma TailEndsOpen(r: Request, before: string)
    requires Plain(r.resource) && r.resource != "" && (r.Get? ==> r.name != "" && '/' !in r.name)
    ensures TrimRight(before + Tail(r)) == before + Tail(r)
  {
    var path := before + Tail(r);
    assert path[|path| - 1] == if r.Get? then r.name[|r.name| - 1] else r.resource[|r.resource| - 1];
  }

  lemma {:induction false} SplitThree(a: string, b: string, c: string, rest: string)
    requires '/' !in a && '/' !in b && '/' !in c
    ensures Split(a + "/" + (b + "/" + (c + "/" + rest))) == [a, b, c] + Split(rest)
  {
    SplitConcat(a, b + "/" + (c + "/" + rest));
    SplitConcat(b, c + "/" + rest);
    SplitConcat(c, rest);
    SplitSegment(a);
    SplitSegment(b);
    SplitSegment(c);
  }

  lemma Regroup(a: string, b: string, c: string, d: string)
    ensures a + b + c + d == a + (b + c + d)
    ensures a + b + d == a + (b + d)
    ensures a + ("/" + b + "/") + (c + ("/" + d)) == a + "/" + (b + "/" + (c + "/" + d))
    ensures a + ("/" + b + "/") + (c + ("/" + d)) == (a + ("/" + b + "/") + c) + ("/" + d)
  {
  }

  // The path below the prefix, and its segments.
  function Below(r: Request): string {
    if UsesNamespace(r) then r.cluster + SCOPE + (r.namespace + Tail(r)) else r.cluster + Tail(r)
  }

  lemma {:induction false} DecodedIsBelowPrefix(r: Request)
    ensures TrimPrefix(Decoded(r), PREFIX) == Below(r)
  {
    Regroup(PREFIX, r.cluster, SCOPE, r.namespace + Tail(r));
    Regroup(PREFIX, r.cluster, "", Tail(r));
    PrefixStripped(Below(r));
  }

  lemma {:induction false} ScopedSplit(r: Request, tail: string)
    requires Sendable(r) && Recoverable(r) && UsesNamespace(r)
    requires Tail(r) == "/" + tail
    ensures Split(TrimRight(Below(r))) == [r.cluster, NAMESPACES, r.namespace] + Split(tail)
  {
    PlainHasNoPercent(r.cluster);
    TailEndsOpen(r, r.cluster + SCOPE + r.namespace);
    Regroup(r.cluster, NAMESPACES, r.namespace, tail);
    SplitThree(r.cluster, NAMESPACES, r.namespace, tail);
  }

  lemma {:induction false} UnscopedSplit(r: Request, tail: string)
    requires Sendable(r) && Recoverable(r) && !UsesNamespace(r)
    requires Tail(r) == "/" + tail
    ensures Split(TrimRight(Below(r))) == [r.cluster] + Split(tail)
  {
    PlainHasNoPercent(r.cluster);
    TailEndsOpen(r, r.cluster);
    Regroup(r.cluster, "/", "", tail);
    SplitConcat(r.cluster, tail);
    SplitSegment(r.cluster);
  }

  lemma {:induction false} PathSplit(r: Request)
    requires Sendable(r) && Recoverable(r)
    ensures Split(TrimRight(Below(r))) == Segments(r)
  {
    TailSplit(r);
    if UsesNamespace(r) {
      ScopedSplit(r, Tail(r)[1..]);
    } else {
      UnscopedSplit(r, Tail(r)[1..]);
    }
  }

  lemma InterpretSegments(r: Request)
    requires r.Get? ==> r.name != ""
    ensures Interpret(Segments(r)) == Some(Expected(r))
  {
  }

  lemma ParsedIsSlashFree(path: string)
    requires ParsePath(path).Some?
    ensures var q := ParsePath(path).value;
            '/' !in q.namespace && (q.Get? ==> q.name != "" && '/' !in q.name)
  {
    var s := TrimRight(TrimPrefix(path, PREFIX));
    forall i | 0 <= i < |Split(s)| ensures '/' !in Split(s)[i] {
      SplitIsSlashFree(s, i);
    }
  }

  // ------------------------------------------------------------- canonical paths

  lemma {:induction false} JoinSplit(x: string)
    ensures JoinPath(Split(x)) == "/" + x
  {
    if x != "" {
      var y := x[1..];
      JoinSplit(y);
      assert x == [x[0]] + y;
      if x[0] == '/' {
        JoinSlash(Split(y), y);
      } else {
        JoinGrow(x[0], Split(y), y);
      }
    }
  }

  lemma JoinSlash(parts: seq<string>, y: string)
    requires JoinPath(parts) == "/" + y
    ensures JoinPath([""] + parts) == "/" + (['/'] + y)
  {
    JoinCons("", parts);
    assert "/" + "" == "/";
  }

  lemma JoinCons(first: string, rest: seq<string>)
    ensures JoinPath([first] + rest) == "/" + first + JoinPath(rest)
  {
    assert ([first] + rest)[1..] == rest;
  }

  // One more character in front of the first part.
  lemma {:induction false} JoinGrow(c: char, parts: seq<string>, y: string)
    requires parts != [] && JoinPath(parts) == "/" + y
    ensures JoinPath([[c] + parts[0]] + parts[1..]) == "/" + ([c] + y)
  {
    var tail := parts[0] + JoinPath(parts[1..]);
    assert "/" + tail == "/" + y by {
      Associative("/", parts[0], JoinPath(parts[1..]));
    }
    assert ("/" + tail)[1..] == tail && ("/" + y)[1..] == y;
    JoinCons([c] + parts[0], parts[1..]);
    Associative([c], parts[0], JoinPath(parts[1..]));
    Associative("/", [c] + parts[0], JoinPath(parts[1..]));
  }

  lemma {:induction false} SplitJoin(segments: seq<string>)
    requires forall i :: 0 <= i < |segments| ==> '/' !in segments[i]
    ensures Split(JoinPath(segments)) == [""] + segments
  {
    if segments != [] {
      var first, rest := segments[0], segments[1..];
      assert segments == [first] + rest;
      SplitJoin(rest);
      if rest == [] {
        SplitSegment(first);
        assert ("/" + first + "")[1..] == first;
      } else {
        SplitFrontJoin(first, JoinPath(rest));
      }
    }
  }

  lemma {:induction false} SplitFrontJoin(first: string, rest: string)
    requires '/' !in first && rest != "" && rest[0] == '/'
    ensures Split("/" + first + rest) == ["", first] + Split(rest)[1..]
  {
    var s := "/" + first + rest;
    assert s[1..] == first + "/" + rest[1..];
    SplitConcat(first, rest[1..]);
    SplitSegment(first);
    assert Split(rest) == [""] + Split(rest[1..]);
  }

  predicate AllSegments(segments: seq<string>) {
    forall i :: 0 <= i < |segments| ==> IsSegment(segments[i])
  }

  lemma {:induction false} ReducedAreSegments(parts: seq<string>)
    requires forall i :: 0 <= i < |parts| ==> '/' !in parts[i]
    ensures AllSegments(Reduce(parts))
  {
    if parts != [] {
      ReducedAreSegments(parts[..|parts| - 1]);
    }
  }

  lemma {:induction false} SegmentsStay(segments: seq<string>)
    requires AllSegments(segments)
    ensures Reduce([""] + segments) == segments
  {
    if segments == [] {
      assert [""] + segments == [""] && [""][..0] == [];
    } else {
      var n := |segments| - 1;
      SegmentsStay(segments[..n]);
      assert ([""] + segments)[..n + 1] == [""] + segments[..n];
      assert segments == segments[..n] + [segments[n]];
    }
  }

  lemma {:induction false} LastOfJoin(segments: seq<string>)
    requires AllSegments(segments) && segments != []
    ensures var p := JoinPath(segments); p != "" && p[0] == '/' && p[|p| - 1] != '/'
  {
    if |segments| > 1 {
      LastOfJoin(segments[1..]);
    } else {
      assert JoinPath(segments) == "/" + segments[0];
    }
  }

  // A path of segments is canonical, also with a slash behind it; a last "." goes.
  lemma {:induction false} SegmentPathIsCanonical(segments: seq<string>)
    requires AllSegments(segments) && segments != []
    ensures CleanPath(JoinPath(segments)) == JoinPath(segments)
    ensures CleanPath(JoinPath(segments) + "/") == JoinPath(segments) + "/"
    ensures CleanPath(JoinPath(segments) + "/.") == JoinPath(segments)
  {
    var p := JoinPath(segments);
    LastOfJoin(segments);
    SplitJoin(segments);
    SegmentsStay(segments);
    SplitConcat(p, "");
    assert p + "/" + "" == p + "/";
    ReducedBehind([""] + segments, "");
    SplitConcat(p, ".");
    assert p + "/" + "." == p + "/." && Split(".") == ["."] by {
      SplitSegment(".");
    }
    ReducedBehind([""] + segments, ".");
  }

  lemma {:induction false} ReducedBehind(parts: seq<string>, last: string)
    requires last == "" || last == "."
    ensures Reduce(parts + [last]) == Reduce(parts)
  {
    assert (parts + [last])[..|parts|] == parts;
  }

  // Read off a canonical path: nothing but segments, and perhaps an empty end.
  lemma {:induction false} CanonicalParts(p: string)
    ensures var parts := Split(CleanPath(p));
            && |parts| >= 2 && parts[0] == ""
            && forall i :: 1 <= i < |parts| ==> IsSegment(parts[i]) || (i == |parts| - 1 && parts[i] == "")
  {
    var rooted := if p != "" && p[0] == '/' then p else "/" + p;
    forall i | 0 <= i < |Split(rooted)| ensures '/' !in Split(rooted)[i] {
      SplitIsSlashFree(rooted, i);
    }
    ReducedAreSegments(Split(rooted));
    var segments := Reduce(Split(rooted));
    SplitJoin(segments);
    var joined := JoinPath(segments);
    SplitConcat(joined, "");
    assert joined + "/" + "" == joined + "/";
    assert "" + "/" == "/";
    SplitConcat("", "");
    assert "" + "/" + "" == "/";
    assert joined + "" == joined;
  }

  lemma PrefixJoined(x: string)
    ensures PREFIX + x == "" + "/" + (API + "/" + (VERSION + "/" + (CLUSTERS + "/" + x)))
  {
    Nested(API, VERSION, CLUSTERS, x);
  }

  lemma Nested(a: string, b: string, c: string, x: string)
    ensures "/" + (a + "/" + (b + "/" + (c + "/"))) + x == "" + "/" + (a + "/" + (b + "/" + (c + "/" + x)))
  {
  }

  // Path segments start with the three of the prefix.
  lemma {:induction false} SplitBelowPrefix(x: string)
    ensures Split(PREFIX + x) == ["", API, VERSION, CLUSTERS] + Split(x)
  {
    PrefixJoined(x);
    SplitConcat("", API + "/" + (VERSION + "/" + (CLUSTERS + "/" + x)));
    SplitThree(API, VERSION, CLUSTERS, x);
    SplitSegment("");
  }

  lemma {:induction false} TrimmedPartsComeFirst(x: string)
    ensures Split(TrimRight(x)) <= Split(x)
  {
    if x != "" && x[|x| - 1] == '/' {
      var init := x[..|x| - 1];
      TrimmedPartsComeFirst(init);
      SplitConcat(init, "");
      assert x == init + "/" + "";
    }
  }

  // What the handler reads off a canonical path.
  lemma {:induction false} ParsedFromCanonical(p: string)
    requires PREFIX <= CleanPath(p) && ParsePath(CleanPath(p)).Some?
    ensures var q := ParsePath(CleanPath(p)).value;
            && IsSegment(q.cluster) && (q.Get? ==> IsSegment(q.name))
            && (q.namespace != "" ==> IsSegment(q.namespace))
  {
    var path := CleanPath(p);
    var x := path[|PREFIX|..];
    assert path == PREFIX + x;
    CanonicalParts(p);
    SplitBelowPrefix(x);
    TrimmedPartsComeFirst(x);
    var parts := Split(TrimRight(x));
    forall i | 0 <= i < |parts| ensures parts[i] == Split(path)[i + 4] {
      assert parts[i] == Split(x)[i];
    }
    assert |Split(x)| >= |parts| >= 2;
  }

  // ------------------------------------------------------- the path that was sent

  function SentSegments(r: Request): seq<string>
    requires Bytes(r.namespace) && (r.Get? ==> Bytes(r.name))
  {
    (if UsesNamespace(r) then [r.cluster, NAMESPACES, PathEscape(r.namespace)] else [r.cluster])
    + if r.Get? then [r.resource, PathEscape(r.name)] else [r.resource]
  }

  lemma EscapedCharHasNoSlash(c: char)
    requires c < 256 as char
    ensures '/' !in EscapeChar(c)
  {
    if !Unescaped(c) {
      HexIsNoSlash(c as nat / 16);
      HexIsNoSlash(c as nat % 16);
    }
  }

  lemma HexIsNoSlash(n: nat)
    requires n < 16
    ensures Hex(n) != '/'
  {
  }

  lemma NoSlashConcat(a: string, b: string)
    requires '/' !in a && '/' !in b
    ensures '/' !in a + b
  {
  }

  lemma {:induction false} EscapedHasNoSlash(s: string)
    requires Bytes(s)
    ensures '/' !in PathEscape(s)
  {
    if s != "" {
      EscapedHasNoSlash(s[1..]);
      EscapedCharHasNoSlash(s[0]);
      NoSlashConcat(EscapeChar(s[0]), PathEscape(s[1..]));
    }
  }

  lemma {:induction false} EscapedIsSegmentIff(s: string)
    requires Bytes(s) && '/' !in s
    ensures IsSegment(PathEscape(s)) <==> IsSegment(s)
  {
    EscapedHasNoSlash(s);
    EscapeRoundTrip(s, "");
    assert PathEscape(s) + "" == PathEscape(s) && s + "" == s;
    EscapeRoundTrip(".", "");
    DotsDecode();
  }

  lemma DotsDecode()
    ensures Unescape(".") == Some(".") && Unescape("..") == Some("..")
    ensures PathEscape(".") == "." && PathEscape("..") == ".." && PathEscape("") == ""
  {
    assert "."[1..] == "" && ".."[1..] == ".";
    assert ['.'] + "" == "." && ['.'] + "." == "..";
    assert Unescape("") == Some("");
  }

  lemma TailRawBelowSlash(r: Request)
    requires r.Get? ==> Bytes(r.name)
    ensures TailRaw(r) == "/" + TailRaw(r)[1..]
    ensures TailRaw(r)[1..] == if r.Get? then r.resource + "/" + PathEscape(r.name) else r.resource
  {
    if r.Get? {
      assert TailRaw(r) == "/" + (r.resource + "/" + PathEscape(r.name));
    } else {
      assert TailRaw(r) == "/" + r.resource;
    }
  }

  lemma {:induction false} TailRawSplit(r: Request)
    requires Sendable(r)
    ensures TailRaw(r) == "/" + TailRaw(r)[1..]
    ensures Split(TailRaw(r)[1..]) == if r.Get? then [r.resource, PathEscape(r.name)] else [r.resource]
  {
    PlainHasNoPercent(r.resource);
    SplitSegment(r.resource);
    TailRawBelowSlash(r);
    if r.Get? {
      EscapedHasNoSlash(r.name);
      SplitSegment(PathEscape(r.name));
      SplitConcat(r.resource, PathEscape(r.name));
    }
  }

  // The path below the prefix, as sent.
  function Sent(r: Request): string
    requires Bytes(r.namespace) && (r.Get? ==> Bytes(r.name))
  {
    if UsesNamespace(r) then r.cluster + SCOPE + (PathEscape(r.namespace) + TailRaw(r)) else r.cluster + TailRaw(r)
  }

  lemma {:induction false} SentBelowPrefix(r: Request)
    requires Sendable(r)
    ensures BuildPath(r) == PREFIX + Sent(r)
  {
    if UsesNamespace(r) {
      Regroup(PREFIX, r.cluster, SCOPE, PathEscape(r.namespace) + TailRaw(r));
    } else {
      Regroup(PREFIX, r.cluster, "", TailRaw(r));
    }
  }

  lemma {:induction false} SentSplit(r: Request)
    requires Sendable(r)
    ensures Split(Sent(r)) == SentSegments(r)
  {
    PlainHasNoPercent(r.cluster);
    TailRawSplit(r);
    var tail := TailRaw(r)[1..];
    if UsesNamespace(r) {
      EscapedHasNoSlash(r.namespace);
      Regroup(r.cluster, NAMESPACES, PathEscape(r.namespace), tail);
      SplitThree(r.cluster, NAMESPACES, PathEscape(r.namespace), tail);
    } else {
      Regroup(r.cluster, "/", "", tail);
      SplitConcat(r.cluster, tail);
      SplitSegment(r.cluster);
    }
  }

  lemma {:induction false} BuiltSplit(r: Request)
    requires Sendable(r)
    ensures Split(BuildPath(r)) == ["", API, VERSION, CLUSTERS] + SentSegments(r)
  {
    SentBelowPrefix(r);
    SentSplit(r);
    SplitBelowPrefix(Sent(r));
  }

  lemma {:induction false} SplitOfSegmentsIsCanonical(p: string, segments: seq<string>)
    requires AllSegments(segments) && segments != [] && p != "" && p[0] == '/'
    requires Split(p) == [""] + segments
    ensures CleanPath(p) == p && CleanPath(p + "/") == p + "/" && CleanPath(p + "/.") == p
  {
    assert p == "/" + p[1..] && Split(p) == [""] + Split(p[1..]);
    assert Split(p)[1..] == segments && Split(p)[1..] == Split(p[1..]);
    JoinSplit(p[1..]);
    SegmentPathIsCanonical(segments);
  }

  lemma PrefixComesFirst(x: string)
    ensures PREFIX <= PREFIX + x && (PREFIX + x)[0] == '/'
  {
  }

  lemma PrefixSegments()
    ensures AllSegments([API, VERSION, CLUSTERS])
  {
  }

  lemma MoreSegments(a: seq<string>, b: seq<string>)
    requires AllSegments(a) && AllSegments(b)
    ensures AllSegments(a + b)
  {
  }

  // The path of a recoverable request is canonical.
  lemma {:induction false} RecoverableIsCanonical(r: Request)
    requires Sendable(r) && Recoverable(r)
    ensures CleanPath(BuildPath(r)) == BuildPath(r) && CleanPath(BuildPath(r) + "/") == BuildPath(r) + "/"
    ensures CleanPath(BuildPath(r) + "/.") == BuildPath(r)
    ensures PREFIX <= BuildPath(r)
  {
    var p, front := BuildPath(r), [API, VERSION, CLUSTERS];
    BuiltSplit(r);
    SentBelowPrefix(r);
    PrefixComesFirst(Sent(r));
    SentAreSegments(r);
    PrefixSegments();
    MoreSegments(front, SentSegments(r));
    assert Split(p) == [""] + (front + SentSegments(r));
    SplitOfSegmentsIsCanonical(p, front + SentSegments(r));
  }

  lemma {:induction false} SentAreSegments(r: Request)
    requires Sendable(r) && Recoverable(r)
    ensures AllSegments(SentSegments(r))
  {
    if UsesNamespace(r) {
      EscapedIsSegmentIff(r.namespace);
    }
    if r.Get? {
      EscapedIsSegmentIff(r.name);
    }
  }

  // A path sent in canonical form has no dots in it.
  lemma {:induction false} CanonicalIsRecoverable(r: Request)
    requires Sendable(r) && CleanPath(BuildPath(r)) == BuildPath(r)
    requires UsesNamespace(r) ==> '/' !in r.namespace
    requires r.Get? ==> r.name != "" && '/' !in r.name
    ensures Recoverable(r)
  {
    BuiltSplit(r);
    CanonicalParts(BuildPath(r));
    var parts := Split(BuildPath(r));
    assert parts[4] == r.cluster && |parts| >= 6;
    if UsesNamespace(r) {
      assert parts[6] == PathEscape(r.namespace) && |parts| >= 8;
      EscapedIsSegmentIff(r.namespace);
    }
    if r.Get? {
      assert parts[|parts| - 1] == PathEscape(r.name);
      EscapedIsSegmentIff(r.name);
      EscapedIsNotEmpty(r.name);
    }
  }

  lemma EscapedIsNotEmpty(s: string)
    requires Bytes(s) && s != ""
    ensures PathEscape(s) != ""
  {
  }

  // ------------------------------------------------------------------ the theorem

  lemma {:induction false} RecoverableIsServed(r: Request)
    requires Sendable(r) && Recoverable(r)
    ensures Serve(BuildPath(r)) == Some(Expected(r))
  {
    DecodedOnArrival(r);
    RecoverableIsCanonical(r);
    DecodedIsBelowPrefix(r);
    PathSplit(r);
    InterpretSegments(r);
  }

  lemma {:induction false} ServedIsRecoverable(r: Request)
    requires Sendable(r) && Serve(BuildPath(r)) == Some(Expected(r))
    ensures Recoverable(r)
  {
    var raw := BuildPath(r);
    if CleanPath(raw) == raw {
      DecodedOnArrival(r);
      ParsedIsSlashFree(Decoded(r));
      CanonicalIsRecoverable(r);
    } else {
      ParsedFromCanonical(raw);
    }
  }

  /** The server understands exactly what the client asked for if and only if cluster, name
      and used namespace are non-empty segments without a slash and neither "." nor "..". */
  lemma {:induction false} RecoveredIffSegments(r: Request)
    requires Sendable(r)
    ensures Serve(BuildPath(r)) == Some(Expected(r)) <==> Recoverable(r)
  {
    if Recoverable(r) {
      RecoverableIsServed(r);
    } else if Serve(BuildPath(r)) == Some(Expected(r)) {
      ServedIsRecoverable(r);
    }
  }

  predicate AlphaNumeric(c: char) {
    'a' <= c <= 'z' || 'A' <= c <= 'Z' || '0' <= c <= '9'
  }

  // What the data source demands of a cluster identifier before any request.
  predicate ValidClusterID(s: string) {
    s != "" && AlphaNumeric(s[0]) && forall i :: 0 <= i < |s| ==> AlphaNumeric(s[i]) || s[i] in {'.', '_', '-'}
  }

  lemma ValidClusterIsPlainSegment(s: string)
    requires ValidClusterID(s)
    ensures Plain(s) && IsSegment(s)
  {
  }

  /** With a validated cluster only the used namespace and the name decide: the server
      understands the request if and only if they are segments. */
  lemma {:induction false} ValidatedRequestRecoveredIff(r: Request)
    requires ValidClusterID(r.cluster) && Plain(r.resource) && IsSegment(r.resource)
    requires Bytes(r.namespace) && (r.Get? ==> Bytes(r.name))
    ensures Serve(BuildPath(r)) == Some(Expected(r)) <==>
            (UsesNamespace(r) ==> IsSegment(r.namespace)) && (r.Get? ==> IsSegment(r.name))
  {
    ValidClusterIsPlainSegment(r.cluster);
    RecoveredIffSegments(r);
  }

  /** Different requests have different paths. */
  lemma {:induction false} PathsAreDistinct(r: Request, q: Request)
    requires Sendable(r) && Sendable(q) && Recoverable(r) && Recoverable(q)
    requires BuildPath(r) == BuildPath(q)
    ensures Expected(r) == Expected(q)
  {
    RecoveredIffSegments(r);
    RecoveredIffSegments(q);
  }

  // ------------------------------------------------- names that do not come through

  lemma {:induction false} EmptyNameAddsSlash(g: Request, l: Request)
    requires g.Get? && g.name == "" && l == List(g.cluster, g.namespace, g.resource)
    ensures Below(g) == Below(l) + "/"
    ensures Bytes(g.namespace) ==> BuildPath(g) == BuildPath(l) + "/"
  {
    assert Tail(g) == Tail(l) + "/";
    Regroup(g.cluster + SCOPE, g.namespace, Tail(l), "/");
    Regroup(g.cluster, Tail(l), "", "/");
    if Bytes(g.namespace) {
      assert TailRaw(g) == TailRaw(l) + "/";
      Regroup(Base(g) + SCOPE, PathEscape(g.namespace), TailRaw(l), "/");
      Regroup(Base(g), TailRaw(l), "", "/");
    }
  }

  lemma TrimOneSlash(s: string)
    ensures TrimRight(s + "/") == TrimRight(s)
  {
    assert (s + "/")[..|s|] == s;
  }

  /** A Get whose name is empty reaches the server as a List. */
  lemma {:induction false} EmptyNameBecomesList(cluster: string, namespace: string, resource: string)
    requires Sendable(List(cluster, namespace, resource)) && Recoverable(List(cluster, namespace, resource))
    ensures Serve(BuildPath(Get(cluster, namespace, resource, ""))) ==
            Some(Expected(List(cluster, namespace, resource)))
  {
    var g, l := Get(cluster, namespace, resource, ""), List(cluster, namespace, resource);
    DecodedOnArrival(g);
    DecodedOnArrival(l);
    RecoverableIsServed(l);
    RecoverableIsCanonical(l);
    DecodedIsBelowPrefix(g);
    DecodedIsBelowPrefix(l);
    EmptyNameAddsSlash(g, l);
    TrimOneSlash(Below(l));
  }

  lemma {:induction false} DotNameAddsDot(g: Request, l: Request)
    requires g.Get? && g.name == "." && l == List(g.cluster, g.namespace, g.resource) && Bytes(g.namespace)
    ensures BuildPath(g) == BuildPath(l) + "/."
  {
    DotsDecode();
    assert TailRaw(g) == TailRaw(l) + "/.";
    Regroup(Base(g) + SCOPE, PathEscape(g.namespace), TailRaw(l), "/.");
    Regroup(Base(g), TailRaw(l), "", "/.");
  }

  /** And so does a Get for the name ".", which the multiplexer cleans away. */
  lemma {:induction false} DotNameBecomesList(cluster: string, resource: string)
    requires Sendable(List(cluster, "", resource)) && Recoverable(List(cluster, "", resource))
    ensures Serve(BuildPath(Get(cluster, "", resource, "."))) == Some(Expected(List(cluster, "", resource)))
  {
    var g, l := Get(cluster, "", resource, "."), List(cluster, "", resource);
    DotNameAddsDot(g, l);
    RecoverableIsCanonical(l);
    RecoverableIsServed(l);
    DecodedOnArrival(l);
    UnescapedIsLiteral(l);
  }

  lemma UnescapedIsLiteral(l: Request)
    requires Sendable(l) && l.List? && l.namespace == ""
    ensures BuildPath(l) == Decoded(l)
  {
  }
}
