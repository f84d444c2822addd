/** Request paths of the dynamic MCP server (`DynamicRouter` in `datus/mcp_server.py`). */
module Router {
  import opened Wrappers
  import opened Text

  const MOUNT_PREFIXES: seq<string> := ["/sse/", "/mcp/"]

  /** Drop a mount prefix that Starlette left in place, keeping its last slash. */
  function Unmounted(path: string): string {
    if "/sse/" <= path then path[4..] else if "/mcp/" <= path then path[4..] else path
  }

  function Subpath(segments: seq<string>): string {
    if segments == [] then "/" else "/" + Join(segments, '/')
  }

  /** The datasource and subpath of a request path. */
  function Parsed(path: string): (Option<string>, string) {
    var parts := Split(Strip(Unmounted(path), '/'), '/');
    if parts[0] == "" then (None, "/") else (Some(parts[0]), Subpath(parts[1..]))
  }

  /** The two sides of the first `=`; the second is empty without one. */
  function Sides(piece: string): (string, string) {
    var parts := Split(piece, '=');
    (parts[0], Join(parts[1..], '='))
  }

  /** The first value given for `key`. Empty values do not count; `decode` undoes the
      percent-encoding of a name or value. */
  function FirstValue(pieces: seq<string>, key: string, decode: string -> string): Option<string> {
    if pieces == [] then None
    else
      var (name, value) := Sides(pieces[0]);
      if value != "" && decode(name) == key then Some(decode(value)) else FirstValue(pieces[1..], key, decode)
  }

  function SubagentOf(query: string, decode: string -> string): Option<string> {
    FirstValue(Split(query, '&'), "subagent", decode)
  }

  /** The datasource, subagent and subpath of a request. */
  function Request(path: string, query: string, decode: string -> string): (Option<string>, Option<string>, string) {
    var (datasource, subpath) := Parsed(path);
    (datasource, if datasource.Some? then SubagentOf(query, decode) else None, subpath)
  }

  method ParseRequest(path: string, query: string, decode: string -> string)
    returns (datasource: Option<string>, subagent: Option<string>, subpath: string)
    ensures (datasource, subagent, subpath) == Request(path, query, decode)
  {
    var rest := path;
    for i := 0 to |MOUNT_PREFIXES|
      invariant rest == path && forall j | 0 <= j < i :: !(MOUNT_PREFIXES[j] <= path)
    {
      if MOUNT_PREFIXES[i] <= path {
        rest := path[|MOUNT_PREFIXES[i]| - 1..];
        break;
      }
    }
    assert MOUNT_PREFIXES[0] == "/sse/" && MOUNT_PREFIXES[1] == "/mcp/";
    var parts := Split(Strip(rest, '/'), '/');
    if parts[0] == "" {
      return None, None, "/";
    }
    datasource := Some(parts[0]);
    subpath := if |parts| > 1 then "/" + Join(parts[1..], '/') else "/";
    subagent := None;
    if query != "" {
      subagent := SubagentOf(query, decode);
    }
  }

  /** The path that addresses a datasource and the segments below it. */
  function Printed(datasource: string, segments: seq<string>): string {
    "/" + Join([datasource] + segments, '/')
  }

  ghost predicate Printable(datasource: string, segments: seq<string>) {
    && datasource != "" && '/' !in datasource && AllWithout(segments, '/')
    && (segments != [] ==> segments[|segments| - 1] != "")
  }

  lemma UnmountedPathParses(path: string, datasource: string, segments: seq<string>)
    requires Printable(datasource, segments) && Unmounted(path) == Printed(datasource, segments)
    ensures Parsed(path) == (Some(datasource), if segments == [] then "/" else "/" + Join(segments, '/'))
  {
    var parts := [datasource] + segments;
    var joined := Join(parts, '/');
    JoinEnds(parts, '/');
    assert LStrip("/" + joined, '/') == joined by {
      assert ("/" + joined)[1..] == joined;
    }
    assert Strip("/" + joined, '/') == joined;
    SplitOfJoin(parts, '/');
    assert parts[1..] == segments;
  }

  /** When the mount leaves its prefix in the path, every printable request reads back. */
  lemma MountedRoundTrip(mount: string, datasource: string, segments: seq<string>)
    requires Printable(datasource, segments) && (mount == "/sse" || mount == "/mcp")
    ensures Parsed(mount + Printed(datasource, segments)) == (Some(datasource), if segments == [] then "/" else "/" + Join(segments, '/'))
  {
    var path := mount + Printed(datasource, segments);
    assert path[4..] == Printed(datasource, segments);
    UnmountedPathParses(path, datasource, segments);
  }

  predicate LooksMounted(datasource: string) {
    datasource == "sse" || datasource == "mcp"
  }

  lemma PrintedPrefix(datasource: string, segments: seq<string>)
    requires Printable(datasource, segments)
    ensures segments != [] ==> Printed(datasource, segments) == "/" + datasource + "/" + Join(segments, '/')
    ensures segments == [] ==> Printed(datasource, segments) == "/" + datasource
  {
    var parts := [datasource] + segments;
    assert parts[1..] == segments;
    if segments != [] {
      var rest := Join(segments, '/');
      assert Join(parts, '/') == datasource + ['/'] + rest;
      assert "/" + (datasource + ['/'] + rest) == "/" + datasource + "/" + rest;
    }
  }

  lemma PrintedSlashes(datasource: string, segments: seq<string>)
    requires Printable(datasource, segments)
    ensures var path := Printed(datasource, segments);
            && |path| > |datasource|
            && (forall i | 1 <= i <= |datasource| :: path[i] == datasource[i - 1] && path[i] != '/')
            && (if segments == [] then |path| == |datasource| + 1
                else |path| > |datasource| + 1 && path[|datasource| + 1] == '/')
  {
    PrintedPrefix(datasource, segments);
  }

  /** A mount name followed by a slash opens the path only of that very datasource. */
  lemma MountPrefixOf(name: string, datasource: string, segments: seq<string>)
    requires Printable(datasource, segments) && |name| == 3 && '/' !in name
    ensures ("/" + name + "/" <= Printed(datasource, segments)) <==> (datasource == name && segments != [])
  {
    PrintedPrefix(datasource, segments);
    var path, prefix := Printed(datasource, segments), "/" + name + "/";
    if prefix <= path {
      PrintedSlashes(datasource, segments);
      assert path[4] == prefix[4] == '/';
      assert forall i | 1 <= i < 4 :: path[i] == prefix[i] == name[i - 1] && path[i] != '/';
      assert datasource == path[1..4] == name;
    }
  }

  /** A shortened subpath: what is left after a segment was taken for the datasource. */
  lemma SwallowedPrefixShortens(prefix: string, rest: string)
    requires rest != "" && (prefix == "/sse/" || prefix == "/mcp/")
    ensures |Parsed(prefix + rest).1| < 1 + |rest|
  {
    assert (prefix + rest)[4..] == "/" + rest;
    var body := Strip("/" + rest, '/');
    assert |body| <= |rest| by {
      assert LStrip("/" + rest, '/') == LStrip(rest, '/') by {
        assert ("/" + rest)[1..] == rest;
      }
    }
    var parts := Split(body, '/');
    JoinOfSplit(body, '/');
  }

  lemma MountPath(datasource: string, rest: string)
    requires LooksMounted(datasource)
    ensures var prefix := if datasource == "sse" then "/sse/" else "/mcp/";
            "/" + datasource + "/" + rest == prefix + rest
  {
    assert "/" + "sse" + "/" == "/sse/" && "/" + "mcp" + "/" == "/mcp/";
  }

  lemma MountLookalike(datasource: string, segments: seq<string>)
    requires Printable(datasource, segments) && LooksMounted(datasource) && segments != []
    ensures Parsed(Printed(datasource, segments)) != (Some(datasource), if segments == [] then "/" else "/" + Join(segments, '/'))
  {
    var rest := Join(segments, '/');
    PrintedPrefix(datasource, segments);
    JoinEnds(segments, '/');
    MountPath(datasource, rest);
    SwallowedPrefixShortens(if datasource == "sse" then "/sse/" else "/mcp/", rest);
  }

  /** When the mount was stripped, a request reads back exactly unless its datasource is named
      like a mount and something follows it. */
  lemma StrippedRoundTripIff(datasource: string, segments: seq<string>)
    requires Printable(datasource, segments)
    ensures Parsed(Printed(datasource, segments)) == (Some(datasource), if segments == [] then "/" else "/" + Join(segments, '/')) <==>
            !(LooksMounted(datasource) && segments != [])
  {
    if LooksMounted(datasource) && segments != [] {
      MountLookalike(datasource, segments);
    } else {
      MountPrefixOf("sse", datasource, segments);
      MountPrefixOf("mcp", datasource, segments);
      assert "/sse/" == "/" + "sse" + "/" && "/mcp/" == "/" + "mcp" + "/";
      UnmountedPathParses(Printed(datasource, segments), datasource, segments);
    }
  }

  // ---------------------------------------------------------------- the query

  datatype Parameter = Parameter(name: string, value: string)

  function Pieces(parameters: seq<Parameter>, encode: string -> string): seq<string> {
    seq(|parameters|, i requires 0 <= i < |parameters| =>
      encode(parameters[i].name) + "=" + encode(parameters[i].value))
  }

  /** What a client sends for a list of parameters. */
  function Query(parameters: seq<Parameter>, encode: string -> string): string {
    Join(Pieces(parameters, encode), '&')
  }

  /** The encoding of the text can be undone and hides the separator of parameters. */
  predicate Encodes(text: string, encode: string -> string, decode: string -> string) {
    decode(encode(text)) == text && '&' !in encode(text) && (encode(text) == "" <==> text == "")
  }

  ghost predicate Encodable(parameters: seq<Parameter>, encode: string -> string, decode: string -> string) {
    forall p <- parameters :: Encodes(p.name, encode, decode) && '=' !in encode(p.name) && Encodes(p.value, encode, decode)
  }

  function Chosen(parameters: seq<Parameter>, key: string): Option<string> {
    if parameters == [] then None
    else if parameters[0].name == key && parameters[0].value != "" then Some(parameters[0].value)
    else Chosen(parameters[1..], key)
  }

  lemma SidesOf(name: string, value: string)
    requires '=' !in name
    ensures Sides(name + "=" + value) == (name, value) && Sides(name) == (name, "")
  {
    SplitAtFirst(name, value, '=');
    SplitFree(name, '=');
    JoinOfSplit(value, '=');
    assert ([name] + Split(value, '='))[1..] == Split(value, '=');
  }

  /** A piece without a value is passed over. */
  lemma BarePieceIsIgnored(piece: string, pieces: seq<string>, key: string, decode: string -> string)
    requires '=' !in piece
    ensures FirstValue([piece] + pieces, key, decode) == FirstValue(pieces, key, decode)
  {
    SidesOf(piece, "");
    assert ([piece] + pieces)[1..] == pieces;
  }

  lemma {:induction false} FirstOfPieces(parameters: seq<Parameter>, key: string, encode: string -> string, decode: string -> string)
    requires Encodable(parameters, encode, decode)
    ensures FirstValue(Pieces(parameters, encode), key, decode) == Chosen(parameters, key)
  {
    if parameters != [] {
      SidesOf(encode(parameters[0].name), encode(parameters[0].value));
      FirstOfPieces(parameters[1..], key, encode, decode);
      assert Pieces(parameters, encode)[1..] == Pieces(parameters[1..], encode);
    }
  }

  /** The subagent read from a query is the first non-empty value the client gave for it. */
  lemma QueryRoundTrip(parameters: seq<Parameter>, encode: string -> string, decode: string -> string)
    requires Encodable(parameters, encode, decode)
    ensures SubagentOf(Query(parameters, encode), decode) == Chosen(parameters, "subagent")
  {
    var pieces := Pieces(parameters, encode);
    if parameters == [] {
      assert Split("", '&') == [""] && Sides("").1 == "";
    } else {
      forall i | 0 <= i < |pieces| ensures '&' !in pieces[i] {
        assert Encodes(parameters[i].name, encode, decode) && Encodes(parameters[i].value, encode, decode);
      }
      SplitOfJoin(pieces, '&');
      FirstOfPieces(parameters, "subagent", encode, decode);
    }
  }

  // ---------------------------------------------------------------- whole requests

  /** The subagent of a query in terms of what the client sent: the value of the first parameter
      of that name that is not empty, or none. */
  lemma {:induction false} ChosenAt(parameters: seq<Parameter>, key: string, i: nat)
    requires i <= |parameters|
    requires forall j | 0 <= j < i :: parameters[j].name != key || parameters[j].value == ""
    ensures i == |parameters| ==> Chosen(parameters, key) == None
    ensures i < |parameters| && parameters[i].name == key && parameters[i].value != "" ==>
              Chosen(parameters, key) == Some(parameters[i].value)
  {
    if i > 0 {
      ChosenAt(parameters[1..], key, i - 1);
    }
  }

  /** A request that a client addresses to a datasource, with parameters among which the `i`th is
      the first usable subagent, if any, is read as exactly that. */
  lemma RequestRoundTrip(mount: string, datasource: string, segments: seq<string>, parameters: seq<Parameter>, i: nat,
                         encode: string -> string, decode: string -> string)
    requires Printable(datasource, segments) && (mount == "/sse" || mount == "/mcp") && Encodable(parameters, encode, decode)
    requires i <= |parameters| && forall j | 0 <= j < i :: parameters[j].name != "subagent" || parameters[j].value == ""
    requires i < |parameters| ==> parameters[i].name == "subagent" && parameters[i].value != ""
    ensures Request(mount + Printed(datasource, segments), Query(parameters, encode), decode)
            == (Some(datasource), if i < |parameters| then Some(parameters[i].value) else None,
                if segments == [] then "/" else "/" + Join(segments, '/'))
  {
    MountedRoundTrip(mount, datasource, segments);
    QueryRoundTrip(parameters, encode, decode);
    ChosenAt(parameters, "subagent", i);
  }

  predicate Slashes(s: string) {
    forall i | 0 <= i < |s| :: s[i] == '/'
  }

  lemma {:induction false} LStripped(before: string, s: string)
    requires Slashes(before) && (s == "" || s[0] != '/')
    ensures LStrip(before + s, '/') == s
  {
    if before == "" {
      assert before + s == s;
    } else {
      assert (before + s)[1..] == before[1..] + s;
      LStripped(before[1..], s);
    }
  }

  lemma {:induction false} RStripped(s: string, after: string)
    requires Slashes(after) && (s == "" || s[|s| - 1] != '/')
    ensures RStrip(s + after, '/') == s
  {
    if after == "" {
      assert s + after == s;
    } else {
      assert (s + after)[..|s + after| - 1] == s + after[..|after| - 1];
      RStripped(s, after[..|after| - 1]);
    }
  }

  /** Slashes around a path make no difference, and a path of slashes addresses no datasource. */
  lemma SlashesAround(before: string, s: string, after: string)
    requires Slashes(before) && Slashes(after) && s != "" && s[0] != '/' && s[|s| - 1] != '/'
    requires Unmounted(before + s + after) == before + s + after
    ensures Parsed(before + s + after).0 == Some(Split(s, '/')[0])
    ensures Unmounted(before + after) == before + after ==> Parsed(before + after) == (None, "/")
  {
    assert before + s + after == before + (s + after);
    LStripped(before, s + after);
    RStripped(s, after);
    SplitHead(s, '/');
    LStripped(before + after, "");
    assert (before + after) + "" == before + after;
  }

  lemma SplitHead(s: string, c: char)
    requires s != "" && s[0] != c
    ensures Split(s, c)[0] != ""
  {
  }
}
