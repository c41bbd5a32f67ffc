/** What the CLI commands share: the context the top-level group stores, the optional
    bearer header, the choice between a JSON dump, a YAML dump and the rich table, the
    three-band score colour, and the reformatting of ISO timestamps in tables. */
module CliCommon {

  import opened Wrappers
  import Lists

  /** `ctx.obj`: the endpoint, the optional API key and the output format. */
  datatype Context = Context(endpoint: string, apiKey: Option<string>, output: string)

  const BearerPrefix: string := "Bearer "

  /** `--namespace` when it is not given, for every command that takes one. */
  const DefaultNamespace: string := "default"

  /** `{"Authorization": f"Bearer {api_key}"} if api_key else {}`. */
  function AuthHeaders(apiKey: Option<string>): (h: map<string, string>)
    ensures h.Keys <= {"Authorization"}
    ensures "Authorization" in h <==> Truthy(apiKey)
  {
    if Truthy(apiKey) then map["Authorization" := BearerPrefix + apiKey.value] else map[]
  }

  /** The key can be read back from the header: it is sent as it is, after `Bearer `. */
  lemma AuthHeadersCarryKey(apiKey: Option<string>)
    requires Truthy(apiKey)
    ensures |AuthHeaders(apiKey)["Authorization"]| == |BearerPrefix| + |apiKey.value|
    ensures AuthHeaders(apiKey)["Authorization"][..|BearerPrefix|] == BearerPrefix
    ensures AuthHeaders(apiKey)["Authorization"][|BearerPrefix|..] == apiKey.value
  {
    var v := AuthHeaders(apiKey)["Authorization"];
    assert v == BearerPrefix + apiKey.value;
  }

  /** A value in a request's JSON body. */
  datatype Scalar = Str(s: string) | Int(i: int)

  /** One HTTP call: method, URL, JSON body (empty for a GET) and headers. */
  datatype Request = Request(verb: string, url: string, body: map<string, Scalar>, headers: map<string, string>)

  /** What came of a call: the decoded body, or the `httpx.HTTPError` raised by the call or
      by `raise_for_status`. */
  datatype HttpAnswer<+T> = Answered(body: T) | HttpError(msg: string)

  /** The line a command prints before `SystemExit(1)` when the call fails. */
  function ConnectError(msg: string): string {
    "Error: Failed to connect to Helios: " + msg
  }

  /** How a command prints its result. */
  datatype Rendering = JsonDump | YamlDump | TableView

  /** `if output_format == "json" … elif output_format == "yaml" … else` the table. */
  function RenderingOf(format: string): (r: Rendering)
    ensures r == JsonDump <==> format == "json"
    ensures r == YamlDump <==> format == "yaml"
  {
    if format == "json" then JsonDump else if format == "yaml" then YamlDump else TableView
  }

  /** `"green" if x >= 80 else "yellow" if x >= 60 else "red"`. */
  function BandColour(x: real): (c: string)
    ensures c == "green" <==> x >= 80.0
    ensures c == "yellow" <==> 60.0 <= x < 80.0
    ensures c == "red" <==> x < 60.0
  {
    if x >= 80.0 then "green" else if x >= 60.0 then "yellow" else "red"
  }

  /** red < yellow < green. */
  function ColourRank(c: string): nat {
    if c == "green" then 2 else if c == "yellow" then 1 else 0
  }

  /** A higher score never gets a worse colour. */
  lemma BandColourMonotone(x: real, y: real)
    requires x <= y
    ensures ColourRank(BandColour(x)) <= ColourRank(BandColour(y))
  {
  }

  // ---------------------------------------------------------------- timestamps

  /** `s.replace("Z", "+00:00")`: every `Z`, not only a trailing one, is replaced. */
  function ReplaceZ(s: string): (r: string)
    ensures 'Z' !in r
  {
    if s == [] then []
    else (if s[0] == 'Z' then "+00:00" else [s[0]]) + ReplaceZ(s[1..])
  }

  lemma {:induction false} ReplaceZAppend(a: string, b: string)
    ensures ReplaceZ(a + b) == ReplaceZ(a) + ReplaceZ(b)
  {
    if a == [] {
      assert a + b == b;
    } else {
      var head := if a[0] == 'Z' then "+00:00" else [a[0]];
      assert (a + b)[0] == a[0];
      assert (a + b)[1..] == a[1..] + b;
      ReplaceZAppend(a[1..], b);
      assert ReplaceZ(a + b) == head + ReplaceZ(a[1..] + b);
      assert ReplaceZ(a) == head + ReplaceZ(a[1..]);
      Lists.AppendAssoc(head, ReplaceZ(a[1..]), ReplaceZ(b));
    }
  }

  lemma {:induction false} ReplaceZNoZ(s: string)
    requires 'Z' !in s
    ensures ReplaceZ(s) == s
  {
    if s != [] {
      assert s[0] in s;
      assert 'Z' !in s[1..] by {
        assert forall c :: c in s[1..] ==> c in s;
      }
      ReplaceZNoZ(s[1..]);
      assert s == [s[0]] + s[1..];
    }
  }

  /** A timestamp ending in `Z` and holding no other `Z` is read as UTC: the `Z` becomes
      `+00:00` and nothing else changes. */
  lemma ReplaceZTrailing(s: string)
    requires 'Z' !in s
    ensures ReplaceZ(s + "Z") == s + "+00:00"
  {
    ReplaceZAppend(s, "Z");
    ReplaceZNoZ(s);
    assert ReplaceZ("Z") == "+00:00" + ReplaceZ([]);
  }

  /** The `Time` cell of a table row. `timestamp` is the field (absent for `None`), and
      `reformat` is `datetime.fromisoformat` followed by `strftime("%Y-%m-%d %H:%M")`,
      `None` when it raises `ValueError`. A missing or empty timestamp shows as `""`, and
      one that does not parse is shown as it came. */
  function TimeCell(timestamp: Option<string>, reformat: string -> Option<string>): (cell: string)
    ensures !Truthy(timestamp) ==> cell == ""
    ensures Truthy(timestamp) && reformat(ReplaceZ(timestamp.value)).None? ==> cell == timestamp.value
    ensures Truthy(timestamp) && reformat(ReplaceZ(timestamp.value)).Some? ==> cell == reformat(ReplaceZ(timestamp.value)).value
  {
    var ts := timestamp.GetOr("");
    if ts == "" then ts
    else match reformat(ReplaceZ(ts))
      case Some(formatted) => formatted
      case None => ts
  }
}
