/**
 * The MCP client manager's transport choice: a configuration that runs the
 * AKTools server through `npx` with a `--key` argument is reached over HTTP
 * at the hosted endpoint, with the key form-encoded into the query string;
 * every other configuration is started as a local process over stdio. The
 * sessions themselves are oracles.
 */
module McpService {
  import opened Wrappers
  import opened Strings
  import opened JsonValues

  const Npx: string := "npx"
  const AkTools: string := "@aahl/mcp-aktools"
  const KeyFlag: string := "--key"
  const BaseUrl: string := "https://server.smithery.ai/@aahl/mcp-aktools/mcp"
  const KeyQuery: string := "?api_key="

  // ---------------------------------------------------------------------
  // Form encoding (`urlencode` with `quote_plus`)

  /** The characters `quote_plus` never escapes: letters, digits and `_.-~`. */
  predicate Unreserved(c: char) {
    ('A' <= c <= 'Z') || ('a' <= c <= 'z') || ('0' <= c <= '9') || c == '_' || c == '.' || c == '-' || c == '~'
  }

  /** The UTF-8 bytes of one code point. */
  function Utf8(c: char): (r: seq<int>)
    ensures 1 <= |r| <= 4
    ensures forall k :: 0 <= k < |r| ==> 0 <= r[k] < 256
    ensures (c as int) < 0x80 ==> r == [c as int]
  {
    var cp := c as int;
    if cp < 0x80 then [cp]
    else if cp < 0x800 then [0xC0 + cp / 64, 0x80 + cp % 64]
    else if cp < 0x10000 then [0xE0 + cp / 4096, 0x80 + (cp / 64) % 64, 0x80 + cp % 64]
    else [0xF0 + cp / 262144, 0x80 + (cp / 4096) % 64, 0x80 + (cp / 64) % 64, 0x80 + cp % 64]
  }

  /** The UTF-8 encoding of a text. */
  function Utf8Encode(s: string): seq<int> {
    if s == [] then [] else Utf8(s[0]) + Utf8Encode(s[1..])
  }

  const HexDigits: string := "0123456789ABCDEF"

  /** `%XX` with upper-case hex digits. */
  function Escape(b: int): (r: string)
    requires 0 <= b < 256
    ensures |r| == 3 && r[0] == '%'
  {
    ['%', HexDigits[b / 16], HexDigits[b % 16]]
  }

  function EscapeAll(bytes: seq<int>): (r: string)
    requires forall k :: 0 <= k < |bytes| ==> 0 <= bytes[k] < 256
    ensures |r| == 3 * |bytes|
  {
    if bytes == [] then [] else Escape(bytes[0]) + EscapeAll(bytes[1..])
  }

  /** One character as `quote_plus` writes it. */
  function QuoteChar(c: char): string {
    if Unreserved(c) then [c]
    else if c == ' ' then "+"
    else EscapeAll(Utf8(c))
  }

  /** `quote_plus(s, safe='')` */
  function QuotePlus(s: string): (r: string)
    ensures |r| >= |s|
  {
    if s == [] then [] else QuoteChar(s[0]) + QuotePlus(s[1..])
  }

  /** A character that may appear in form-encoded text. */
  predicate FormSafe(c: char) {
    Unreserved(c) || c == '+' || c == '%'
  }

  /** Form-encoded text holds only letters, digits, `_.-~`, `+` and `%`. */
  lemma {:induction false} QuotePlusSafe(s: string)
    ensures forall k :: 0 <= k < |QuotePlus(s)| ==> FormSafe(QuotePlus(s)[k])
  {
    if s != [] {
      QuotePlusSafe(s[1..]);
      var q := QuoteChar(s[0]);
      if !Unreserved(s[0]) && s[0] != ' ' {
        EscapeAllSafe(Utf8(s[0]));
      }
      var r := QuotePlus(s);
      forall k | 0 <= k < |r|
        ensures FormSafe(r[k])
      {
        if k >= |q| {
          assert r[k] == QuotePlus(s[1..])[k - |q|];
        }
      }
    }
  }

  lemma {:induction false} EscapeAllSafe(bytes: seq<int>)
    requires forall k :: 0 <= k < |bytes| ==> 0 <= bytes[k] < 256
    ensures forall k :: 0 <= k < |EscapeAll(bytes)| ==> FormSafe(EscapeAll(bytes)[k])
  {
    if bytes != [] {
      EscapeAllSafe(bytes[1..]);
      var e := Escape(bytes[0]);
      assert forall k :: 0 <= k < 3 ==> FormSafe(e[k]);
      var r := EscapeAll(bytes);
      forall k | 0 <= k < |r|
        ensures FormSafe(r[k])
      {
        if k >= 3 {
          assert r[k] == EscapeAll(bytes[1..])[k - 3];
        }
      }
    }
  }

  /** The value of a hex digit as `HexDigits` writes it, or -1. */
  function HexValue(c: char): (v: int)
    ensures -1 <= v < 16
  {
    if '0' <= c <= '9' then c as int - '0' as int
    else if 'A' <= c <= 'F' then c as int - 'A' as int + 10
    else -1
  }

  lemma HexDigitValue(d: int)
    requires 0 <= d < 16
    ensures HexValue(HexDigits[d]) == d
  {
  }

  /** Form decoding down to bytes: `+` is a space, `%XX` a byte, any other character its own code. */
  function FormDecode(s: string): seq<int>
    decreases |s|
  {
    if s == [] then []
    else if s[0] == '%' && |s| >= 3 && HexValue(s[1]) >= 0 && HexValue(s[2]) >= 0 then
      [16 * HexValue(s[1]) + HexValue(s[2])] + FormDecode(s[3..])
    else if s[0] == '+' then [' ' as int] + FormDecode(s[1..])
    else [s[0] as int] + FormDecode(s[1..])
  }

  lemma DecodeEscape(b: int, rest: string)
    requires 0 <= b < 256
    ensures FormDecode(Escape(b) + rest) == [b] + FormDecode(rest)
  {
    HexDigitValue(b / 16);
    HexDigitValue(b % 16);
    var s := Escape(b) + rest;
    assert s[1] == HexDigits[b / 16] && s[2] == HexDigits[b % 16];
    assert s[3..] == rest;
  }

  lemma Regroup(a: string, b: string, c: string)
    ensures (a + b) + c == a + (b + c)
  {
  }

  lemma {:induction false} DecodeEscapes(bytes: seq<int>, rest: string)
    requires forall k :: 0 <= k < |bytes| ==> 0 <= bytes[k] < 256
    ensures FormDecode(EscapeAll(bytes) + rest) == bytes + FormDecode(rest)
  {
    if bytes != [] {
      var tail := EscapeAll(bytes[1..]);
      assert EscapeAll(bytes) == Escape(bytes[0]) + tail;
      Regroup(Escape(bytes[0]), tail, rest);
      DecodeEscape(bytes[0], tail + rest);
      DecodeEscapes(bytes[1..], rest);
      assert bytes == [bytes[0]] + bytes[1..];
    } else {
      assert EscapeAll(bytes) + rest == rest;
    }
  }

  lemma DecodeChar(c: char, rest: string)
    ensures FormDecode(QuoteChar(c) + rest) == Utf8(c) + FormDecode(rest)
  {
    if Unreserved(c) || c == ' ' {
      assert (QuoteChar(c) + rest)[1..] == rest;
    } else {
      DecodeEscapes(Utf8(c), rest);
    }
  }

  /** Form decoding recovers exactly the UTF-8 bytes of the encoded text. */
  lemma {:induction false} FormDecodeQuotePlus(s: string)
    ensures FormDecode(QuotePlus(s)) == Utf8Encode(s)
  {
    if s != [] {
      FormDecodeQuotePlus(s[1..]);
      DecodeChar(s[0], QuotePlus(s[1..]));
    }
  }

  /** Text made only of unreserved characters is left as it is. */
  lemma {:induction false} QuotePlusUnreserved(s: string)
    requires forall k :: 0 <= k < |s| ==> Unreserved(s[k])
    ensures QuotePlus(s) == s
  {
    if s != [] {
      QuotePlusUnreserved(s[1..]);
    }
  }

  // ---------------------------------------------------------------------
  // The HTTP endpoint

  /** `args.index(flag)`: the first position of the argument, or -1. */
  function ArgIndex(args: seq<string>, flag: string): (r: int)
    ensures -1 <= r < |args|
    ensures r == -1 <==> flag !in args
    ensures r != -1 ==> args[r] == flag && flag !in args[..r]
  {
    if args == [] then -1
    else if args[0] == flag then 0
    else
      var r := ArgIndex(args[1..], flag);
      if r == -1 then -1
      else
        assert args[..r + 1] == [args[0]] + args[1..][..r];
        r + 1
  }

  /** The argument after the first `--key`, if there is one. */
  function ApiKey(args: seq<string>): (r: Option<string>)
    ensures r.Some? <==> KeyFlag in args && ArgIndex(args, KeyFlag) + 1 < |args|
  {
    var idx := ArgIndex(args, KeyFlag);
    if idx != -1 && idx + 1 < |args| then Some(args[idx + 1]) else None
  }

  /** `_build_http_url(command, args)` */
  function BuildHttpUrl(command: string, args: seq<string>): (r: Option<string>)
    ensures r.Some? <==> command == Npx && AkTools in args && ApiKey(args).Some? && ApiKey(args).value != ""
    ensures r.Some? ==> r.value == BaseUrl + KeyQuery + QuotePlus(ApiKey(args).value)
  {
    if command != Npx then None
    else if AkTools !in args then None
    else match ApiKey(args)
      case None => None
      case Some(key) => if key == "" then None else Some(BaseUrl + KeyQuery + QuotePlus(key))
  }

  /**
   * The key is the argument right after the first `--key`, and decoding the
   * URL's query value gives back its UTF-8 bytes; a later `--key` is ignored.
   */
  lemma UrlCarriesKey(command: string, args: seq<string>)
    requires BuildHttpUrl(command, args).Some?
    ensures var url := BuildHttpUrl(command, args).value;
            var i := ArgIndex(args, KeyFlag);
            StartsWith(url, BaseUrl + KeyQuery)
            && FormDecode(url[|BaseUrl + KeyQuery|..]) == Utf8Encode(args[i + 1])
            && KeyFlag !in args[..i]
  {
    var key := ApiKey(args).value;
    PrefixThenRest(BaseUrl + KeyQuery, QuotePlus(key));
    FormDecodeQuotePlus(key);
  }

  /** A concatenation starts with its first part, and the rest of it is the second. */
  lemma PrefixThenRest(head: string, tail: string)
    ensures StartsWith(head + tail, head) && (head + tail)[|head|..] == tail
  {
    assert (head + tail)[..|head|] == head;
  }

  /** A configuration argument list as the AKTools setup writes it yields the expected URL. */
  lemma SetupUrl(key: string)
    requires key != "" && forall k :: 0 <= k < |key| ==> Unreserved(key[k])
    ensures BuildHttpUrl(Npx, ["-y", "@smithery/cli@latest", "run", AkTools, KeyFlag, key]) == Some(BaseUrl + KeyQuery + key)
  {
    var args := ["-y", "@smithery/cli@latest", "run", AkTools, KeyFlag, key];
    assert args[3] == AkTools;
    assert ArgIndex(args, KeyFlag) == 4 by {
      assert args[4] == KeyFlag;
      assert "-y" != KeyFlag && "@smithery/cli@latest" != KeyFlag && "run" != KeyFlag;
      assert AkTools != KeyFlag by { assert AkTools[0] != KeyFlag[0]; }
      assert args[1..][1..][1..][1..] == [KeyFlag, key];
    }
    QuotePlusUnreserved(key);
  }

  // ---------------------------------------------------------------------
  // Transport choice and the two session calls

  /** How the server is reached. */
  datatype Transport =
    | Http(url: string)
    | Stdio(command: string, args: seq<string>)

  /** HTTP exactly when an endpoint URL can be built, the local process otherwise. */
  function Route(command: string, args: seq<string>): (t: Transport)
    ensures t.Http? <==> BuildHttpUrl(command, args).Some?
    ensures t.Http? ==> t.url == BuildHttpUrl(command, args).value
    ensures t.Stdio? ==> t.command == command && t.args == args
  {
    match BuildHttpUrl(command, args)
    case Some(url) =>
      assert |url| > 0 by { assert |BaseUrl| > 0; }
      Http(url)
    case None => Stdio(command, args)
  }

  /** A tool as the server lists it. */
  datatype ServerTool = ServerTool(name: string, description: Json, inputSchema: Json)

  /** `{"name": ..., "description": ..., "input_schema": ...}` */
  datatype ToolInfo = ToolInfo(name: string, description: Json, inputSchema: Json)

  /**
   * `list_tools(command, args)`: one entry per tool the server lists over
   * the chosen transport, in the server's order, with its name, description
   * and input schema.
   */
  method ListTools(command: string, args: seq<string>, listed: Transport -> seq<ServerTool>)
    returns (tools: seq<ToolInfo>)
    ensures var server := listed(Route(command, args));
            |tools| == |server|
            && forall k :: 0 <= k < |tools| ==>
                 tools[k] == ToolInfo(server[k].name, server[k].description, server[k].inputSchema)
  {
    var server := listed(Route(command, args));
    tools := [];
    var i := 0;
    while i < |server|
      invariant 0 <= i <= |server| && |tools| == i
      invariant forall k :: 0 <= k < i ==> tools[k] == ToolInfo(server[k].name, server[k].description, server[k].inputSchema)
    {
      tools := tools + [ToolInfo(server[i].name, server[i].description, server[i].inputSchema)];
      i := i + 1;
    }
  }

  /** `call_tool(command, args, tool_name, tool_args)`: the session's result over the chosen transport. */
  function CallTool(command: string, args: seq<string>, toolName: string, toolArgs: Json,
                    call: (Transport, string, Json) -> Json): (r: Json)
    ensures BuildHttpUrl(command, args).Some? ==> r == call(Http(BuildHttpUrl(command, args).value), toolName, toolArgs)
    ensures BuildHttpUrl(command, args).None? ==> r == call(Stdio(command, args), toolName, toolArgs)
  {
    call(Route(command, args), toolName, toolArgs)
  }
}
