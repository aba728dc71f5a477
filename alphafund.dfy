/**
 * The AlphaFund research team: a chain of model calls (deep researcher,
 * market analyst, quant analyst, portfolio manager, critic, risk officer)
 * that share one growing list of agent messages. The HTTP request to the
 * model service is the oracle `post`, `json.loads` the oracle `parse`, and
 * whether an API key is configured the flag `configured`.
 */
module AlphaFund {
  import opened Wrappers
  import opened Strings
  import opened JsonValues

  // ---------------------------------------------------------------------
  // The model service call

  /** A search source. */
  datatype Source = Source(title: string, url: string)

  /** `{"text": ..., "sources": [...]}` */
  datatype GeminiResult = GeminiResult(text: string, sources: seq<Source>)

  /** A grounding chunk's `web` entry; an absent key is `None`. */
  datatype Web = Web(uri: Option<string>, title: Option<string>)

  /**
   * A response candidate: the `text` of each content part (`None` for a part
   * without one) and the `web` entry of each grounding chunk.
   */
  datatype Candidate = Candidate(parts: seq<Option<string>>, chunks: seq<Option<Web>>)

  /**
   * What the HTTP request gives: a status, the body text and the decoded
   * candidates (or the error decoding raised), or the exception the request
   * itself raised.
   */
  datatype HttpOutcome =
    | Http(status: int, body: string, decoded: Result<seq<Candidate>>)
    | NetworkError(error: string)

  /**
   * The prompts the agents send; `PromptText` renders each to the exact
   * text that goes into the request.
   */
  datatype Prompt =
    | DeepBrief(topic: string)
    | MarketBrief(topic: string, context: string)
    | QuantBrief(topic: string, context: string)
    | ManagerBrief(topic: string, context: string)
    | CriticBrief(context: string)
    | RiskBrief(context: string)

  /**
   * The request carrying `PromptText(prompt)`, as a function of the prompt,
   * the search switch and the temperature in tenths.
   */
  type Post = (Prompt, bool, nat) -> HttpOutcome

  const NotConfigured: string := "⚠️ Gemini API 未配置"
  const ApiError: string := "⚠️ API 错误: HTTP "
  const RequestFailed: string := "⚠️ 请求失败: "

  /** `text += part["text"]` over the parts that have a text. */
  function PartsText(parts: seq<Option<string>>): string {
    if parts == [] then ""
    else PartsText(parts[..|parts| - 1]) + parts[|parts| - 1].GetOr("")
  }

  /** A `web` entry with a truthy uri and a truthy title. */
  predicate Cited(chunk: Option<Web>) {
    chunk.Some? && chunk.value.uri.Some? && chunk.value.uri.value != ""
    && chunk.value.title.Some? && chunk.value.title.value != ""
  }

  /** `{"title": web["title"], "url": web["uri"]}` */
  function SourceOf(chunk: Option<Web>): Source
    requires Cited(chunk)
  {
    Source(chunk.value.title.value, chunk.value.uri.value)
  }

  /** The sources of the chunks whose `web` entry has both a uri and a title, in order. */
  function WebSources(chunks: seq<Option<Web>>): (r: seq<Source>)
    ensures |r| <= |chunks|
    ensures forall k :: 0 <= k < |chunks| && Cited(chunks[k]) ==> SourceOf(chunks[k]) in r
    ensures forall s :: s in r ==> exists k :: 0 <= k < |chunks| && Cited(chunks[k]) && s == SourceOf(chunks[k])
  {
    if chunks == [] then []
    else
      var last := chunks[|chunks| - 1];
      var front := chunks[..|chunks| - 1];
      assert forall k :: 0 <= k < |front| ==> front[k] == chunks[k];
      WebSources(front) + (if Cited(last) then [SourceOf(last)] else [])
  }

  /** Collecting over two runs of chunks is collecting over each, in order. */
  lemma {:induction false} WebSourcesAppend(a: seq<Option<Web>>, b: seq<Option<Web>>)
    ensures WebSources(a + b) == WebSources(a) + WebSources(b)
    decreases |b|
  {
    if b == [] {
      assert a + b == a;
    } else {
      var front := b[..|b| - 1];
      assert (a + b)[..|a + b| - 1] == a + front;
      WebSourcesAppend(a, front);
    }
  }

  /**
   * Each chunk contributes its own source, and nothing else, at its place:
   * one source for a cited chunk, none for any other.
   */
  lemma WebSourcesAround(a: seq<Option<Web>>, chunk: Option<Web>, b: seq<Option<Web>>)
    ensures WebSources(a + [chunk] + b)
            == WebSources(a) + (if Cited(chunk) then [SourceOf(chunk)] else []) + WebSources(b)
  {
    WebSourcesAppend(a + [chunk], b);
    WebSourcesAppend(a, [chunk]);
    assert [chunk][..0] == [];
  }

  /** Some source in `ss` has the url. */
  predicate HasUrl(ss: seq<Source>, url: string) {
    exists k :: 0 <= k < |ss| && ss[k].url == url
  }

  /** Where the url sits in a list of sources with distinct urls, or -1. */
  function UrlIndex(d: seq<Source>, url: string): (r: int)
    ensures -1 <= r < |d|
    ensures r == -1 <==> !HasUrl(d, url)
    ensures r >= 0 ==> d[r].url == url
  {
    if d == [] then -1
    else if d[|d| - 1].url == url then |d| - 1
    else UrlIndex(d[..|d| - 1], url)
  }

  /** `d[s["url"]] = s` on an insertion-ordered dictionary of sources keyed by url. */
  function Insert(d: seq<Source>, s: Source): seq<Source> {
    var i := UrlIndex(d, s.url);
    if i == -1 then d + [s] else d[i := s]
  }

  /** `list({s["url"]: s for s in sources}.values())` */
  function Dedup(ss: seq<Source>): seq<Source> {
    if ss == [] then [] else Insert(Dedup(ss[..|ss| - 1]), ss[|ss| - 1])
  }

  /** No two sources share a url. */
  predicate DistinctUrls(d: seq<Source>) {
    forall i, j :: 0 <= i < j < |d| ==> d[i].url != d[j].url
  }

  /** The last source with the url. */
  function LastWith(ss: seq<Source>, url: string): Option<Source> {
    if ss == [] then None
    else if ss[|ss| - 1].url == url then Some(ss[|ss| - 1])
    else LastWith(ss[..|ss| - 1], url)
  }

  /** Where the url first appears. */
  function FirstAt(ss: seq<Source>, url: string): (r: nat)
    ensures r <= |ss|
    ensures r < |ss| ==> ss[r].url == url
    ensures forall k :: 0 <= k < r ==> ss[k].url != url
  {
    if ss == [] then 0
    else if ss[0].url == url then 0
    else 1 + FirstAt(ss[1..], url)
  }

  /** Deduplication keeps exactly one source per url: the urls are distinct and no url is lost or invented. */
  lemma {:induction false} DedupUrls(ss: seq<Source>)
    ensures DistinctUrls(Dedup(ss))
    ensures forall url :: HasUrl(Dedup(ss), url) <==> HasUrl(ss, url)
  {
    if ss != [] {
      var prefix := ss[..|ss| - 1];
      var s := ss[|ss| - 1];
      var d := Dedup(prefix);
      DedupUrls(prefix);
      var i := UrlIndex(d, s.url);
      forall url
        ensures HasUrl(ss, url) <==> HasUrl(prefix, url) || url == s.url
      {
        if HasUrl(ss, url) && url != s.url {
          var k :| 0 <= k < |ss| && ss[k].url == url;
          assert prefix[k].url == url;
        }
        if HasUrl(prefix, url) {
          var k :| 0 <= k < |prefix| && prefix[k].url == url;
          assert ss[k].url == url;
        }
      }
      forall url
        ensures HasUrl(Dedup(ss), url) <==> HasUrl(d, url) || url == s.url
      {
        var r := Dedup(ss);
        if i != -1 {
          if HasUrl(r, url) && url != s.url {
            var k :| 0 <= k < |r| && r[k].url == url;
            assert d[k].url == url;
          }
          if HasUrl(d, url) && url != s.url {
            var k :| 0 <= k < |d| && d[k].url == url;
            assert r[k].url == url;
          }
          assert r[i].url == s.url;
        } else {
          if HasUrl(r, url) && url != s.url {
            var k :| 0 <= k < |r| && r[k].url == url;
            assert d[k].url == url;
          }
          if HasUrl(d, url) {
            var k :| 0 <= k < |d| && d[k].url == url;
            assert r[k].url == url;
          }
          assert r[|d|].url == s.url;
        }
      }
    }
  }

  /** Each kept source is the last one seen with its url: a later duplicate replaces an earlier one. */
  lemma {:induction false} DedupLastWins(ss: seq<Source>)
    ensures forall k :: 0 <= k < |Dedup(ss)| ==> LastWith(ss, Dedup(ss)[k].url) == Some(Dedup(ss)[k])
  {
    if ss != [] {
      var prefix := ss[..|ss| - 1];
      var d := Dedup(prefix);
      DedupLastWins(prefix);
      DedupUrls(prefix);
      var r := Dedup(ss);
      forall k | 0 <= k < |r|
        ensures LastWith(ss, r[k].url) == Some(r[k])
      {
        if r[k].url != ss[|ss| - 1].url {
          assert k < |d| && r[k] == d[k];
        }
      }
    }
  }

  /** Appending a source does not move where an earlier url first appears. */
  lemma FirstAtExtend(prefix: seq<Source>, s: Source, url: string)
    requires HasUrl(prefix, url)
    ensures FirstAt(prefix + [s], url) == FirstAt(prefix, url) < |prefix|
  {
    var ss := prefix + [s];
    var k :| 0 <= k < |prefix| && prefix[k].url == url;
    assert ss[k].url == url;
    var r := FirstAt(ss, url);
    assert r <= k;
    assert prefix[r].url == url;
    var p := FirstAt(prefix, url);
    assert p <= r;
    assert ss[p].url == url;
  }

  /** A url first seen in the appended source first appears at its end. */
  lemma FirstAtNew(prefix: seq<Source>, s: Source)
    requires !HasUrl(prefix, s.url)
    ensures FirstAt(prefix + [s], s.url) == |prefix|
  {
    var ss := prefix + [s];
    assert ss[|prefix|].url == s.url;
  }

  /** The kept sources are in the order in which their urls first appear. */
  lemma {:induction false} DedupFirstOrder(ss: seq<Source>)
    ensures forall i, j :: 0 <= i < j < |Dedup(ss)| ==> FirstAt(ss, Dedup(ss)[i].url) < FirstAt(ss, Dedup(ss)[j].url)
  {
    if ss != [] {
      var prefix := ss[..|ss| - 1];
      var s := ss[|ss| - 1];
      assert ss == prefix + [s];
      var d := Dedup(prefix);
      DedupFirstOrder(prefix);
      DedupUrls(prefix);
      var r := Dedup(ss);
      var idx := UrlIndex(d, s.url);
      assert r == if idx == -1 then d + [s] else d[idx := s];
      forall i, j | 0 <= i < j < |r|
        ensures FirstAt(ss, r[i].url) < FirstAt(ss, r[j].url)
      {
        assert r[i].url == d[i].url by {
          if idx != -1 && i == idx { assert d[idx].url == s.url; }
        }
        assert HasUrl(d, d[i].url);
        FirstAtExtend(prefix, s, d[i].url);
        if idx == -1 && j == |d| {
          FirstAtNew(prefix, s);
        } else {
          assert r[j].url == d[j].url by {
            if idx != -1 && j == idx { assert d[idx].url == s.url; }
          }
          assert HasUrl(d, d[j].url);
          FirstAtExtend(prefix, s, d[j].url);
        }
      }
    }
  }

  /** `call_gemini_with_search(prompt, use_search, temperature)`, never raising. */
  function GeminiReply(configured: bool, prompt: Prompt, useSearch: bool, temperature: nat, post: Post): GeminiResult {
    if !configured then GeminiResult(NotConfigured, [])
    else match post(prompt, useSearch, temperature)
      case NetworkError(e) => GeminiResult(RequestFailed + e, [])
      case Http(status, body, decoded) =>
        if status != 200 then GeminiResult(ApiError + IntToString(status) + " - " + Take(body, 200), [])
        else match decoded
          case Failure(e) => GeminiResult(RequestFailed + e, [])
          case Success(candidates) =>
            if candidates == [] then GeminiResult("", [])
            else GeminiResult(PartsText(candidates[0].parts), Dedup(WebSources(candidates[0].chunks)))
  }

  /**
   * The request and the two accumulation loops over the first candidate's
   * parts and grounding chunks, followed by deduplication.
   */
  method CallGeminiWithSearch(configured: bool, prompt: Prompt, useSearch: bool, temperature: nat, post: Post)
    returns (r: GeminiResult)
    ensures r == GeminiReply(configured, prompt, useSearch, temperature, post)
    ensures !configured ==> r == GeminiResult(NotConfigured, [])
    ensures DistinctUrls(r.sources)
  {
    if !configured {
      return GeminiResult(NotConfigured, []);
    }
    var outcome := post(prompt, useSearch, temperature);
    if outcome.NetworkError? {
      return GeminiResult(RequestFailed + outcome.error, []);
    }
    if outcome.status != 200 {
      return GeminiResult(ApiError + IntToString(outcome.status) + " - " + Take(outcome.body, 200), []);
    }
    if outcome.decoded.Failure? {
      return GeminiResult(RequestFailed + outcome.decoded.error, []);
    }
    var candidates := outcome.decoded.value;
    var text := "";
    var sources: seq<Source> := [];
    if candidates != [] {
      var parts := candidates[0].parts;
      var i := 0;
      while i < |parts|
        invariant 0 <= i <= |parts|
        invariant text == PartsText(parts[..i])
      {
        assert parts[..i + 1][..i] == parts[..i];
        if parts[i].Some? {
          text := text + parts[i].value;
        }
        i := i + 1;
      }
      assert parts[..|parts|] == parts;
      var chunks := candidates[0].chunks;
      var j := 0;
      while j < |chunks|
        invariant 0 <= j <= |chunks|
        invariant sources == WebSources(chunks[..j])
      {
        assert chunks[..j + 1][..j] == chunks[..j];
        var chunk := chunks[j];
        if Cited(chunk) {
          sources := sources + [Source(chunk.value.title.value, chunk.value.uri.value)];
        }
        j := j + 1;
      }
      assert chunks[..|chunks|] == chunks;
    }
    r := GeminiResult(text, Dedup(sources));
    DedupUrls(sources);
  }

  // ---------------------------------------------------------------------
  // The shared context

  /** `"---" * 20` */
  const Rule: string := "------------------------------------------------------------"

  /** A message's header line. */
  function Header(name: string, role: string): string {
    "--- [Agent: " + name + " | Role: " + role + "] ---"
  }

  /** `str(e)` of the `AttributeError` raised by calling `.get` on a value that is not a dict. */
  function NoGet(j: Json): string {
    var typeName := match j
      case JNull => "NoneType"
      case JBool(_) => "bool"
      case JNum(_) => "int"
      case JStr(_) => "str"
      case JArr(_) => "list"
      case JObj(_) => "dict";
    "'" + typeName + "' object has no attribute 'get'"
  }

  const JoinTypeError: string := "sequence item: expected str instance"

  /** One list item of `extract_text`: a dict's `text`, a string itself, anything else printed. */
  function ItemText(item: Json): Result<string> {
    if item.JObj? && Get(item, "text").Some? then
      (if Get(item, "text").value.JStr? then Success(Get(item, "text").value.s) else Failure(JoinTypeError))
    else if item.JStr? then Success(item.s)
    else Success(PyStr(item))
  }

  /** The texts of the list items, failing as `"\n".join` does on a non-string. */
  function ItemTexts(items: seq<Json>): (r: Result<seq<string>>)
    ensures r.Success? ==> |r.value| == |items|
    ensures r.Success? <==> forall k :: 0 <= k < |items| ==> ItemText(items[k]).Success?
    ensures r.Success? ==> forall k :: 0 <= k < |items| ==> r.value[k] == ItemText(items[k]).value
  {
    if items == [] then Success([])
    else match ItemTexts(items[..|items| - 1])
      case Failure(e) => Failure(e)
      case Success(texts) =>
        match ItemText(items[|items| - 1])
        case Failure(e) => Failure(e)
        case Success(t) => Success(texts + [t])
  }

  /**
   * `extract_text(content)`: a string as is, a list item by item joined by
   * newlines, a dict's `text`, anything else printed. A `text` that is not a
   * string makes the final join raise.
   */
  function ExtractText(content: Json): (r: Result<string>)
    ensures content.JStr? ==> r == Success(content.s)
    ensures content.JArr? ==> (r.Success? <==> ItemTexts(content.items).Success?)
    ensures content.JArr? && r.Success? ==> r.value == Join("\n", ItemTexts(content.items).value)
  {
    match content
    case JStr(s) => Success(s)
    case JArr(items) =>
      (match ItemTexts(items)
       case Success(texts) => Success(Join("\n", texts))
       case Failure(e) => Failure(e))
    case JObj(_) =>
      (match Get(content, "text")
       case Some(JStr(s)) => Success(s)
       case Some(_) => Failure(JoinTypeError)
       case None => Success(PyStr(content)))
    case _ => Success(PyStr(content))
  }

  /** A list of plain strings comes back as those strings joined by newlines. */
  lemma ExtractTextOfStrings(texts: seq<string>)
    ensures ExtractText(JArr(seq(|texts|, k requires 0 <= k < |texts| => JStr(texts[k])))) == Success(Join("\n", texts))
  {
    var items := seq(|texts|, k requires 0 <= k < |texts| => JStr(texts[k]));
    assert forall k :: 0 <= k < |items| ==> ItemText(items[k]) == Success(texts[k]);
    assert ItemTexts(items).value == texts;
  }

  /** The three lines one message contributes: header, text and rule. */
  function MessageLines(msg: Json): Result<seq<string>> {
    if !msg.JObj? then Failure(NoGet(msg))
    else match ExtractText(GetOr(msg, "content", JStr("")))
      case Failure(e) => Failure(e)
      case Success(text) =>
        Success([Header(PyStr(GetOr(msg, "name", JStr("Unknown"))), PyStr(GetOr(msg, "role", JStr("Unknown")))), text, Rule])
  }

  /** The lines of all messages, in order. */
  function HistoryLines(history: seq<Json>): Result<seq<string>> {
    if history == [] then Success([])
    else match HistoryLines(history[..|history| - 1])
      case Failure(e) => Failure(e)
      case Success(lines) =>
        match MessageLines(history[|history| - 1])
        case Failure(e) => Failure(e)
        case Success(more) => Success(lines + more)
  }

  /** `format_context(history)`: "" for no history, else all lines joined by newlines. */
  function FormatContext(history: seq<Json>): (r: Result<string>)
    ensures history == [] ==> r == Success("")
  {
    match HistoryLines(history)
    case Failure(e) => Failure(e)
    case Success(lines) => Success(Join("\n", lines))
  }

  /**
   * A message the team produces. `sources` is the `data` entry's source
   * list, `None` when the message has no `data`; timestamps are left out.
   */
  datatype AgentMessage = AgentMessage(role: string, name: string, content: string, sources: Option<seq<Source>>)

  /** The keys of a message that `format_context` reads. */
  function ToJson(m: AgentMessage): Json {
    JObj([("role", JStr(m.role)), ("name", JStr(m.name)), ("content", JStr(m.content))])
  }

  function ToJsons(h: seq<AgentMessage>): (r: seq<Json>)
    ensures |r| == |h|
  {
    if h == [] then [] else ToJsons(h[..|h| - 1]) + [ToJson(h[|h| - 1])]
  }

  /** The lines a message of the team contributes. */
  function Block(m: AgentMessage): seq<string> {
    [Header(m.name, m.role), m.content, Rule]
  }

  function TranscriptLines(h: seq<AgentMessage>): seq<string> {
    if h == [] then [] else TranscriptLines(h[..|h| - 1]) + Block(h[|h| - 1])
  }

  /** The shared context as the next agent reads it. */
  function ContextText(h: seq<AgentMessage>): string {
    Join("\n", TranscriptLines(h))
  }

  lemma MessageLinesOf(m: AgentMessage)
    ensures MessageLines(ToJson(m)) == Success(Block(m))
  {
    var fields := [("role", JStr(m.role)), ("name", JStr(m.name)), ("content", JStr(m.content))];
    assert fields[..2] == [("role", JStr(m.role)), ("name", JStr(m.name))];
    assert "name" != "role" by { assert "name"[0] != "role"[0]; }
    assert fields[..2][..1] == [("role", JStr(m.role))];
    assert Lookup(fields, "content") == Some(JStr(m.content));
    assert Lookup(fields, "name") == Some(JStr(m.name));
    assert Lookup(fields[..2][..1], "role") == Some(JStr(m.role));
    assert Lookup(fields[..2], "role") == Some(JStr(m.role));
    assert Lookup(fields, "role") == Some(JStr(m.role));
  }

  /** The team's own messages always format, to the header/text/rule lines of each in order. */
  lemma {:induction false} FormatContextOfMessages(h: seq<AgentMessage>)
    ensures FormatContext(ToJsons(h)) == Success(ContextText(h))
    ensures HistoryLines(ToJsons(h)) == Success(TranscriptLines(h))
  {
    if h != [] {
      FormatContextOfMessages(h[..|h| - 1]);
      MessageLinesOf(h[|h| - 1]);
      assert ToJsons(h)[..|h| - 1] == ToJsons(h[..|h| - 1]);
    }
  }

  /** Each new message extends the shared context by its three lines. */
  lemma ContextGrows(h: seq<AgentMessage>, m: AgentMessage)
    requires h != []
    ensures ContextText(h + [m]) == ContextText(h) + "\n" + Header(m.name, m.role) + "\n" + m.content + "\n" + Rule
  {
    var lines := TranscriptLines(h);
    assert (h + [m])[..|h + [m]| - 1] == h;
    assert TranscriptLines(h) != [] by {
      assert |TranscriptLines(h)| >= 3 by { assert |Block(h[|h| - 1])| == 3; }
    }
    JoinAppend("\n", lines, Header(m.name, m.role));
    JoinAppend("\n", lines + [Header(m.name, m.role)], m.content);
    JoinAppend("\n", lines + [Header(m.name, m.role), m.content], Rule);
    assert lines + [Header(m.name, m.role)] + [m.content] == lines + [Header(m.name, m.role), m.content];
    assert lines + [Header(m.name, m.role), m.content] + [Rule] == lines + Block(m);
  }

  // ---------------------------------------------------------------------
  // Fence stripping

  const JsonFence: string := "```json"
  const Fence: string := "```"

  /** `s[len(p):]` when `s` starts with `p`. */
  function DropPrefix(s: string, p: string): (r: string)
    ensures StartsWith(s, p) ==> s == p + r
    ensures !StartsWith(s, p) ==> r == s
  {
    if StartsWith(s, p) then s[|p|..] else s
  }

  /** `s[:-len(p)]` when `s` ends with `p`. */
  function DropSuffix(s: string, p: string): (r: string)
    ensures EndsWith(s, p) ==> s == r + p
    ensures !EndsWith(s, p) ==> r == s
  {
    if EndsWith(s, p) then s[..|s| - |p|] else s
  }

  /** Strip, drop a leading "```json", then a leading "```", then a trailing "```", strip again. */
  function StripFences(text: string): (r: string)
    ensures Strip(r) == r
  {
    var t := DropSuffix(DropPrefix(DropPrefix(Strip(text), JsonFence), Fence), Fence);
    StripStable(t);
    Strip(t)
  }

  /** Newlines around a stripped text are stripped away. */
  lemma StripAround(body: string)
    requires Strip(body) == body
    ensures Strip("\n" + body + "\n") == body
  {
    var s := "\n" + body + "\n";
    assert s[1..] == body + "\n";
    if body == [] {
      assert TrimStart(s) == [];
    } else {
      assert (body + "\n")[0] == body[0];
      assert TrimStart(s) == body + "\n";
      assert (body + "\n")[..|body|] == body;
      assert TrimEnd(body + "\n") == TrimEnd(body);
      assert TrimStart(body) == body;
    }
  }

  lemma RegroupFenced(body: string)
    ensures JsonFence + "\n" + body + "\n" + Fence == JsonFence + ("\n" + body + "\n" + Fence)
  {
  }

  /** A fenced JSON block loses exactly its fences: the stripped body comes back. */
  lemma StripFencedJson(body: string)
    requires Strip(body) == body
    ensures StripFences(JsonFence + "\n" + body + "\n" + Fence) == body
  {
    RegroupFenced(body);
    FencedDrops("\n" + body + "\n");
    StripAround(body);
  }

  /** Both fences come off a fenced text whose inner part opens with a newline. */
  lemma FencedDrops(inner: string)
    requires |inner| > 0 && inner[0] == '\n'
    ensures var s := JsonFence + (inner + Fence);
            Strip(s) == s && DropSuffix(DropPrefix(DropPrefix(s, JsonFence), Fence), Fence) == inner
  {
    var rest := inner + Fence;
    var s := JsonFence + rest;
    assert s[0] == '`' && s[|s| - 1] == '`';
    StripUnpadded(s);
    assert s[..|JsonFence|] == JsonFence;
    assert DropPrefix(s, JsonFence) == rest;
    assert rest[..|Fence|][0] == '\n';
    assert rest[|inner|..] == Fence;
  }

  /** A text opening with "```json" opens with "```". */
  lemma JsonFenceOpensFence(text: string)
    ensures StartsWith(text, JsonFence) ==> StartsWith(text, Fence)
  {
    if StartsWith(text, JsonFence) {
      assert text[..|Fence|] == text[..|JsonFence|][..|Fence|];
    }
  }

  /** Text without fences or surrounding whitespace passes through unchanged. */
  lemma StripUnfenced(text: string)
    requires Strip(text) == text && !StartsWith(text, Fence) && !EndsWith(text, Fence)
    ensures StripFences(text) == text
  {
    JsonFenceOpensFence(text);
    assert DropSuffix(DropPrefix(DropPrefix(text, JsonFence), Fence), Fence) == text;
  }

  // ---------------------------------------------------------------------
  // The agents

  const DeepOpening: string :=
    "\n你是一名代号为 '逻辑' 的首席战略官。\n任务：对 \""
  const DeepClosing: string :=
    "\" 进行深度宏观逻辑推演。\n\n请输出一份《深度战略研判简报》。\n\n思考框架（必须使用中文作为章节标题）：\n1. 【底层逻辑】该领域的价值创造机制是什么？\n2. 【非共识洞察】识别市场普遍误判或忽视的结构性变化。\n3. 【终局思维】基于技术与周期，推演未来 3-5 年的行业终局。\n\n要求：\n- **严禁使用英文标题**。所有 Markdown 标题（如 ###）必须是中文。\n- 全程使用中文回答。\n- 逻辑严密，避免陈词滥调。\n"
  const MarketOpening: string :=
    "\n你是一名代号为 '天眼' 的市场分析师。\n\n=== 战略假设输入（共享上下文） ===\n"
  const MarketTopic: string :=
    "\n==================================\n\n任务：基于上述战略假设，使用 Google Search 寻找实证数据。\n目标板块："
  const MarketClosing: string :=
    "\n\n请输出《市场情报综述》：\n1. 宏观驱动力（引用政策或经济数据）。\n2. 市场情绪量表（机构持仓态度与散户情绪）。\n3. 近期催化剂（即将发生的重大事件）。\n\n指令：\n- **必须调用 Google Search 获取实时信源**。\n- **Markdown 标题必须使用中文**（例如: ### 宏观驱动力）。\n- 语言风格：专业、客观、数据驱动。\n- **必须使用中文**撰写报告。\n"
  const QuantOpening: string :=
    "\n你是一名代号为 '西格玛' 的量化专家（必须中文输出）。\n\n目标资产/板块："
  const QuantContext: string :=
    "\n\n=== 上下文回顾（共享上下文） ===\n"
  const QuantTask: string :=
    "\n==================================\n\n**核心任务**：\n使用 Google Search 查找与 \""
  const QuantExamples: string :=
    "\" **相关的 5-8 个核心标的**的最新实时交易数据。\n\n**重要**：不能只查询一个标的！必须查询多个相关公司/资产进行对比分析。\n\n**搜索策略**：\n- 如果是个股（如\"招商银行\"），搜索该公司及其竞争对手、供应链伙伴、同行业龙头\n- 如果是板块（如\"新能源\"），搜索该板块内的多只龙头股\n- 搜索关键词示例：\""
  const QuantCompetitors: string :=
    " competitors stock\", \""
  const QuantSector: string :=
    " sector stocks\", \""
  const QuantClosing: string :=
    " industry comparison\"\n\n**输出格式（严格遵守）**：\n\n**第一步：立即输出 Markdown 表格（必须包含 5-8 行数据）**\n\n| 代码 | 名称 | 最新价 | PE TTM | 涨跌幅 | 市值 |\n|---|---|---:|---:|---:|---:|\n| XXX | 公司A | $xxx | xx.x | x.x% | xxxB |\n| XXX | 公司B | $xxx | xx.x | x.x% | xxxB |\n...（至少 5 行）\n\n**市值格式要求**：使用数字+单位，如 \"42700亿\" 或 \"4270B\"（不要用 $4.27T 格式，用 4270B 或 42700亿）\n\n**第二步：表格后给出 3-6 条中文要点结论**\n- 使用 `- ` 项目符号\n- 对比分析各标的的估值差异\n\n**严格要求**：\n1. 必须输出 5-8 个标的的数据（不能只有 1 个）\n2. 严禁编造数据！必须从搜索结果中提取\n3. 表格格式必须严格，前端会自动解析生成对比图表\n\n现在立即开始，第一行就输出表格：\n"
  const PmOpening: string :=
    "\n你是一名代号为 '阿尔法' 的基金经理。\n目标资产："
  const PmContext: string :=
    "\n\n=== 投委会会议记录（共享上下文） ===\n"
  const PmClosing: string :=
    "\n====================================\n\n任务：综合战略假设、市场情报、量化数据，撰写一份《投资决策备忘录》。\n\n要求：\n1. **必须使用中文**撰写，包括所有标题。\n2. 论证严密：定性分析与定量支撑相结合。\n3. 明确结论：给出具体的配置建议（超配/标配/低配）及操作思路。\n4. 叙事生动：使用专业的金融叙事风格。\n\n请以 JSON 格式输出：\n{\n    \"title\": \"专业且具有吸引力的研报标题（中文）\",\n    \"investmentThesis\": \"详细的投资备忘录内容（中文）。Markdown 格式。\"\n}\n"
  const CriticOpening: string :=
    "\n你是一名代号为 '天平' 的独立评审专家，负责【红队演练】。\n\n=== 拟定投资策略全案（Trace） ===\n"
  const CriticClosing: string :=
    "\n==============================\n\n任务：对上述投资决策进行【极限压力测试】。\n\n请扮演\"魔鬼代言人\"，挑战团队的共识：\n1. 识别盲点：指出被忽略的尾部风险（Tail Risk）或黑天鹅事件。\n2. 逻辑归因：如果该策略失败，最可能的根本原因是什么？\n3. 挑战假设：指出战略或分析可能存在的确认偏误。\n\n输出一份简明扼要的《独立评审意见书》。\n**要求：所有 Markdown 标题必须使用中文。**\n"
  const RiskOpening: string :=
    "\n你是一名代号为 '坚盾' 的首席合规官（CRO）。\n\n=== 决策链路审计（全链路追踪） ===\n"
  const RiskClosing: string :=
    "\n=====================================\n\n任务：基于全链路信息，进行最终的【合规与风险审查】。\n\n重点关注：\n1. 策略是否符合常规的资产管理合规要求？\n2. Reviewer 提出的尾部风险是否已得到充分重视？\n3. 给出最终 \"安全评分\"（0-100）及一票否决权（通过/驳回）。\n\n请以 JSON 格式输出：\n{\n    \"score\": 0-100的整数,\n    \"critique\": \"风控合规意见（中文）\",\n    \"approved\": true/false\n}\n"

  const DeepNotConfigured: string := "⚠️ Gemini API 未配置，无法执行深度研究。"
  const MarketNotConfigured: string := "⚠️ Gemini API 未配置，无法执行市场分析。"
  const QuantNotConfigured: string := "⚠️ Gemini API 未配置，无法执行量化分析。"
  const PmNotConfigured: string := "⚠️ Gemini API 未配置，无法生成投资备忘录。"
  const CriticNotConfigured: string := "⚠️ Gemini API 未配置，无法执行评审。"
  const RiskNotConfigured: string := "⚠️ Gemini API 未配置，无法执行风险审查。"
  const RiskUnparsed: string := "风险审查完成，但无法解析详细结果。"

  function DeepText(topic: string): string {
    DeepOpening + topic + DeepClosing
  }

  function MarketText(topic: string, context: string): string {
    MarketOpening + context + (MarketTopic + topic + MarketClosing)
  }

  function QuantHead(topic: string): string {
    QuantOpening + topic + QuantContext
  }

  function QuantText(topic: string, context: string): string {
    QuantHead(topic) + context
    + (QuantTask + topic + QuantExamples + topic + QuantCompetitors + topic + QuantSector + topic + QuantClosing)
  }

  function PmHead(topic: string): string {
    PmOpening + topic + PmContext
  }

  function PmText(topic: string, context: string): string {
    PmHead(topic) + context + PmClosing
  }

  function CriticText(context: string): string {
    CriticOpening + context + CriticClosing
  }

  function RiskText(context: string): string {
    RiskOpening + context + RiskClosing
  }

  /** The text sent for each prompt. */
  function PromptText(p: Prompt): string {
    match p
    case DeepBrief(topic) => DeepText(topic)
    case MarketBrief(topic, context) => MarketText(topic, context)
    case QuantBrief(topic, context) => QuantText(topic, context)
    case ManagerBrief(topic, context) => PmText(topic, context)
    case CriticBrief(context) => CriticText(context)
    case RiskBrief(context) => RiskText(context)
  }

  /** The deep research prompt carries the topic right after its opening. */
  lemma DeepCarriesTopic(topic: string)
    ensures OccursAt(DeepText(topic), topic, |DeepOpening|)
  {
    OccursBetween(DeepOpening, topic, DeepClosing);
  }

  /** The market analyst's prompt carries the shared context verbatim, right after its opening. */
  lemma MarketCarriesContext(topic: string, context: string)
    ensures OccursAt(MarketText(topic, context), context, |MarketOpening|)
  {
    OccursBetween(MarketOpening, context, MarketTopic + topic + MarketClosing);
  }

  /** The quant analyst's prompt carries the shared context verbatim, right after its opening. */
  lemma QuantCarriesContext(topic: string, context: string)
    ensures OccursAt(QuantText(topic, context), context, |QuantHead(topic)|)
  {
    OccursBetween(QuantHead(topic), context,
                  QuantTask + topic + QuantExamples + topic + QuantCompetitors + topic + QuantSector + topic + QuantClosing);
  }

  /** The portfolio manager's prompt carries the shared context verbatim, right after its opening. */
  lemma ManagerCarriesContext(topic: string, context: string)
    ensures OccursAt(PmText(topic, context), context, |PmHead(topic)|)
  {
    OccursBetween(PmHead(topic), context, PmClosing);
  }

  /** The critic and risk prompts carry the shared context verbatim, right after their opening lines. */
  lemma ReviewersCarryContext(context: string)
    ensures OccursAt(CriticText(context), context, |CriticOpening|)
    ensures OccursAt(RiskText(context), context, |RiskOpening|)
  {
    OccursBetween(CriticOpening, context, CriticClosing);
    OccursBetween(RiskOpening, context, RiskClosing);
  }

  /** `run_deep_researcher`: the model's text, without search, at temperature 0.7. */
  function DeepResearcher(configured: bool, topic: string, post: Post): (m: AgentMessage)
    ensures m.role == "DEEP_RESEARCHER" && m.sources.None?
  {
    AgentMessage("DEEP_RESEARCHER", "逻辑",
                 if configured then GeminiReply(true, DeepBrief(topic), false, 7, post).text else DeepNotConfigured, None)
  }

  /** `run_market_analyst`: the model's text and sources, with search, at temperature 0.3. */
  function MarketAnalyst(configured: bool, topic: string, history: seq<AgentMessage>, post: Post): (m: AgentMessage)
    ensures m.role == "MARKET_ANALYST" && (m.sources.Some? <==> configured)
  {
    if !configured then AgentMessage("MARKET_ANALYST", "天眼", MarketNotConfigured, None)
    else
      var reply := GeminiReply(true, MarketBrief(topic, ContextText(history)), true, 3, post);
      AgentMessage("MARKET_ANALYST", "天眼", reply.text, Some(reply.sources))
  }

  /** `run_quant_analyst`: the model's text and sources, with search, at temperature 0.1. */
  function QuantAnalyst(configured: bool, topic: string, history: seq<AgentMessage>, post: Post): (m: AgentMessage)
    ensures m.role == "QUANT_ANALYST" && (m.sources.Some? <==> configured)
  {
    if !configured then AgentMessage("QUANT_ANALYST", "西格玛", QuantNotConfigured, None)
    else
      var reply := GeminiReply(true, QuantBrief(topic, ContextText(history)), true, 1, post);
      AgentMessage("QUANT_ANALYST", "西格玛", reply.text, Some(reply.sources))
  }

  /** What `run_portfolio_manager` returns: the title, the thesis and the message for the shared context. */
  datatype Memo = Memo(title: Json, thesis: Json, message: AgentMessage)

  const AnalysisTitle: string := " 投资分析"
  const ReportTitle: string := " 投资分析报告"
  const TitleLabel: string := "标题: "
  const ManagerFault: string := "⚠️ 基金经理智能体故障: "
  const Fault: string := "⚠️ 故障: "

  /** The manager's answer without fences. */
  function PmAnswer(topic: string, history: seq<AgentMessage>, post: Post): string {
    StripFences(GeminiReply(true, ManagerBrief(topic, ContextText(history)), false, 5, post).text)
  }

  /** The object the manager's answer is read as: the parsed value, or the title and the raw text. */
  function MemoObject(topic: string, text: string, parse: Parser): Json {
    match parse(text)
    case Some(j) => j
    case None => JObj([("title", JStr(topic + ReportTitle)), ("investmentThesis", JStr(text))])
  }

  function PmMessage(content: string): AgentMessage {
    AgentMessage("PORTFOLIO_MANAGER", "阿尔法", content, None)
  }

  /**
   * The memo made of the manager's answer `text`. A parsed value that is not
   * an object makes `.get` raise, which the manager reports as a fault.
   */
  function MemoOf(topic: string, text: string, parse: Parser): Memo {
    var result := MemoObject(topic, text, parse);
    if !result.JObj? then
      Memo(JStr(topic + AnalysisTitle), JStr(ManagerFault + NoGet(result)), PmMessage(Fault + NoGet(result)))
    else
      Memo(GetOr(result, "title", JStr(topic + AnalysisTitle)), GetOr(result, "investmentThesis", JStr(text)),
           PmMessage(TitleLabel + PyStr(GetOr(result, "title", JStr(""))) + "\n\n" + PyStr(GetOr(result, "investmentThesis", JStr("")))))
  }

  /**
   * `run_portfolio_manager`: without a key a fixed memo; otherwise the memo
   * made of the answer, without fences, to the prompt holding the context.
   */
  function PortfolioManager(configured: bool, topic: string, history: seq<AgentMessage>, post: Post, parse: Parser): (r: Memo)
    ensures r.message.role == "PORTFOLIO_MANAGER" && r.message.sources.None?
    ensures !configured ==> r.title == JStr(topic + AnalysisTitle) && r.thesis == JStr(PmNotConfigured)
    ensures configured ==> r == MemoOf(topic, PmAnswer(topic, history, post), parse)
  {
    if !configured then
      Memo(JStr(topic + AnalysisTitle), JStr(PmNotConfigured), PmMessage(NotConfigured))
    else
      MemoOf(topic, PmAnswer(topic, history, post), parse)
  }

  /** An answer that does not parse becomes a memo titled after the topic whose thesis is the text. */
  lemma UnparsedMemo(topic: string, text: string, parse: Parser)
    requires parse(text).None?
    ensures var r := MemoOf(topic, text, parse);
            r.title == JStr(topic + ReportTitle) && r.thesis == JStr(text)
            && r.message.content == TitleLabel + topic + ReportTitle + "\n\n" + text
  {
    var fields := [("title", JStr(topic + ReportTitle)), ("investmentThesis", JStr(text))];
    assert fields[..1] == [("title", JStr(topic + ReportTitle))];
    assert Lookup(fields, "title") == Some(JStr(topic + ReportTitle));
    assert Lookup(fields, "investmentThesis") == Some(JStr(text));
  }

  /** A parsed answer that is not an object is reported as a fault naming its type. */
  lemma NonObjectMemo(topic: string, text: string, parse: Parser)
    requires parse(text).Some? && !parse(text).value.JObj?
    ensures var r := MemoOf(topic, text, parse);
            r.title == JStr(topic + AnalysisTitle) && r.thesis == JStr(ManagerFault + NoGet(parse(text).value))
            && StartsWith(r.message.content, Fault)
  {
  }

  /** `run_critic`: the model's text, without search, at temperature 0.7. */
  function Critic(configured: bool, history: seq<AgentMessage>, post: Post): (m: AgentMessage)
    ensures m.role == "CRITICAL_REVIEWER" && m.sources.None?
  {
    AgentMessage("CRITICAL_REVIEWER", "天平",
                 if configured then GeminiReply(true, CriticBrief(ContextText(history)), false, 7, post).text
                 else CriticNotConfigured, None)
  }

  /** `{"score": score, "critique": critique, "approved": approved}` */
  function Assessment(score: int, critique: string, approved: bool): Json {
    JObj([("score", JNum(score)), ("critique", JStr(critique)), ("approved", JBool(approved))])
  }

  /**
   * `run_risk_officer`: without a key a score of 50 and no approval; with
   * one, the parsed unfenced answer, or, when it does not parse, a score of
   * 60 with approval and the text (or a fixed note) as the critique.
   */
  function RiskOfficer(configured: bool, history: seq<AgentMessage>, post: Post, parse: Parser): (r: Json)
    ensures !configured ==> r == Assessment(50, RiskNotConfigured, false)
    ensures configured ==>
              var text := StripFences(GeminiReply(true, RiskBrief(ContextText(history)), false, 1, post).text);
              (parse(text).Some? ==> r == parse(text).value)
              && (parse(text).None? ==> r == Assessment(60, if text != "" then text else RiskUnparsed, true))
  {
    if !configured then Assessment(50, RiskNotConfigured, false)
    else
      var text := StripFences(GeminiReply(true, RiskBrief(ContextText(history)), false, 1, post).text);
      match parse(text)
      case Some(j) => j
      case None => Assessment(60, if text != "" then text else RiskUnparsed, true)
  }

  // ---------------------------------------------------------------------
  // The workflow

  /** The report the workflow builds; an unset key is `None`. */
  datatype Report = Report(
    topic: Option<string>, status: string,
    deepResearchAnalysis: Option<string>, marketAnalysis: Option<string>, sources: Option<seq<Source>>,
    quantAnalysis: Option<string>, title: Option<Json>, investmentThesis: Option<Json>,
    critiqueAnalysis: Option<string>, riskAssessment: Option<Json>,
    agentContext: Option<seq<AgentMessage>>, error: Option<string>)

  /** The events the stream yields; each carries a copy of the report as it then stands. */
  datatype Event =
    | AgentComplete(agent: AgentMessage, report: Report)
    | Complete(report: Report)

  /** `{"status": "error", "error": "No data returned"}` */
  const NoData: Report := Report(None, "error", None, None, None, None, None, None, None, None, None, Some("No data returned"))

  /**
   * The messages of one run, each agent reading the messages before its
   * own: the deep researcher's (only on request), the market analyst's,
   * the quant analyst's, the portfolio manager's and the critic's.
   */
  function Transcript(topic: string, deepResearch: bool, configured: bool, post: Post, parse: Parser): seq<AgentMessage> {
    var h0 := if deepResearch then [DeepResearcher(configured, topic, post)] else [];
    var h1 := h0 + [MarketAnalyst(configured, topic, h0, post)];
    var h2 := h1 + [QuantAnalyst(configured, topic, h1, post)];
    var h3 := h2 + [PortfolioManager(configured, topic, h2, post, parse).message];
    h3 + [Critic(configured, h3, post)]
  }

  function Roles(h: seq<AgentMessage>): (r: seq<string>)
    ensures |r| == |h|
  {
    if h == [] then [] else Roles(h[..|h| - 1]) + [h[|h| - 1].role]
  }

  /**
   * The shared context holds four messages, five with deep research, in
   * the fixed agent order.
   */
  lemma TranscriptRoles(topic: string, deepResearch: bool, configured: bool, post: Post, parse: Parser)
    ensures var h := Transcript(topic, deepResearch, configured, post, parse);
            |h| == (if deepResearch then 5 else 4)
            && Roles(h) == (if deepResearch then ["DEEP_RESEARCHER"] else [])
                           + ["MARKET_ANALYST", "QUANT_ANALYST", "PORTFOLIO_MANAGER", "CRITICAL_REVIEWER"]
  {
    var h := Transcript(topic, deepResearch, configured, post, parse);
    var h0 := if deepResearch then [DeepResearcher(configured, topic, post)] else [];
    var h1 := h0 + [MarketAnalyst(configured, topic, h0, post)];
    var h2 := h1 + [QuantAnalyst(configured, topic, h1, post)];
    var h3 := h2 + [PortfolioManager(configured, topic, h2, post, parse).message];
    assert h == h3 + [Critic(configured, h3, post)];
    assert Roles(h0) == (if deepResearch then ["DEEP_RESEARCHER"] else []) by {
      if deepResearch { assert h0[..0] == []; }
    }
    assert h1[..|h1| - 1] == h0 && h2[..|h2| - 1] == h1 && h3[..|h3| - 1] == h2 && h[..|h| - 1] == h3;
    assert Roles(h1) == Roles(h0) + ["MARKET_ANALYST"];
    assert Roles(h2) == Roles(h1) + ["QUANT_ANALYST"];
    assert Roles(h3) == Roles(h2) + ["PORTFOLIO_MANAGER"];
  }

  /** Each agent's message is computed from exactly the messages before it. */
  lemma TranscriptSteps(topic: string, deepResearch: bool, configured: bool, post: Post, parse: Parser)
    ensures var h := Transcript(topic, deepResearch, configured, post, parse);
            var o := if deepResearch then 1 else 0;
            |h| == o + 4
            && (deepResearch ==> h[0] == DeepResearcher(configured, topic, post))
            && h[o] == MarketAnalyst(configured, topic, h[..o], post)
            && h[o + 1] == QuantAnalyst(configured, topic, h[..o + 1], post)
            && h[o + 2] == PortfolioManager(configured, topic, h[..o + 2], post, parse).message
            && h[o + 3] == Critic(configured, h[..o + 3], post)
  {
    var h := Transcript(topic, deepResearch, configured, post, parse);
    var o := if deepResearch then 1 else 0;
    var h0 := if deepResearch then [DeepResearcher(configured, topic, post)] else [];
    var h1 := h0 + [MarketAnalyst(configured, topic, h0, post)];
    var h2 := h1 + [QuantAnalyst(configured, topic, h1, post)];
    var h3 := h2 + [PortfolioManager(configured, topic, h2, post, parse).message];
    assert h == h3 + [Critic(configured, h3, post)];
    assert h[..o] == h0 && h[..o + 1] == h1 && h[..o + 2] == h2 && h[..o + 3] == h3;
  }

  /** Where the market analyst's message sits in the transcript: after the deep researcher's, when there is one. */
  function MarketAt(deepResearch: bool): nat {
    if deepResearch then 1 else 0
  }

  /**
   * The report once the first `k` messages of the transcript `h` are in:
   * each field is set by the message that fills it (the manager's by its
   * memo) and stays unset before it.
   */
  function Snapshot(topic: string, deepResearch: bool, h: seq<AgentMessage>, memo: Memo, k: nat): Report
    requires |h| >= MarketAt(deepResearch) + 4
  {
    var o := MarketAt(deepResearch);
    Report(Some(topic), "in_progress",
           if deepResearch && k > 0 then Some(h[0].content) else None,
           if k > o then Some(h[o].content) else None,
           if k > o then Some(h[o].sources.GetOr([])) else None,
           if k > o + 1 then Some(h[o + 1].content) else None,
           if k > o + 2 then Some(memo.title) else None,
           if k > o + 2 then Some(memo.thesis) else None,
           if k > o + 3 then Some(h[o + 3].content) else None,
           None, None, None)
  }

  /** Each message of the transcript sets its own fields of the report and leaves the others. */
  lemma SnapshotSteps(topic: string, deepResearch: bool, h: seq<AgentMessage>, memo: Memo)
    requires |h| >= MarketAt(deepResearch) + 4
    ensures deepResearch ==> Snapshot(topic, deepResearch, h, memo, 1)
                             == Snapshot(topic, deepResearch, h, memo, 2).(marketAnalysis := None, sources := None)
    ensures Snapshot(topic, deepResearch, h, memo, MarketAt(deepResearch) + 2)
            == Snapshot(topic, deepResearch, h, memo, MarketAt(deepResearch) + 1).(quantAnalysis := Some(h[MarketAt(deepResearch) + 1].content))
    ensures Snapshot(topic, deepResearch, h, memo, MarketAt(deepResearch) + 3)
            == Snapshot(topic, deepResearch, h, memo, MarketAt(deepResearch) + 2).(title := Some(memo.title), investmentThesis := Some(memo.thesis))
    ensures Snapshot(topic, deepResearch, h, memo, MarketAt(deepResearch) + 4)
            == Snapshot(topic, deepResearch, h, memo, MarketAt(deepResearch) + 3).(critiqueAnalysis := Some(h[MarketAt(deepResearch) + 3].content))
  {
  }

  /** The report of the last `complete` event. */
  function LastComplete(events: seq<Event>): Option<Report> {
    if events == [] then None
    else if events[|events| - 1].Complete? then Some(events[|events| - 1].report)
    else LastComplete(events[..|events| - 1])
  }

  /**
   * There is a report exactly when some event is `complete`, and then it is
   * the report of a `complete` event after which none follows.
   */
  lemma {:induction false} LastCompleteIsLast(events: seq<Event>)
    ensures LastComplete(events).None? <==> forall k :: 0 <= k < |events| ==> !events[k].Complete?
    ensures LastComplete(events).Some? ==>
              exists k :: 0 <= k < |events| && events[k] == Complete(LastComplete(events).value)
                          && forall k' :: k < k' < |events| ==> !events[k'].Complete?
  {
    if events != [] {
      var n := |events| - 1;
      var prefix := events[..n];
      if events[n].Complete? {
        assert events[n] == Complete(LastComplete(events).value);
      } else {
        assert LastComplete(events) == LastComplete(prefix);
        LastCompleteIsLast(prefix);
        if LastComplete(prefix).Some? {
          var k :| 0 <= k < |prefix| && prefix[k] == Complete(LastComplete(prefix).value)
                   && forall k' :: k < k' < |prefix| ==> !prefix[k'].Complete?;
          assert events[k] == prefix[k];
          assert forall k' :: k < k' < |events| ==> !events[k'].Complete? by {
            forall k' | k < k' < |events| ensures !events[k'].Complete? {
              if k' < n { assert events[k'] == prefix[k']; }
            }
          }
        } else {
          forall k | 0 <= k < |events| ensures !events[k].Complete? {
            if k < n { assert events[k] == prefix[k]; }
          }
        }
      }
    }
  }

  /** `run_workflow`'s loop over the stream, keeping the report of each `complete` event. */
  method FindLastComplete(events: seq<Event>) returns (found: Option<Report>)
    ensures found == LastComplete(events)
  {
    found := None;
    var i := 0;
    while i < |events|
      invariant 0 <= i <= |events|
      invariant found == LastComplete(events[..i])
    {
      assert events[..i + 1][..i] == events[..i];
      if events[i].Complete? {
        found := Some(events[i].report);
      }
      i := i + 1;
    }
    assert events[..|events|] == events;
  }

  /** The workflow object; `shared_context` is the one field its runs update. */
  class AlphaFundAgent {
    var sharedContext: seq<AgentMessage>

    constructor()
      ensures sharedContext == []
    {
      sharedContext := [];
    }

    /** The optional deep research step and the market analysis step. */
    method OpeningSteps(topic: string, deepResearch: bool, configured: bool, post: Post)
      returns (events: seq<Event>, report: Report)
      modifies this
      ensures var h0 := if deepResearch then [DeepResearcher(configured, topic, post)] else [];
              sharedContext == h0 + [MarketAnalyst(configured, topic, h0, post)]
      ensures |events| == |sharedContext|
      ensures forall k :: 0 <= k < |events| ==> events[k].AgentComplete? && events[k].agent == sharedContext[k]
      ensures report.topic == Some(topic) && report.status == "in_progress"
      ensures report.deepResearchAnalysis == (if deepResearch then Some(sharedContext[0].content) else None)
      ensures report.marketAnalysis == Some(sharedContext[|sharedContext| - 1].content)
      ensures report.sources == Some(sharedContext[|sharedContext| - 1].sources.GetOr([]))
      ensures report.quantAnalysis.None? && report.title.None? && report.investmentThesis.None?
      ensures report.critiqueAnalysis.None? && report.riskAssessment.None? && report.agentContext.None? && report.error.None?
      ensures events[|events| - 1].report == report
      ensures deepResearch ==> events[0].report == report.(marketAnalysis := None, sources := None)
    {
      sharedContext := [];
      report := Report(Some(topic), "in_progress", None, None, None, None, None, None, None, None, None, None);
      events := [];
      if deepResearch {
        var deep := DeepResearcher(configured, topic, post);
        sharedContext := sharedContext + [deep];
        report := report.(deepResearchAnalysis := Some(deep.content));
        events := events + [AgentComplete(deep, report)];
      }
      var analyst := MarketAnalyst(configured, topic, sharedContext, post);
      sharedContext := sharedContext + [analyst];
      report := report.(marketAnalysis := Some(analyst.content), sources := Some(analyst.sources.GetOr([])));
      events := events + [AgentComplete(analyst, report)];
    }

    /**
     * `run_workflow_stream(topic, deep_research)`. The shared context is
     * reset and then receives the transcript's messages in order, one
     * `agent_complete` event per message; the risk officer reads all of
     * them without adding its own, and a final `complete` event carries the
     * finished report.
     */
    method RunWorkflowStream(topic: string, deepResearch: bool, configured: bool, post: Post, parse: Parser)
      returns (events: seq<Event>)
      modifies this
      ensures sharedContext == Transcript(topic, deepResearch, configured, post, parse)
      ensures |sharedContext| == MarketAt(deepResearch) + 4 && |events| == |sharedContext| + 1
      ensures forall k :: 0 <= k < |sharedContext| ==>
                events[k] == AgentComplete(sharedContext[k],
                                           Snapshot(topic, deepResearch, sharedContext,
                                                    PortfolioManager(configured, topic, sharedContext[..MarketAt(deepResearch) + 2], post, parse),
                                                    k + 1))
      ensures events[|events| - 1]
              == Complete(Snapshot(topic, deepResearch, sharedContext,
                                   PortfolioManager(configured, topic, sharedContext[..MarketAt(deepResearch) + 2], post, parse),
                                   |sharedContext|)
                          .(status := "completed", riskAssessment := Some(RiskOfficer(configured, sharedContext, post, parse)),
                            agentContext := Some(sharedContext)))
    {
      var report;
      events, report := OpeningSteps(topic, deepResearch, configured, post);
      ghost var opening, r1 := events, report;

      var quant := QuantAnalyst(configured, topic, sharedContext, post);
      sharedContext := sharedContext + [quant];
      report := report.(quantAnalysis := Some(quant.content));
      events := events + [AgentComplete(quant, report)];
      ghost var h2, r2 := sharedContext, report;

      var manager := PortfolioManager(configured, topic, sharedContext, post, parse);
      sharedContext := sharedContext + [manager.message];
      report := report.(title := Some(manager.title), investmentThesis := Some(manager.thesis));
      events := events + [AgentComplete(manager.message, report)];
      ghost var r3 := report;

      var critic := Critic(configured, sharedContext, post);
      sharedContext := sharedContext + [critic];
      report := report.(critiqueAnalysis := Some(critic.content));
      events := events + [AgentComplete(critic, report)];
      ghost var r4 := report;

      var risk := RiskOfficer(configured, sharedContext, post, parse);
      report := report.(riskAssessment := Some(risk), status := "completed", agentContext := Some(sharedContext));
      events := events + [Complete(report)];

      ghost var o := MarketAt(deepResearch);
      ghost var h := sharedContext;
      assert h[..o + 2] == h2;
      SnapshotSteps(topic, deepResearch, h, manager);
      assert r1 == Snapshot(topic, deepResearch, h, manager, o + 1);
      assert r2 == Snapshot(topic, deepResearch, h, manager, o + 2);
      assert r3 == Snapshot(topic, deepResearch, h, manager, o + 3);
      assert r4 == Snapshot(topic, deepResearch, h, manager, o + 4);
      forall k | 0 <= k < |h|
        ensures events[k] == AgentComplete(h[k], Snapshot(topic, deepResearch, h, manager, k + 1))
      {
        if k <= o {
          assert events[k] == opening[k];
        }
      }
    }

    /**
     * `run_workflow`: the report of the last `complete` event of the
     * stream, or the "No data returned" error report when there is none.
     */
    method RunWorkflow(topic: string, deepResearch: bool, configured: bool, post: Post, parse: Parser)
      returns (report: Report)
      modifies this
      ensures sharedContext == Transcript(topic, deepResearch, configured, post, parse)
      ensures |sharedContext| == MarketAt(deepResearch) + 4
      ensures report.status == "completed" && report.topic == Some(topic) && report.error.None?
      ensures report.agentContext == Some(sharedContext)
      ensures report.deepResearchAnalysis == if deepResearch then Some(sharedContext[0].content) else None
      ensures report.marketAnalysis == Some(sharedContext[MarketAt(deepResearch)].content)
      ensures report.sources == Some(sharedContext[MarketAt(deepResearch)].sources.GetOr([]))
      ensures report.quantAnalysis == Some(sharedContext[MarketAt(deepResearch) + 1].content)
      ensures report.title == Some(PortfolioManager(configured, topic, sharedContext[..MarketAt(deepResearch) + 2], post, parse).title)
      ensures report.investmentThesis == Some(PortfolioManager(configured, topic, sharedContext[..MarketAt(deepResearch) + 2], post, parse).thesis)
      ensures report.critiqueAnalysis == Some(sharedContext[MarketAt(deepResearch) + 3].content)
      ensures report.riskAssessment == Some(RiskOfficer(configured, sharedContext, post, parse))
    {
      var events := RunWorkflowStream(topic, deepResearch, configured, post, parse);
      var found := FindLastComplete(events);
      assert found == Some(events[|events| - 1].report);
      report := found.GetOr(NoData);
    }
  }
}
