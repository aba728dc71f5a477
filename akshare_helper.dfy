/**
 * Argument normalisation for the market-data tools: stock symbols and market
 * codes are brought into one form, per-tool defaults are filled in, and the
 * required arguments of each tool are checked. Tool arguments are the JSON
 * object the model produced, as a map from key to value (key order is not
 * modelled).
 */
module AkshareHelper {
  import opened Wrappers
  import opened Strings
  import opened JsonValues

  type Args = map<string, Json>

  /** A normalised `{"symbol": ..., "market": ...}` pair. */
  datatype Normalized = Normalized(symbol: string, market: Json)

  /** Python's `market or "A"`. */
  function MarketOr(market: Json): (r: Json)
    ensures Truthy(r)
    ensures Truthy(market) ==> r == market
    ensures !Truthy(market) ==> r == JStr("A")
  {
    if Truthy(market) then market else JStr("A")
  }

  /** Exchange suffixes that belong to the A-share market (Shenzhen and Shanghai). */
  predicate AShareExchange(exchange: string) {
    var e := Upper(exchange);
    e == "SZ" || e == "SZSE" || e == "SH" || e == "SSE"
  }

  /** Leading characters of Shenzhen, Shanghai, Beijing and NEEQ codes. */
  predicate AShareCode(code: string) {
    |code| > 0 && (code[0] == '0' || code[0] == '3' || code[0] == '6' || code[0] == '8' || code[0] == '4')
  }

  /** `s.split('.')[1]` when `s` holds a `.`: the text between the first and the second dot. */
  function SecondPart(s: string): (r: string)
    requires '.' in s
    ensures '.' !in r
  {
    var rest := s[IndexOf(s, '.') + 1..];
    if '.' in rest then rest[..IndexOf(rest, '.')] else rest
  }

  /**
   * `normalize_stock_symbol(symbol, market)`. An absent market is `JNull`.
   * The symbol is the stripped text up to its first dot; the market is "A"
   * for a known A-share exchange suffix or code prefix, else the caller's
   * market or "A".
   */
  function NormalizeSymbol(symbol: Json, market: Json): (r: Normalized)
    ensures '.' !in r.symbol
    ensures Truthy(r.market)
    ensures r.market == JStr("A") || r.market == market
    ensures !Truthy(symbol) ==> r == Normalized("", MarketOr(market))
    ensures Truthy(symbol) ==> StartsWith(Strip(PyStr(symbol)), r.symbol)
  {
    if !Truthy(symbol) then Normalized("", MarketOr(market))
    else NormalizeStripped(Strip(PyStr(symbol)), market)
  }

  /** The truthy case of `normalize_stock_symbol`, on the stripped text `s`. */
  function NormalizeStripped(s: string, market: Json): (r: Normalized)
    ensures '.' !in r.symbol && StartsWith(s, r.symbol)
    ensures Truthy(r.market) && (r.market == JStr("A") || r.market == market)
  {
    if '.' in s then
      var code := s[..IndexOf(s, '.')];
      if AShareExchange(SecondPart(s)) then Normalized(code, JStr("A"))
      else Normalized(code, MarketOr(market))
    else if AShareCode(s) then Normalized(s, JStr("A"))
    else Normalized(s, MarketOr(market))
  }

  /**
   * A dotted symbol keeps what precedes its first dot; the market is "A"
   * exactly for the Shenzhen and Shanghai suffixes, whatever market was
   * passed, and the caller's market (or "A") otherwise.
   */
  lemma NormalizeDotted(symbol: Json, market: Json)
    requires Truthy(symbol) && '.' in Strip(PyStr(symbol))
    ensures var s := Strip(PyStr(symbol));
            var r := NormalizeSymbol(symbol, market);
            r.symbol == s[..IndexOf(s, '.')]
            && (AShareExchange(SecondPart(s)) ==> r.market == JStr("A"))
            && (!AShareExchange(SecondPart(s)) ==> r.market == MarketOr(market))
  {
  }

  /**
   * An undotted symbol is kept stripped; codes starting with 0, 3, 6, 8 or 4
   * are A-shares whatever market was passed, others take the caller's market
   * or "A".
   */
  lemma NormalizeUndotted(symbol: Json, market: Json)
    requires Truthy(symbol) && '.' !in Strip(PyStr(symbol))
    ensures var s := Strip(PyStr(symbol));
            var r := NormalizeSymbol(symbol, market);
            r.symbol == s
            && (AShareCode(s) ==> r.market == JStr("A"))
            && (!AShareCode(s) ==> r.market == MarketOr(market))
  {
  }

  /**
   * Normalising an undotted symbol is stable: normalising the result again
   * gives the same pair, so formatting the arguments twice changes nothing
   * more for such symbols.
   */
  lemma NormalizeStable(symbol: Json, market: Json)
    requires !Truthy(symbol) || '.' !in Strip(PyStr(symbol))
    ensures var r := NormalizeSymbol(symbol, market);
            NormalizeSymbol(JStr(r.symbol), r.market) == r
  {
    var r := NormalizeSymbol(symbol, market);
    if Truthy(symbol) {
      var s := Strip(PyStr(symbol));
      assert r == NormalizeStripped(s, market);
      if s != "" {
        assert r.symbol == s;
        StripStable(PyStr(symbol));
        Renormalize(s, r.market);
        StrippedStable(s, market);
      } else {
        assert r == Normalized("", MarketOr(market));
      }
    }
  }

  /** A stripped non-empty string symbol normalises by its own text. */
  lemma Renormalize(s: string, market: Json)
    requires s != "" && Strip(s) == s
    ensures NormalizeSymbol(JStr(s), market) == NormalizeStripped(s, market)
  {
    assert Truthy(JStr(s)) && PyStr(JStr(s)) == s;
  }

  /** An undotted stripped symbol normalises to itself, with a market that normalises to itself. */
  lemma StrippedStable(s: string, market: Json)
    requires '.' !in s && s != ""
    ensures NormalizeStripped(s, NormalizeStripped(s, market).market) == NormalizeStripped(s, market)
  {
  }

  /** The tools that take a stock symbol. */
  predicate StockTool(tool: string) {
    tool == "stock_info" || tool == "stock_prices" || tool == "stock_news"
    || tool == "stock_indicators_a" || tool == "stock_indicators_hk" || tool == "stock_indicators_us"
  }

  /** `args.get(key)`, with `None` as `JNull`. */
  function GetArg(args: Args, key: string): Json {
    if key in args then args[key] else JNull
  }

  /** The symbol step of `format_tool_args`. */
  function WithSymbol(tool: string, args: Args): Args {
    if StockTool(tool) && "symbol" in args then
      var n := NormalizeSymbol(args["symbol"], GetArg(args, "market"));
      args["symbol" := JStr(n.symbol)]["market" := n.market]
    else args
  }

  /** `args.setdefault(key, value)` */
  function Default(args: Args, key: string, value: Json): (r: Args)
    ensures key in r && r.Keys == args.Keys + {key}
    ensures forall k :: k in args ==> r[k] == args[k]
    ensures key !in args ==> r[key] == value
  {
    if key in args then args else args[key := value]
  }

  /** The per-tool defaults of `format_tool_args`. */
  function WithDefaults(tool: string, args: Args): Args {
    if tool == "stock_prices" then Default(Default(args, "period", JStr("1d")), "limit", JNum(10))
    else if tool == "stock_news" then Default(args, "limit", JNum(5))
    else args
  }

  /**
   * The search market step: a missing market becomes "sh", "a" in any case
   * becomes "sh", other strings are kept; a market that is not a string has
   * no `lower()` and raises.
   */
  function WithSearchMarket(tool: string, args: Args): Result<Args> {
    if tool != "search" then Success(args)
    else if "market" !in args then Success(args["market" := JStr("sh")])
    else match args["market"]
      case JStr(m) => Success(if Lower(m) == "a" then args["market" := JStr("sh")] else args)
      case _ => Failure("AttributeError: object has no attribute 'lower'")
  }

  /** `format_tool_args(tool_name, tool_args)` on a copy of the arguments. */
  function FormatToolArgs(tool: string, args: Args): (r: Result<Args>)
    ensures r.Failure? <==> tool == "search" && "market" in args && !args["market"].JStr?
  {
    WithSearchMarket(tool, WithDefaults(tool, WithSymbol(tool, args)))
  }

  /**
   * What `format_tool_args` does to each key: a stock tool's symbol and
   * market are replaced by the normalised pair, the defaults appear only
   * where the key was absent, and the search market is "sh" when it was
   * missing or "a"/"A".
   */
  lemma FormatToolArgsKeys(tool: string, args: Args)
    requires FormatToolArgs(tool, args).Success?
    ensures var r := FormatToolArgs(tool, args).value;
            var n := NormalizeSymbol(GetArg(args, "symbol"), GetArg(args, "market"));
            (StockTool(tool) && "symbol" in args ==> r["symbol"] == JStr(n.symbol) && r["market"] == n.market)
            && (!StockTool(tool) && tool != "search" ==> r.Keys == args.Keys + (if tool == "stock_prices" then {"period", "limit"} else {}))
            && (tool == "stock_prices" ==> (r["period"] == (if "period" in args then args["period"] else JStr("1d"))
                                            && r["limit"] == (if "limit" in args then args["limit"] else JNum(10))))
            && (tool == "stock_news" ==> r["limit"] == (if "limit" in args then args["limit"] else JNum(5)))
            && (tool == "search" ==> r["market"] == (if "market" !in args then JStr("sh")
                                                     else if Lower(args["market"].s) == "a" then JStr("sh")
                                                     else args["market"]))
  {
  }

  /**
   * Formatting removes no key, adds only the symbol, market and default
   * keys, and leaves every other argument as the caller passed it. The
   * symbol and market are rewritten only for a stock tool given a symbol,
   * and the market besides only for a search.
   */
  lemma FormatToolArgsKeeps(tool: string, args: Args)
    requires FormatToolArgs(tool, args).Success?
    ensures var r := FormatToolArgs(tool, args).value;
            args.Keys <= r.Keys <= args.Keys + {"symbol", "market", "period", "limit"}
            && (forall k :: k in args && k != "symbol" && k != "market" ==> r[k] == args[k])
            && (!(StockTool(tool) && "symbol" in args) ==>
                  ("symbol" in args ==> r["symbol"] == args["symbol"])
                  && (tool != "search" && "market" in args ==> r["market"] == args["market"]))
  {
    var a1 := WithSymbol(tool, args);
    var a2 := WithDefaults(tool, a1);
    assert args.Keys <= a1.Keys <= args.Keys + {"symbol", "market"};
    assert forall k :: k in args && k != "symbol" && k != "market" ==> a1[k] == args[k];
    assert a1.Keys <= a2.Keys <= a1.Keys + {"period", "limit"};
    assert forall k :: k in a1 ==> a2[k] == a1[k];
  }

  /** `(is_valid, error_message)` */
  datatype Validation = Validation(ok: bool, error: Option<string>)

  /** `args.get(key)` is present and truthy. */
  predicate HasTruthy(args: Args, key: string) {
    key in args && Truthy(args[key])
  }

  /** `validate_tool_args(tool_name, tool_args)` */
  function ValidateToolArgs(tool: string, args: Args): (r: Validation)
    ensures r.ok <==> r.error.None?
    ensures r.ok <==> ((tool == "stock_info" || tool == "stock_prices") ==> HasTruthy(args, "symbol") && "market" in args)
                      && (tool == "stock_news" ==> HasTruthy(args, "symbol"))
                      && (tool == "search" ==> HasTruthy(args, "keyword"))
  {
    if (tool == "stock_info" || tool == "stock_prices") && !HasTruthy(args, "symbol") then
      Validation(false, Some(tool + " 需要 symbol 参数"))
    else if (tool == "stock_info" || tool == "stock_prices") && "market" !in args then
      Validation(false, Some(tool + " 需要 market 参数"))
    else if tool == "stock_news" && !HasTruthy(args, "symbol") then
      Validation(false, Some("stock_news 需要 symbol 参数"))
    else if tool == "search" && !HasTruthy(args, "keyword") then
      Validation(false, Some("search 需要 keyword 参数"))
    else Validation(true, None)
  }

  /**
   * Formatting makes a stock tool's arguments valid whenever its symbol
   * normalises to a non-empty code: the market is then always filled in.
   * Formatting never changes the verdict for a search.
   */
  lemma FormattedArgsValidate(tool: string, args: Args)
    requires FormatToolArgs(tool, args).Success?
    ensures StockTool(tool) && "symbol" in args
            && NormalizeSymbol(args["symbol"], GetArg(args, "market")).symbol != ""
            ==> ValidateToolArgs(tool, FormatToolArgs(tool, args).value).ok
    ensures tool == "search" ==> ValidateToolArgs(tool, FormatToolArgs(tool, args).value) == ValidateToolArgs(tool, args)
  {
    if tool == "search" {
      FormatToolArgsKeeps(tool, args);
      var r := FormatToolArgs(tool, args).value;
      assert HasTruthy(r, "keyword") == HasTruthy(args, "keyword");
    } else {
      FormatToolArgsKeys(tool, args);
    }
  }
}
