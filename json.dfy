/**
 * Parsed JSON values as the Python code sees them after `json.loads`, with the
 * dictionary lookup, truthiness and `str()` conversion the core applies to them,
 * and the greedy "first `{` to last `}`" search the core uses to cut a JSON
 * object out of a model reply. Parsing itself is not modelled: callers receive
 * a parser as a parameter `parse: string -> Option<Json>` where `None` stands
 * for `json.loads` raising.
 */
module JsonValues {
  import opened Wrappers
  import opened Strings

  /** Numbers are integers here; floats are not modelled. */
  datatype Json =
    | JNull
    | JBool(b: bool)
    | JNum(n: int)
    | JStr(s: string)
    | JArr(items: seq<Json>)
    | JObj(fields: seq<(string, Json)>)

  /** `json.loads`: the parsed value, or `None` when it raises. */
  type Parser = string -> Option<Json>

  /** `d.get(key)` on an object: the last binding of `key` wins, as in `json.loads`. */
  function Lookup(fields: seq<(string, Json)>, key: string): (r: Option<Json>)
    ensures r.None? <==> forall i :: 0 <= i < |fields| ==> fields[i].0 != key
    ensures r.Some? ==> exists i :: 0 <= i < |fields| && fields[i] == (key, r.value)
                                    && forall j :: i < j < |fields| ==> fields[j].0 != key
  {
    if |fields| == 0 then None
    else if fields[|fields| - 1].0 == key then Some(fields[|fields| - 1].1)
    else
      Lookup(fields[..|fields| - 1], key)
  }

  /** `j.get(key)` when `j` is a dict; `None` for a missing key or a non-object. */
  function Get(j: Json, key: string): Option<Json> {
    if j.JObj? then Lookup(j.fields, key) else None
  }

  /** `j.get(key, default)` for an object. */
  function GetOr(j: Json, key: string, default: Json): Json {
    Get(j, key).GetOr(default)
  }

  /** Python truthiness. */
  predicate Truthy(j: Json) {
    match j
    case JNull => false
    case JBool(b) => b
    case JNum(n) => n != 0
    case JStr(s) => s != ""
    case JArr(items) => items != []
    case JObj(fields) => fields != []
  }

  /** Python `str(j)`: strings are themselves, other values print as Python literals. */
  function PyStr(j: Json): string {
    if j.JStr? then j.s else Repr(j)
  }

  /**
   * Python `repr(j)`, up to escaping: strings are single-quoted without
   * escaping their contents.
   */
  function Repr(j: Json): string
    decreases j, 1
  {
    match j
    case JNull => "None"
    case JBool(b) => if b then "True" else "False"
    case JNum(n) => IntToString(n)
    case JStr(s) => "'" + s + "'"
    case JArr(items) => "[" + ReprItems(items, j) + "]"
    case JObj(fields) => "{" + ReprFields(fields, j) + "}"
  }

  function ReprItems(items: seq<Json>, ghost parent: Json): string
    requires forall k :: 0 <= k < |items| ==> items[k] < parent
    decreases parent, 0, |items|
  {
    if |items| == 0 then ""
    else if |items| == 1 then Repr(items[0])
    else Repr(items[0]) + ", " + ReprItems(items[1..], parent)
  }

  function ReprFields(fields: seq<(string, Json)>, ghost parent: Json): string
    requires forall k :: 0 <= k < |fields| ==> fields[k].1 < parent
    decreases parent, 0, |fields|
  {
    if |fields| == 0 then ""
    else
      var entry := "'" + fields[0].0 + "': " + Repr(fields[0].1);
      if |fields| == 1 then entry else entry + ", " + ReprFields(fields[1..], parent)
  }

  /** Keys of an object in order (duplicate keys from the text are kept). */
  function Keys(fields: seq<(string, Json)>): (r: seq<string>)
    ensures |r| == |fields| && forall k :: 0 <= k < |r| ==> r[k] == fields[k].0
  {
    if |fields| == 0 then [] else [fields[0].0] + Keys(fields[1..])
  }

  function Chars(s: string): (r: seq<Json>)
    ensures |r| == |s| && forall k :: 0 <= k < |r| ==> r[k] == JStr([s[k]])
  {
    if |s| == 0 then [] else [JStr([s[0]])] + Chars(s[1..])
  }

  /**
   * `for x in j`: a list yields its items, a string its one-character strings,
   * a dict its keys; iterating anything else raises `TypeError`.
   */
  function Iterate(j: Json): (r: Result<seq<Json>>)
    ensures r.Success? <==> (j.JArr? || j.JStr? || j.JObj?)
    ensures j.JArr? ==> r == Success(j.items)
    ensures j.JStr? ==> r.Success? && |r.value| == |j.s|
  {
    match j
    case JArr(items) => Success(items)
    case JStr(s) => Success(Chars(s))
    case JObj(fields) => Success(seq(|fields|, k requires 0 <= k < |fields| => JStr(Keys(fields)[k])))
    case _ => Failure("TypeError: object is not iterable")
  }

  /** Index of the first `c` in `s`, or -1. */
  function IndexOf(s: string, c: char): (r: int)
    ensures -1 <= r < |s|
    ensures r == -1 <==> c !in s
    ensures r != -1 ==> s[r] == c && c !in s[..r]
  {
    if |s| == 0 then -1
    else if s[0] == c then 0
    else
      var r := IndexOf(s[1..], c);
      if r == -1 then -1 else
        assert s[..r + 1] == [s[0]] + s[1..][..r];
        r + 1
  }

  /** Index of the last `c` in `s`, or -1. */
  function LastIndexOf(s: string, c: char): (r: int)
    ensures -1 <= r < |s|
    ensures r == -1 <==> c !in s
    ensures r != -1 ==> s[r] == c && c !in s[r + 1..]
  {
    if |s| == 0 then -1
    else if s[|s| - 1] == c then |s| - 1
    else
      var r := LastIndexOf(s[..|s| - 1], c);
      if r == -1 then -1 else
        assert s[r + 1..] == s[..|s| - 1][r + 1..] + [s[|s| - 1]];
        r
  }

  /**
   * `re.search(r'\{.*\}', s, re.DOTALL).group(0)`: the span from the first `{`
   * to the last `}`, when such a `}` comes after that `{`.
   */
  function BraceSpan(s: string): (r: Option<string>)
  {
    var i := IndexOf(s, '{');
    var j := LastIndexOf(s, '}');
    if i != -1 && j != -1 && i < j then Some(s[i..j + 1]) else None
  }

  /**
   * The greedy search matches exactly when some `{` comes before some `}`,
   * and the span it returns is bracketed, with no `{` before it and no `}`
   * after it in the text.
   */
  lemma BraceSpanMatches(s: string)
    ensures BraceSpan(s).Some? <==> exists i, j :: 0 <= i < j < |s| && s[i] == '{' && s[j] == '}'
    ensures BraceSpan(s).Some? ==> exists i, j :: 0 <= i < j < |s| && s[i] == '{' && s[j] == '}'
                                     && BraceSpan(s).value == s[i..j + 1] && '{' !in s[..i] && '}' !in s[j + 1..]
    ensures BraceSpan(s).Some? ==> var t := BraceSpan(s).value; |t| >= 2 && t[0] == '{' && t[|t| - 1] == '}'
  {
    BraceSpanExists(s);
    if BraceSpan(s).Some? {
      BraceSpanWitness(s);
    }
  }

  /** The match exists exactly when a `{` precedes a `}`. */
  lemma BraceSpanExists(s: string)
    ensures BraceSpan(s).Some? <==> exists i, j :: 0 <= i < j < |s| && s[i] == '{' && s[j] == '}'
  {
    if exists a, b :: 0 <= a < b < |s| && s[a] == '{' && s[b] == '}' {
      var a, b :| 0 <= a < b < |s| && s[a] == '{' && s[b] == '}';
      BraceSpanFound(s, a, b);
    }
  }

  /** A found span runs from the first `{` to the last `}`. */
  lemma BraceSpanWitness(s: string)
    requires BraceSpan(s).Some?
    ensures exists i, j :: 0 <= i < j < |s| && s[i] == '{' && s[j] == '}'
                           && BraceSpan(s).value == s[i..j + 1] && '{' !in s[..i] && '}' !in s[j + 1..]
    ensures var t := BraceSpan(s).value; |t| >= 2 && t[0] == '{' && t[|t| - 1] == '}'
  {
    var i := IndexOf(s, '{');
    var j := LastIndexOf(s, '}');
    var t := s[i..j + 1];
    assert BraceSpan(s).value == t && t[0] == s[i] && t[|t| - 1] == s[j];
  }

  lemma BraceSpanFound(s: string, a: nat, b: nat)
    requires a < b < |s| && s[a] == '{' && s[b] == '}'
    ensures BraceSpan(s) == Some(s[IndexOf(s, '{')..LastIndexOf(s, '}') + 1])
    ensures 0 <= IndexOf(s, '{') < LastIndexOf(s, '}')
    ensures '{' !in s[..IndexOf(s, '{')] && '}' !in s[LastIndexOf(s, '}') + 1..]
  {
    var i := IndexOf(s, '{');
    var j := LastIndexOf(s, '}');
    assert i != -1 && j != -1;
  }

  /**
   * Removing a character other than a brace from the text cannot destroy a
   * match: a `{` before a `}` in the text is still there once `c` is removed.
   */
  lemma BraceSpanSurvivesRemoval(s: string, c: char, i: nat, j: nat)
    requires c != '{' && c != '}'
    requires i < j < |s| && s[i] == '{' && s[j] == '}'
    ensures BraceSpan(RemoveChar(s, c)).Some?
  {
    var t := RemoveChar(s, c);
    BraceSpanMatches(t);
    {
      var i' := RemoveCharIndex(s, c, i);
      var j' := RemoveCharIndex(s, c, j);
      RemoveCharMonotone(s, c, i, j);
      assert t[i'] == '{' && t[j'] == '}';
    }
  }

  /** Where character `k` of `s` (not `c`) lands in `RemoveChar(s, c)`. */
  lemma {:induction false} RemoveCharIndex(s: string, c: char, k: nat) returns (k': nat)
    requires k < |s| && s[k] != c
    ensures k' < |RemoveChar(s, c)| && RemoveChar(s, c)[k'] == s[k]
    ensures k' == |RemoveChar(s[..k], c)|
  {
    if k == 0 {
      k' := 0;
    } else {
      var rest := RemoveCharIndex(s[1..], c, k - 1);
      assert s[1..][..k - 1] == s[..k][1..];
      k' := rest + (if s[0] == c then 0 else 1);
    }
  }

  lemma {:induction false} RemoveCharMonotone(s: string, c: char, i: nat, j: nat)
    requires i < j < |s| && s[i] != c && s[j] != c
    ensures |RemoveChar(s[..i], c)| < |RemoveChar(s[..j], c)|
  {
    if i == 0 {
      assert s[..j][0] == s[0];
    } else {
      RemoveCharMonotone(s[1..], c, i - 1, j - 1);
      assert s[1..][..i - 1] == s[..i][1..];
      assert s[1..][..j - 1] == s[..j][1..];
    }
  }
}
