/**
 * The handful of Python `str` operations the core relies on, over `seq<char>`.
 * `lower()`/`upper()` act on ASCII letters only; `strip()`, `split()` and the
 * regular-expression class `\s` use Python's whitespace set.
 */
module Strings {

  /** `x` is one of `codes`. */
  predicate InCodes(x: int, codes: seq<int>) {
    codes != [] && (x == codes[0] || InCodes(x, codes[1..]))
  }

  /**
   * The characters Python's `str.isspace()` accepts (which `\s` also
   * matches): tab to carriage return, U+001C to space, and above the ASCII
   * range U+0085, U+00A0, U+1680, U+2000 to U+200A, U+2028, U+2029, U+202F,
   * U+205F and U+3000.
   */
  predicate IsSpace(c: char) {
    c == ' ' || ('\t' <= c <= '\r') || ('\U{001C}' <= c <= '\U{001F}')
    || (c as int >= 0x85
        && InCodes(c as int, [0x85, 0xA0, 0x1680, 0x2000, 0x2001, 0x2002, 0x2003, 0x2004, 0x2005, 0x2006, 0x2007,
                              0x2008, 0x2009, 0x200A, 0x2028, 0x2029, 0x202F, 0x205F, 0x3000]))
  }

  predicate IsDigit(c: char) { '0' <= c <= '9' }

  function LowerChar(c: char): char {
    if 'A' <= c <= 'Z' then (c as int + 32) as char else c
  }

  function UpperChar(c: char): char {
    if 'a' <= c <= 'z' then (c as int - 32) as char else c
  }

  /** `s.lower()` */
  function Lower(s: string): (r: string)
    ensures |r| == |s|
    ensures forall i :: 0 <= i < |s| ==> r[i] == LowerChar(s[i])
  {
    if s == [] then [] else [LowerChar(s[0])] + Lower(s[1..])
  }

  /** Lower-casing changes nothing in a text without ASCII capitals. */
  lemma LowerUnchanged(s: string)
    requires forall i :: 0 <= i < |s| ==> !('A' <= s[i] <= 'Z')
    ensures Lower(s) == s
  {
  }

  /** `s.upper()` */
  function Upper(s: string): (r: string)
    ensures |r| == |s|
    ensures forall i :: 0 <= i < |s| ==> r[i] == UpperChar(s[i])
  {
    if s == [] then [] else [UpperChar(s[0])] + Upper(s[1..])
  }

  /** `s.lstrip()` */
  function TrimStart(s: string): (r: string)
    ensures |r| <= |s| && r == s[|s| - |r|..]
    ensures r == [] || !IsSpace(r[0])
    ensures forall i :: 0 <= i < |s| - |r| ==> IsSpace(s[i])
  {
    if |s| > 0 && IsSpace(s[0]) then TrimStart(s[1..]) else s
  }

  /** `s.rstrip()` */
  function TrimEnd(s: string): (r: string)
    ensures |r| <= |s| && r == s[..|r|]
    ensures r == [] || !IsSpace(r[|r| - 1])
    ensures forall i :: |r| <= i < |s| ==> IsSpace(s[i])
  {
    if |s| > 0 && IsSpace(s[|s| - 1]) then TrimEnd(s[..|s| - 1]) else s
  }

  /**
   * `s.strip()`: `s` with the whitespace at both ends cut off; what is left
   * neither starts nor ends with whitespace.
   */
  function Strip(s: string): (r: string)
    ensures r == [] || (!IsSpace(r[0]) && !IsSpace(r[|r| - 1]))
    ensures Trimmed(s, r)
    ensures |r| <= |s|
  {
    TrimmedSlice(s);
    TrimEnd(TrimStart(s))
  }

  /** `r` is the slice `s[a..b]` for some `a` and `b` with only whitespace before `a` and from `b` on. */
  predicate Trimmed(s: string, r: string) {
    exists a, b :: 0 <= a <= b <= |s| && r == s[a..b]
                   && (forall i :: 0 <= i < a ==> IsSpace(s[i]))
                   && (forall i :: b <= i < |s| ==> IsSpace(s[i]))
  }

  /** Trimming both ends leaves a slice of `s` with only whitespace outside it. */
  lemma TrimmedSlice(s: string)
    ensures Trimmed(s, TrimEnd(TrimStart(s)))
  {
    var t := TrimStart(s);
    SliceWitness(s, t, TrimEnd(t), |s| - |t|);
  }

  lemma SliceWitness(s: string, t: string, r: string, a: nat)
    requires a <= |s| && t == s[a..] && |r| <= |t| && r == t[..|r|]
    requires forall i :: 0 <= i < a ==> IsSpace(s[i])
    requires forall i :: |r| <= i < |t| ==> IsSpace(t[i])
    ensures Trimmed(s, r)
  {
    var b := a + |r|;
    assert r == s[a..b];
    forall i | b <= i < |s| ensures IsSpace(s[i]) {
      assert s[i] == t[i - a];
    }
    assert 0 <= a <= b <= |s| && r == s[a..b]
           && (forall i :: 0 <= i < a ==> IsSpace(s[i])) && (forall i :: b <= i < |s| ==> IsSpace(s[i]));
  }

  /** A text with no whitespace at either end is its own strip. */
  lemma StripUnpadded(s: string)
    requires s == [] || (!IsSpace(s[0]) && !IsSpace(s[|s| - 1]))
    ensures Strip(s) == s
  {
    assert TrimStart(s) == s;
  }

  /** Stripping twice strips nothing more. */
  lemma StripStable(s: string)
    ensures Strip(Strip(s)) == Strip(s)
  {
    var r := Strip(s);
    if r != [] {
      assert TrimStart(r) == r;
      assert TrimEnd(r) == r;
    }
  }

  predicate StartsWith(s: string, prefix: string) {
    |prefix| <= |s| && s[..|prefix|] == prefix
  }

  predicate EndsWith(s: string, suffix: string) {
    |suffix| <= |s| && s[|s| - |suffix|..] == suffix
  }

  /** `sub` occurs in `s` starting at index `i`. */
  predicate OccursAt(s: string, sub: string, i: int) {
    0 <= i && i + |sub| <= |s| && s[i..i + |sub|] == sub
  }

  /** Least index at or after `from` where `sub` occurs in `s`, or -1. */
  function FindFrom(s: string, sub: string, from: nat): (r: int)
    ensures r == -1 || (from <= r && OccursAt(s, sub, r))
    ensures r == -1 ==> forall j :: from <= j ==> !OccursAt(s, sub, j)
    ensures r != -1 ==> forall j :: from <= j < r ==> !OccursAt(s, sub, j)
    decreases |s| + 1 - from
  {
    if from + |sub| > |s| then -1
    else if s[from..from + |sub|] == sub then from
    else FindFrom(s, sub, from + 1)
  }

  /** `s.find(sub)` */
  function Find(s: string, sub: string): (r: int)
    ensures r == -1 <==> forall j :: !OccursAt(s, sub, j)
    ensures r != -1 ==> OccursAt(s, sub, r) && forall j :: 0 <= j < r ==> !OccursAt(s, sub, j)
  {
    FindFrom(s, sub, 0)
  }

  /** `sub in s` */
  predicate Contains(s: string, sub: string) {
    Find(s, sub) != -1
  }

  lemma ContainsAt(s: string, sub: string, i: int)
    requires OccursAt(s, sub, i)
    ensures Contains(s, sub)
  {
  }

  /** The middle part of a three-part concatenation occurs right after the first. */
  lemma OccursBetween(a: string, b: string, c: string)
    ensures OccursAt(a + b + c, b, |a|)
  {
    assert (a + b + c)[|a|..|a| + |b|] == b;
  }

  /** A string containing `big` contains every substring of `big`. */
  lemma {:induction false} ContainsTransitive(s: string, big: string, small: string)
    requires Contains(s, big) && Contains(big, small)
    ensures Contains(s, small)
  {
    var i := Find(s, big);
    var j := Find(big, small);
    SliceOfSlice(s, i, i + |big|, j, j + |small|);
    ContainsAt(s, small, i + j);
  }

  /** A slice of a slice is a slice of the original. */
  lemma SliceOfSlice(s: string, a: int, b: int, c: int, d: int)
    requires 0 <= a <= b <= |s| && 0 <= c <= d <= b - a
    ensures s[a..b][c..d] == s[a + c..a + d]
  {
    forall k | 0 <= k < d - c
      ensures s[a..b][c..d][k] == s[a + c..a + d][k]
    {
      assert s[a..b][c..d][k] == s[a..b][c + k] == s[a + c + k];
    }
  }

  /** An occurrence of a non-empty `sub` starts with the first character of `sub`. */
  lemma OccurrenceStart(s: string, sub: string, i: int)
    requires |sub| > 0
    ensures OccursAt(s, sub, i) ==> s[i] == sub[0]
  {
    if OccursAt(s, sub, i) {
      assert s[i..i + |sub|][0] == s[i];
    }
  }

  /** A text lacking one of the characters of `sub` does not contain `sub`. */
  lemma NotContainsChar(s: string, sub: string, j: nat)
    requires j < |sub| && sub[j] !in s
    ensures !Contains(s, sub)
  {
  }

  /** A character that never appears in `s` cannot start an occurrence in it. */
  lemma NotContainsFirstChar(s: string, sub: string)
    requires |sub| > 0 && forall i :: 0 <= i < |s| ==> s[i] != sub[0]
    ensures !Contains(s, sub)
  {
    assert forall j :: OccursAt(s, sub, j) ==> s[j..j + |sub|][0] == s[j];
  }

  /** `s.replace(target, replacement, 1)` (an empty `target` occurs at 0). */
  function ReplaceFirst(s: string, target: string, replacement: string): (r: string)
    ensures !Contains(s, target) ==> r == s
    ensures Contains(s, target) ==> r == s[..Find(s, target)] + replacement + s[Find(s, target) + |target|..]
  {
    var i := Find(s, target);
    if i == -1 then s else s[..i] + replacement + s[i + |target|..]
  }

  /** `s[:n]` for a non-negative `n`. */
  function Take(s: string, n: nat): (r: string)
    ensures |r| <= n && |r| <= |s| && StartsWith(s, r)
    ensures |s| <= n ==> r == s
    ensures n <= |s| ==> |r| == n
  {
    if |s| <= n then s else s[..n]
  }

  /** `sep.join(parts)` */
  function Join(sep: string, parts: seq<string>): string {
    if |parts| == 0 then ""
    else if |parts| == 1 then parts[0]
    else parts[0] + sep + Join(sep, parts[1..])
  }

  /** Each part occurs in the joined text. */
  lemma {:induction false} JoinCarries(sep: string, parts: seq<string>, k: nat)
    requires k < |parts|
    ensures Contains(Join(sep, parts), parts[k])
  {
    if |parts| == 1 {
      ContainsAt(parts[0], parts[0], 0);
    } else if k == 0 {
      assert OccursAt(parts[0] + (sep + Join(sep, parts[1..])), parts[0], 0);
      ContainsAt(Join(sep, parts), parts[0], 0);
    } else {
      var rest := Join(sep, parts[1..]);
      JoinCarries(sep, parts[1..], k - 1);
      OccursBetween(parts[0] + sep, rest, "");
      assert parts[0] + sep + rest + "" == Join(sep, parts);
      ContainsAt(Join(sep, parts), rest, |parts[0] + sep|);
      ContainsTransitive(Join(sep, parts), rest, parts[k]);
    }
  }

  lemma JoinAppend(sep: string, parts: seq<string>, last: string)
    requires |parts| > 0
    ensures Join(sep, parts + [last]) == Join(sep, parts) + sep + last
  {
    if |parts| == 1 {
      assert parts + [last] == [parts[0], last];
    } else {
      assert (parts + [last])[1..] == parts[1..] + [last];
      JoinAppend(sep, parts[1..], last);
    }
  }

  /** `s.split(sep)` for a one-character separator: never empty, keeps empty pieces. */
  function Split(s: string, sep: char): (r: seq<string>)
    ensures |r| >= 1
    ensures forall k :: 0 <= k < |r| ==> sep !in r[k]
    decreases |s|
  {
    SplitAt(s, sep, 0)
  }

  function SplitAt(s: string, sep: char, i: nat): (r: seq<string>)
    requires i <= |s|
    requires sep !in s[..i]
    ensures |r| >= 1
    ensures forall k :: 0 <= k < |r| ==> sep !in r[k]
    decreases |s| - i
  {
    if i == |s| then [s]
    else if s[i] == sep then [s[..i]] + SplitAt(s[i + 1..], sep, 0)
    else
      assert s[..i + 1] == s[..i] + [s[i]];
      SplitAt(s, sep, i + 1)
  }

  lemma {:induction false} JoinSplitAt(s: string, sep: char, i: nat)
    requires i <= |s| && sep !in s[..i]
    ensures Join([sep], SplitAt(s, sep, i)) == s
    decreases |s| - i
  {
    if i == |s| {
    } else if s[i] == sep {
      var rest := SplitAt(s[i + 1..], sep, 0);
      JoinSplitAt(s[i + 1..], sep, 0);
      assert [s[..i]] + rest == [s[..i]] + rest;
      assert s == s[..i] + [sep] + s[i + 1..];
    } else {
      assert s[..i + 1] == s[..i] + [s[i]];
      JoinSplitAt(s, sep, i + 1);
    }
  }

  /** Joining the pieces of a split with the separator gives back the text. */
  lemma JoinSplit(s: string, sep: char)
    ensures Join([sep], Split(s, sep)) == s
  {
    JoinSplitAt(s, sep, 0);
  }

  lemma {:induction false} SplitAtPrefix(s: string, sep: char, i: nat)
    requires i <= |s| && sep !in s
    ensures SplitAt(s, sep, i) == [s]
    decreases |s| - i
  {
    if i < |s| {
      assert s[..i + 1] == s[..i] + [s[i]];
      SplitAtPrefix(s, sep, i + 1);
    }
  }

  lemma {:induction false} SplitJoin(parts: seq<string>, sep: char)
    requires |parts| >= 1
    requires forall k :: 0 <= k < |parts| ==> sep !in parts[k]
    ensures Split(Join([sep], parts), sep) == parts
  {
    if |parts| == 1 {
      SplitAtPrefix(parts[0], sep, 0);
    } else {
      var head := parts[0];
      var tail := Join([sep], parts[1..]);
      var s := head + [sep] + tail;
      assert Join([sep], parts) == s;
      SplitAtSkip(s, sep, |head|);
      assert s[|head|] == sep;
      assert s[..|head|] == head;
      assert s[|head| + 1..] == tail;
      SplitJoin(parts[1..], sep);
    }
  }

  lemma {:induction false} SplitAtSkip(s: string, sep: char, j: nat)
    requires j <= |s| && sep !in s[..j]
    ensures SplitAt(s, sep, 0) == SplitAt(s, sep, j)
    decreases j
  {
    if j > 0 {
      assert s[..j - 1] == s[..j][..j - 1];
      SplitAtSkip(s, sep, j - 1);
      assert s[j - 1] != sep by { assert s[j - 1] == s[..j][j - 1]; }
      assert s[..j] == s[..j - 1] + [s[j - 1]];
    }
  }

  /** `s.split()`: maximal runs of non-whitespace, in order (see `SplitWordsRuns`). */
  function SplitWords(s: string): (r: seq<string>)
    ensures forall k :: 0 <= k < |r| ==> |r[k]| > 0
  {
    WordsFrom(s, 0)
  }

  /** The scan of `split()` from index `i`: whitespace is skipped, a word is cut at the whitespace ending it. */
  function WordsFrom(s: string, i: nat): (r: seq<string>)
    requires i <= |s|
    ensures forall k :: 0 <= k < |r| ==> |r[k]| > 0
    decreases |s| - i
  {
    if i == |s| then []
    else if IsSpace(s[i]) then WordsFrom(s, i + 1)
    else
      var e := WordLength(s, i);
      [s[i..e]] + WordsFrom(s, e)
  }

  /** The end of the run of non-whitespace characters that starts at `i`. */
  function WordLength(t: string, i: nat): (n: nat)
    requires i <= |t|
    ensures i <= n <= |t|
    ensures n == |t| || IsSpace(t[n])
    ensures forall q :: i <= q < n ==> !IsSpace(t[q])
    decreases |t| - i
  {
    if i == |t| || IsSpace(t[i]) then i else WordLength(t, i + 1)
  }

  /** A word of `s` starts at `i`: a non-whitespace character at the start or after whitespace. */
  predicate IsWordStart(s: string, i: int) {
    0 <= i < |s| && !IsSpace(s[i]) && (i == 0 || IsSpace(s[i - 1]))
  }

  /** The indices at or after `i` where a word of `s` starts, in increasing order. */
  function WordStarts(s: string, i: nat): (p: seq<nat>)
    requires i <= |s|
    ensures forall k :: 0 <= k < |p| ==> i <= p[k] < |s| && IsWordStart(s, p[k])
    ensures forall k, l :: 0 <= k < l < |p| ==> p[k] < p[l]
    ensures forall q :: i <= q < |s| && IsWordStart(s, q) ==> q in p
    decreases |s| - i
  {
    if i == |s| then []
    else
      var head: seq<nat> := if IsWordStart(s, i) then [i] else [];
      var rest := WordStarts(s, i + 1);
      assert forall k :: 0 <= k < |head| ==> head[k] == i;
      head + rest
  }

  /** The words starting at the indices `p`, each cut at the whitespace that ends it. */
  function RunsAt(s: string, p: seq<nat>): seq<string>
    requires forall k :: 0 <= k < |p| ==> p[k] <= |s|
  {
    seq(|p|, k requires 0 <= k < |p| => s[p[k]..WordLength(s, p[k])])
  }

  /**
   * `split()` returns exactly the maximal whitespace-free runs of `s`, one
   * for each index where a word starts, in increasing order of those indices.
   */
  lemma SplitWordsRuns(s: string)
    ensures SplitWords(s) == RunsAt(s, WordStarts(s, 0))
  {
    WordsFromRuns(s, 0);
  }

  /** `i` does not cut a word of `s` in two. */
  predicate AtGap(s: string, i: int) {
    i <= 0 || i >= |s| || IsSpace(s[i - 1]) || IsSpace(s[i])
  }

  lemma {:induction false} WordsFromRuns(s: string, i: nat)
    requires i <= |s| && AtGap(s, i)
    ensures WordsFrom(s, i) == RunsAt(s, WordStarts(s, i))
    decreases |s| - i
  {
    if i < |s| {
      if IsSpace(s[i]) {
        assert WordStarts(s, i) == WordStarts(s, i + 1);
        WordsFromRuns(s, i + 1);
        assert WordsFrom(s, i) == WordsFrom(s, i + 1);
        assert WordsFrom(s, i) == RunsAt(s, WordStarts(s, i));
      } else {
        var e := OneWord(s, i);
        WordsFromRuns(s, e);
        RunsAtCons(s, i, WordStarts(s, e));
        assert WordsFrom(s, i) == [s[i..e]] + WordsFrom(s, e);
        assert WordsFrom(s, i) == RunsAt(s, WordStarts(s, i));
      }
    }
  }

  /** The word starting at `j` ends at `e`, where no word is cut and the next word starts no earlier. */
  lemma {:induction false} OneWord(s: string, j: nat) returns (e: nat)
    requires IsWordStart(s, j)
    ensures e == WordLength(s, j) && j < e && AtGap(s, e)
    ensures WordStarts(s, j) == [j] + WordStarts(s, e)
  {
    e := WordLength(s, j);
    WordStartsSkip(s, j + 1, e);
  }

  lemma RunsAtCons(s: string, j: nat, p: seq<nat>)
    requires j <= |s| && forall k :: 0 <= k < |p| ==> p[k] <= |s|
    ensures RunsAt(s, [j] + p) == [s[j..WordLength(s, j)]] + RunsAt(s, p)
  {
    var l := RunsAt(s, [j] + p);
    var r := [s[j..WordLength(s, j)]] + RunsAt(s, p);
    forall k | 0 <= k < |l| ensures l[k] == r[k] {
      if k > 0 {
        assert ([j] + p)[k] == p[k - 1];
      }
    }
  }

  /** No word starts in [`i`, `j`): the word starts from `i` are those from `j`. */
  lemma {:induction false} WordStartsSkip(s: string, i: nat, j: nat)
    requires i <= j <= |s|
    requires forall q :: i <= q < j ==> !IsWordStart(s, q)
    ensures WordStarts(s, i) == WordStarts(s, j)
    decreases j - i
  {
    if i < j {
      assert !IsWordStart(s, i);
      assert WordStarts(s, i) == [] + WordStarts(s, i + 1);
      assert [] + WordStarts(s, i + 1) == WordStarts(s, i + 1);
      WordStartsSkip(s, i + 1, j);
    }
  }

  /** `str(n)` for an integer: a minus sign exactly for negatives, then the digits of `|n|`. */
  function IntToString(n: int): (r: string)
    ensures |r| > 0
    ensures r[0] == '-' <==> n < 0
    ensures n < 0 ==> r[1..] == NatToString(-n)
    ensures n >= 0 ==> r == NatToString(n)
  {
    if n < 0 then "-" + NatToString(-n) else NatToString(n)
  }

  /** The number a string of decimal digits denotes. */
  function DigitsValue(s: string): nat
    requires forall i :: 0 <= i < |s| ==> IsDigit(s[i])
  {
    if s == [] then 0
    else
      assert IsDigit(s[|s| - 1]);
      10 * DigitsValue(s[..|s| - 1]) + (s[|s| - 1] as int - '0' as int)
  }

  /** `str(n)` for a natural number: decimal digits denoting `n`, with no leading zero. */
  function NatToString(n: nat): (r: string)
    ensures |r| > 0 && forall i :: 0 <= i < |r| ==> IsDigit(r[i])
    ensures DigitsValue(r) == n
    ensures r[0] == '0' ==> r == "0"
  {
    if n < 10 then [DigitChar(n)]
    else
      var h := NatToString(n / 10);
      assert (h + [DigitChar(n % 10)])[..|h|] == h;
      h + [DigitChar(n % 10)]
  }

  function DigitChar(d: nat): (c: char)
    requires d < 10
    ensures IsDigit(c) && c as int - '0' as int == d
  {
    ('0' as int + d) as char
  }

  /** `s * k` */
  function Repeat(s: string, k: nat): (r: string)
    ensures |r| == |s| * k
  {
    if k == 0 then "" else s + Repeat(s, k - 1)
  }

  /** `s.replace(c, d)` for single characters. */
  function ReplaceChar(s: string, c: char, d: char): (r: string)
    ensures |r| == |s|
    ensures forall i :: 0 <= i < |s| ==> r[i] == (if s[i] == c then d else s[i])
  {
    if s == [] then [] else [if s[0] == c then d else s[0]] + ReplaceChar(s[1..], c, d)
  }

  /** `s.replace(c, "")` for a single character. */
  function RemoveChar(s: string, c: char): (r: string)
    ensures c !in r
    ensures |r| <= |s|
  {
    if s == [] then [] else (if s[0] == c then [] else [s[0]]) + RemoveChar(s[1..], c)
  }
}
