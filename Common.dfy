/** Shared vocabulary: optional values and results, and the few string
    operations of JavaScript, Java and Spring that the model needs. */
module Common {

  datatype Option<+T> = None | Some(value: T)

  datatype Result<+T, +E> = Ok(value: T) | Err(error: E)

  /** `s.startsWith(prefix)` in both JavaScript and Java. */
  predicate StartsWith(s: string, prefix: string)
  {
    |prefix| <= |s| && s[..|prefix|] == prefix
  }

  /** `s.endsWith(suffix)`. */
  predicate EndsWith(s: string, suffix: string)
  {
    |suffix| <= |s| && s[|s| - |suffix|..] == suffix
  }

  /** Java's `s.lastIndexOf(c)`: the last position holding `c`, or -1. */
  function LastIndexOf(s: string, c: char): (r: int)
    ensures -1 <= r < |s|
    ensures r >= 0 ==> s[r] == c
    ensures forall k :: r < k < |s| ==> s[k] != c
  {
    if |s| == 0 then -1
    else if s[|s| - 1] == c then |s| - 1
    else LastIndexOf(s[..|s| - 1], c)
  }

  predicate IsDigits(s: string)
  {
    forall k :: 0 <= k < |s| ==> '0' <= s[k] <= '9'
  }

  /** A numeral as both languages print one: digits, and no leading zero
      unless the number is zero. */
  predicate IsCanonicalNumeral(s: string)
  {
    |s| >= 1 && IsDigits(s) && (|s| == 1 || s[0] != '0')
  }

  /** The number a string of decimal digits denotes. */
  function DigitsValue(s: string): nat
    requires IsDigits(s)
  {
    if s == [] then 0 else DigitsValue(s[..|s| - 1]) * 10 + (s[|s| - 1] - '0') as nat
  }

  /** The decimal digits of `n`, as Java's `Integer.toString` and a
      JavaScript template literal write them. */
  function NatToString(n: nat): (r: string)
    ensures IsCanonicalNumeral(r)
    ensures DigitsValue(r) == n
  {
    var digit := ['0' + (n % 10) as char];
    if n < 10 then digit
    else
      var r := NatToString(n / 10) + digit;
      assert r[..|r| - 1] == NatToString(n / 10);
      r
  }

  /** Every canonical numeral is the printed form of its value. */
  lemma {:induction false} NatToStringOfNumeral(s: string)
    requires IsCanonicalNumeral(s)
    ensures NatToString(DigitsValue(s)) == s
    decreases |s|
  {
    if |s| > 1 {
      var init := s[..|s| - 1];
      var d := (s[|s| - 1] - '0') as nat;
      var v := DigitsValue(init);
      assert IsCanonicalNumeral(init) by { assert init[0] == s[0]; }
      NatToStringOfNumeral(init);
      assert v != 0 by { assert NatToString(0) == "0"; }
      var n := v * 10 + d;
      assert DigitsValue(s) == n;
      LastDigit(v, d);
      assert '0' + (n % 10) as char == s[|s| - 1];
      assert NatToString(n) == NatToString(v) + [s[|s| - 1]];
      assert s == init + [s[|s| - 1]];
    }
  }

  lemma LastDigit(v: nat, d: nat)
    requires d < 10
    ensures (v * 10 + d) / 10 == v && (v * 10 + d) % 10 == d
  {
  }

  /** True iff `c` occurs in `s`. */
  predicate Contains(s: string, c: char)
  {
    exists k :: 0 <= k < |s| && s[k] == c
  }

  lemma LastIndexOfFound(s: string, c: char)
    ensures LastIndexOf(s, c) >= 0 <==> Contains(s, c)
  {
    if Contains(s, c) {
      var k :| 0 <= k < |s| && s[k] == c;
      assert LastIndexOf(s, c) >= k;
    }
  }

  /** Java's `String.trim()` strips every character up to U+0020. */
  predicate JavaTrimmed(c: char)
  {
    c <= ' '
  }

  /** `s == null || s.trim().isEmpty()` for a present string. */
  predicate JavaBlank(s: string)
  {
    forall k :: 0 <= k < |s| ==> JavaTrimmed(s[k])
  }

  /** Java's `Character.isWhitespace` on the characters it accepts
      (space separators except the no-break ones, and the ASCII controls
      U+0009-U+000D, U+001C-U+001F). */
  predicate JavaWhitespace(c: char)
  {
    ('\t' <= c <= '\r') || ('\U{1C}' <= c <= '\U{1F}') || c == ' '
    || c == '\U{1680}' || ('\U{2000}' <= c <= '\U{2006}') || ('\U{2008}' <= c <= '\U{200A}')
    || c == '\U{2028}' || c == '\U{2029}' || c == '\U{205F}' || c == '\U{3000}'
  }

  /** Spring's `StringUtils.hasText`: present and holding a non-whitespace character. */
  predicate HasText(s: Option<string>)
  {
    s.Some? && exists k :: 0 <= k < |s.value| && !JavaWhitespace(s.value[k])
  }

  /** The characters that JavaScript's `String.prototype.trim` removes. */
  predicate JsWhitespace(c: char)
  {
    ('\t' <= c <= '\r') || c == ' ' || c == '\U{A0}' || c == '\U{1680}'
    || ('\U{2000}' <= c <= '\U{200A}') || c == '\U{2028}' || c == '\U{2029}'
    || c == '\U{202F}' || c == '\U{205F}' || c == '\U{3000}' || c == '\U{FEFF}'
  }

  function JsTrimStart(s: string): (r: string)
    ensures |r| <= |s| && r == s[|s| - |r|..]
    ensures |r| > 0 ==> !JsWhitespace(r[0])
    ensures forall k :: 0 <= k < |s| - |r| ==> JsWhitespace(s[k])
  {
    if |s| > 0 && JsWhitespace(s[0]) then JsTrimStart(s[1..]) else s
  }

  function JsTrimEnd(s: string): (r: string)
    ensures |r| <= |s| && r == s[..|r|]
    ensures |r| > 0 ==> !JsWhitespace(r[|r| - 1])
    ensures forall k :: |r| <= k < |s| ==> JsWhitespace(s[k])
  {
    if |s| > 0 && JsWhitespace(s[|s| - 1]) then JsTrimEnd(s[..|s| - 1]) else s
  }

  /** JavaScript's `s.trim()`. */
  function JsTrim(s: string): string
  {
    JsTrimEnd(JsTrimStart(s))
  }

  /** A string without JavaScript whitespace is its own trim. */
  lemma JsTrimNoWhitespace(s: string)
    requires forall k :: 0 <= k < |s| ==> !JsWhitespace(s[k])
    ensures JsTrim(s) == s
  {
    var t := JsTrimStart(s);
    assert |s| > 0 ==> |t| == |s|;
    assert t == s;
    var u := JsTrimEnd(t);
    assert |t| > 0 ==> |u| == |t|;
  }

  /** The trim of `s` is empty iff every character of `s` is whitespace. */
  lemma JsTrimEmpty(s: string)
    ensures JsTrim(s) == [] <==> forall k :: 0 <= k < |s| ==> JsWhitespace(s[k])
  {
  }

  /** Elements of `s` that satisfy `p`, in order (`Array.prototype.filter`). */
  function Filter<T(!new)>(s: seq<T>, p: T -> bool): (r: seq<T>)
    ensures |r| <= |s|
    ensures forall x :: x in r <==> x in s && p(x)
    ensures (forall x :: x in s ==> !p(x)) ==> r == []
  {
    if s == [] then [] else (if p(s[0]) then [s[0]] else []) + Filter(s[1..], p)
  }

  lemma FilterConcat<T(!new)>(a: seq<T>, b: seq<T>, p: T -> bool)
    ensures Filter(a + b, p) == Filter(a, p) + Filter(b, p)
  {
    if a == [] {
      assert a + b == b;
    } else {
      assert (a + b)[1..] == a[1..] + b;
      FilterConcat(a[1..], b, p);
    }
  }

  /** Number of elements of `s` that satisfy `p`. */
  function CountIf<T(!new)>(s: seq<T>, p: T -> bool): nat
  {
    |Filter(s, p)|
  }

  /** `parts.join(sep)`. */
  function Join(parts: seq<string>, sep: string): (r: string)
    ensures |parts| == 1 ==> r == parts[0]
    ensures parts == [] ==> r == ""
  {
    if parts == [] then ""
    else if |parts| == 1 then parts[0]
    else parts[0] + sep + Join(parts[1..], sep)
  }

  /** Length of a joined string: every part once, and one separator between neighbours. */
  function SumLengths(parts: seq<string>): nat
  {
    if parts == [] then 0 else |parts[0]| + SumLengths(parts[1..])
  }

  lemma {:induction false} JoinLength(parts: seq<string>, sep: string)
    requires parts != []
    ensures |Join(parts, sep)| == SumLengths(parts) + (|parts| - 1) * |sep|
  {
    if |parts| > 1 {
      JoinLength(parts[1..], sep);
    }
  }

  /** Ordered by `key` (ties in any order). */
  predicate AscendingBy<T>(s: seq<T>, key: T -> nat)
  {
    forall i, j :: 0 <= i < j < |s| ==> key(s[i]) <= key(s[j])
  }

  /** An element no larger than an ascending sequence can go in front of it. */
  lemma ConsAscending<T>(h: T, s: seq<T>, key: T -> nat)
    ensures AscendingBy(s, key) && (forall k :: 0 <= k < |s| ==> key(h) <= key(s[k])) ==> AscendingBy([h] + s, key)
  {
    if AscendingBy(s, key) && (forall k :: 0 <= k < |s| ==> key(h) <= key(s[k])) {
      var r := [h] + s;
      forall i, j | 0 <= i < j < |r|
        ensures key(r[i]) <= key(r[j])
      {
        assert r[j] == s[j - 1];
        if i > 0 {
          assert r[i] == s[i - 1];
        }
      }
    }
  }

  /** Places `x` before the first element with a larger key. */
  function InsertBy<T>(x: T, sorted: seq<T>, key: T -> nat): (r: seq<T>)
    ensures multiset(r) == multiset(sorted) + multiset{x}
    ensures AscendingBy(sorted, key) ==> AscendingBy(r, key)
  {
    if sorted == [] then [x]
    else if key(x) <= key(sorted[0]) then
      ConsAscending(x, sorted, key);
      [x] + sorted
    else
      var rest := InsertBy(x, sorted[1..], key);
      assert sorted == [sorted[0]] + sorted[1..];
      forall k | 0 <= k < |rest|
        ensures AscendingBy(sorted, key) ==> key(sorted[0]) <= key(rest[k])
      {
        assert rest[k] in multiset(rest);
        if rest[k] != x {
          var m :| 0 <= m < |sorted[1..]| && sorted[1..][m] == rest[k];
          assert sorted[m + 1] == rest[k];
        }
      }
      ConsAscending(sorted[0], rest, key);
      [sorted[0]] + rest
  }

  /** Insertion sort by `key`: a permutation, in ascending key order. */
  function SortBy<T>(s: seq<T>, key: T -> nat): (r: seq<T>)
    ensures multiset(r) == multiset(s)
    ensures AscendingBy(r, key)
  {
    if s == [] then []
    else
      assert s == [s[0]] + s[1..];
      InsertBy(s[0], SortBy(s[1..], key), key)
  }

  /** `"/topic/channel/" + channelId`: the destination the server publishes a
      channel's message and reaction events to, and the one the client
      subscribes for that channel. */
  function ChannelTopic(channelId: string): string
  {
    "/topic/channel/" + channelId
  }

  lemma ChannelTopicInjective(a: string, b: string)
    ensures ChannelTopic(a) == ChannelTopic(b) <==> a == b
  {
    var p := "/topic/channel/";
    if ChannelTopic(a) == ChannelTopic(b) {
      assert a == ChannelTopic(a)[|p|..];
      assert b == ChannelTopic(b)[|p|..];
    }
  }
}
