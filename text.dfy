/**
 * The JavaScript string operations the renderer and the failure extractor
 * rely on: decimal numbers, `String.prototype.replace` with a string pattern
 * and with the global pattern /\n/g, `split(sep)[0]`, and `a || b` on strings.
 */
module Text {
  import opened Wrappers

  predicate IsDigit(c: char)
  {
    '0' <= c <= '9'
  }

  predicate AllDigits(s: string)
  {
    forall k :: 0 <= k < |s| ==> IsDigit(s[k])
  }

  /** The value of a run of decimal digits, as `parseInt(digits, 10)` reads it. */
  function DecimalValue(digits: string): nat
    requires AllDigits(digits)
  {
    if digits == [] then 0
    else DecimalValue(digits[..|digits| - 1]) * 10 + (digits[|digits| - 1] as int - '0' as int)
  }

  /** The decimal text of a natural number, as a template literal `${n}` prints it. */
  function NatToString(n: nat): (s: string)
    ensures s != [] && AllDigits(s)
    ensures s[0] != '0' || s == "0"
    ensures DecimalValue(s) == n
  {
    if n < 10 then [('0' as int + n) as char]
    else
      var prefix := NatToString(n / 10);
      var s := prefix + [('0' as int + n % 10) as char];
      assert s[..|s| - 1] == prefix;
      s
  }

  /** The decimal text of an integer, with a leading '-' when it is negative. */
  function IntToString(n: int): (s: string)
    ensures n >= 0 ==> s != [] && AllDigits(s) && DecimalValue(s) == n
    ensures n < 0 ==> |s| >= 2 && s[0] == '-' && AllDigits(s[1..]) && DecimalValue(s[1..]) == -n
  {
    if n < 0 then "-" + NatToString(-n) else NatToString(n)
  }

  /** `a || b` for strings: the default replaces an empty string. */
  function Or(s: string, default: string): string
  {
    if s != "" then s else default
  }

  /** `a || b` for an optional string: the default replaces an absent or empty string. */
  function OrElse(s: Option<string>, default: string): string
  {
    if s.Some? && s.value != "" then s.value else default
  }

  /** `pattern` occurs in `s` starting at index `i`. */
  predicate OccursAt(s: string, pattern: string, i: nat)
  {
    i + |pattern| <= |s| && s[i..i + |pattern|] == pattern
  }

  /** The least index at or after `from` where `pattern` occurs in `s`. */
  function FirstOccurrence(s: string, pattern: string, from: nat): (r: Option<nat>)
    decreases |s| - from
    ensures r.Some? ==> from <= r.value && OccursAt(s, pattern, r.value)
    ensures r.Some? ==> forall j: nat :: from <= j < r.value ==> !OccursAt(s, pattern, j)
    ensures r.None? ==> forall j: nat :: from <= j ==> !OccursAt(s, pattern, j)
  {
    if |s| < from + |pattern| then None
    else if OccursAt(s, pattern, from) then Some(from)
    else FirstOccurrence(s, pattern, from + 1)
  }

  /**
   * `s.replace(pattern, '')` with a string pattern: the leftmost occurrence
   * of `pattern` is removed, wherever it is; without one, `s` is unchanged.
   */
  function RemoveFirst(s: string, pattern: string): (r: string)
    ensures forall ch :: ch in r ==> ch in s
    ensures (forall i: nat :: !OccursAt(s, pattern, i)) ==> r == s
    ensures forall i: nat :: OccursAt(s, pattern, i) && (forall j: nat :: j < i ==> !OccursAt(s, pattern, j)) ==>
      r == s[..i] + s[i + |pattern|..]
  {
    match FirstOccurrence(s, pattern, 0)
    case None => s
    case Some(i) => s[..i] + s[i + |pattern|..]
  }

  /** `s.replace(/\n/g, '<br>')`: every line break becomes a `<br>` marker. */
  function ReplaceNewlines(s: string): (r: string)
    ensures '\n' !in r
    ensures '\n' !in s ==> r == s
    ensures |r| >= |s|
  {
    if s == [] then []
    else (if s[0] == '\n' then "<br>" else [s[0]]) + ReplaceNewlines(s[1..])
  }

  /** `s.split(separator)[0]`: the text before the first separator, or all of `s`. */
  function TextBefore(s: string, separator: char): (r: string)
    ensures r <= s && separator !in r
    ensures |r| < |s| ==> s[|r|] == separator
  {
    if s == [] || s[0] == separator then []
    else [s[0]] + TextBefore(s[1..], separator)
  }

  /** The text of a sequence of chunks written one after the other. */
  function Concat(chunks: seq<string>): string
  {
    if chunks == [] then "" else Concat(chunks[..|chunks| - 1]) + chunks[|chunks| - 1]
  }

  /** Replacing line breaks works piece by piece. */
  lemma {:induction false} ReplaceNewlinesAppend(a: string, b: string)
    ensures ReplaceNewlines(a + b) == ReplaceNewlines(a) + ReplaceNewlines(b)
  {
    if a == [] {
      assert a + b == b;
    } else {
      assert (a + b)[0] == a[0];
      assert (a + b)[1..] == a[1..] + b;
      ReplaceNewlinesAppend(a[1..], b);
      var head := if a[0] == '\n' then "<br>" else [a[0]];
      assert ReplaceNewlines(a + b) == head + ReplaceNewlines(a[1..] + b);
      assert ReplaceNewlines(a) == head + ReplaceNewlines(a[1..]);
      AppendAssociates(head, ReplaceNewlines(a[1..]), ReplaceNewlines(b));
    }
  }

  lemma AppendAssociates<T>(a: seq<T>, b: seq<T>, c: seq<T>)
    ensures (a + b) + c == a + (b + c)
  {
  }

  lemma AppendRegroup<T>(a: seq<T>, b: seq<T>, c: seq<T>, d: seq<T>, e: seq<T>, f: seq<T>)
    ensures a + b + c + d + e + f == a + (b + (c + d + e + f))
  {
  }

  lemma PrefixOfPrefix<T>(a: seq<T>, b: seq<T>, c: seq<T>)
    requires a <= b && b <= c
    ensures a <= c
  {
  }

  lemma PrefixAfter<T>(a: seq<T>, b: seq<T>, c: seq<T>)
    requires b <= c
    ensures a + b <= a + c
  {
    assert (a + c)[..|a + b|] == a + b;
  }

  /** A line break between two texts becomes exactly one marker; nothing else changes. */
  lemma ReplaceNewlinesAtBreak(a: string, b: string)
    ensures ReplaceNewlines(a + "\n" + b) == ReplaceNewlines(a) + "<br>" + ReplaceNewlines(b)
  {
    ReplaceNewlinesAppend(a, "\n" + b);
    ReplaceNewlinesAppend("\n", b);
    assert ReplaceNewlines("\n") == "<br>";
    AppendAssociates(a, "\n", b);
    AppendAssociates(ReplaceNewlines(a), "<br>", ReplaceNewlines(b));
  }

  /** Removing a pattern that begins the text leaves the rest of it. */
  lemma RemoveLeadingPattern(pattern: string, rest: string)
    ensures RemoveFirst(pattern + rest, pattern) == rest
  {
    var s := pattern + rest;
    assert OccursAt(s, pattern, 0);
    assert s[0 + |pattern|..] == rest;
  }

  /** The text before a separator is everything up to its first occurrence. */
  lemma {:induction false} TextBeforeFirstSeparator(prefix: string, separator: char, rest: string)
    requires separator !in prefix
    ensures TextBefore(prefix + [separator] + rest, separator) == prefix
  {
    var s := prefix + [separator] + rest;
    if prefix != [] {
      assert s[0] == prefix[0] != separator;
      assert s[1..] == prefix[1..] + [separator] + rest;
      TextBeforeFirstSeparator(prefix[1..], separator, rest);
    }
  }

  /** Removing a one-character pattern removes its first occurrence only. */
  lemma RemoveFirstCharacter(prefix: string, ch: char, rest: string)
    requires ch !in prefix
    ensures RemoveFirst(prefix + [ch] + rest, [ch]) == prefix + rest
  {
    var s := prefix + [ch] + rest;
    assert OccursAt(s, [ch], |prefix|);
    forall j: nat | j < |prefix|
      ensures !OccursAt(s, [ch], j)
    {
      assert s[j] == prefix[j];
    }
    assert s[..|prefix|] == prefix && s[|prefix| + 1..] == rest;
  }
}
