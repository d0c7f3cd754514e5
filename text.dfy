/**
 * String operations of the JavaScript runtime that the scripts rely on:
 * `endsWith`, ASCII case mapping, `split` on one character, `trim`,
 * and the code-point ordering used by `<` on strings.
 */
module Text {

  predicate StartsWith(s: string, prefix: string) {
    |prefix| <= |s| && s[..|prefix|] == prefix
  }

  predicate EndsWith(s: string, suffix: string) {
    |suffix| <= |s| && s[|s| - |suffix|..] == suffix
  }

  // ---------------------------------------------------------------------
  // Case mapping (ASCII letters only)
  // ---------------------------------------------------------------------

  function LowerChar(c: char): char {
    if 'A' <= c <= 'Z' then (c as int + 32) as char else c
  }

  /** `toLowerCase()`, restricted to the ASCII letters. */
  function Lower(s: string): (r: string)
    ensures |r| == |s|
    ensures forall i :: 0 <= i < |s| ==> r[i] == LowerChar(s[i])
  {
    if s == [] then [] else [LowerChar(s[0])] + Lower(s[1..])
  }

  /** Lowering twice is lowering once. */
  lemma LowerIdempotent(s: string)
    ensures Lower(Lower(s)) == Lower(s)
  {
    var l := Lower(s);
    assert forall i :: 0 <= i < |l| ==> LowerChar(l[i]) == l[i];
  }

  /** A case-insensitive match of `s` against an all-lower-case ASCII pattern, as a regular expression with the `i` flag does it. */
  predicate MatchesIgnoringCase(s: string, pattern: string) {
    Lower(s) == pattern
  }

  // ---------------------------------------------------------------------
  // split(sep) on a one-character separator, and its inverse join(sep)
  // ---------------------------------------------------------------------

  /** Position of the first `c` in `s`, or `|s|` if there is none. */
  function IndexOf(s: string, c: char): (i: nat)
    ensures i <= |s|
    ensures forall k :: 0 <= k < i ==> s[k] != c
    ensures i < |s| ==> s[i] == c
  {
    if s == [] || s[0] == c then 0 else 1 + IndexOf(s[1..], c)
  }

  /** `s.split(sep)`: the pieces between the separators, empty pieces included. */
  function Split(s: string, sep: char): (pieces: seq<string>)
    ensures |pieces| >= 1
    ensures forall p :: p in pieces ==> sep !in p
    decreases |s|
  {
    var i := IndexOf(s, sep);
    if i == |s| then [s] else [s[..i]] + Split(s[i + 1..], sep)
  }

  function Join(pieces: seq<string>, sep: char): string {
    if pieces == [] then ""
    else if |pieces| == 1 then pieces[0]
    else pieces[0] + [sep] + Join(pieces[1..], sep)
  }

  /** Splitting loses nothing: joining the pieces back gives the original string. */
  lemma {:induction false} JoinSplit(s: string, sep: char)
    ensures Join(Split(s, sep), sep) == s
    decreases |s|
  {
    var i := IndexOf(s, sep);
    if i < |s| {
      JoinSplit(s[i + 1..], sep);
      var pieces := Split(s, sep);
      assert pieces == [s[..i]] + Split(s[i + 1..], sep);
      assert Join(pieces, sep) == s[..i] + [sep] + Join(pieces[1..], sep);
      assert s == s[..i] + [sep] + s[i + 1..];
    }
  }

  /** Joining pieces free of the separator loses nothing: splitting the result gives the pieces back. */
  lemma {:induction false} SplitJoin(pieces: seq<string>, sep: char)
    requires pieces != []
    requires forall p :: p in pieces ==> sep !in p
    ensures Split(Join(pieces, sep), sep) == pieces
  {
    if |pieces| == 1 {
      SplitNoSeparator(pieces[0], sep);
    } else {
      var head, rest := pieces[0], Join(pieces[1..], sep);
      var s := head + [sep] + rest;
      assert Join(pieces, sep) == s;
      var i := IndexOf(s, sep);
      assert s[|head|] == sep;
      assert forall k :: 0 <= k < |head| ==> s[k] == head[k] && head[k] in head;
      assert i == |head|;
      assert s[..i] == head && s[i + 1..] == rest;
      assert forall p :: p in pieces[1..] ==> p in pieces;
      SplitJoin(pieces[1..], sep);
      assert pieces == [head] + pieces[1..];
    }
  }

  /** Splitting a string that has no separator gives the string itself. */
  lemma SplitNoSeparator(s: string, sep: char)
    requires sep !in s
    ensures Split(s, sep) == [s]
  {
    assert IndexOf(s, sep) == |s|;
  }

  // ---------------------------------------------------------------------
  // trim()
  // ---------------------------------------------------------------------

  /** The characters `trim()` removes: the ECMAScript WhiteSpace and LineTerminator code points. */
  predicate IsSpace(c: char) {
    var n := c as int;
    (0x09 <= n <= 0x0D) || n == 0x20 || n == 0xA0 || n == 0x1680 || (0x2000 <= n <= 0x200A)
    || n == 0x2028 || n == 0x2029 || n == 0x202F || n == 0x205F || n == 0x3000 || n == 0xFEFF
  }

  /** Number of white-space characters at the start of `s`. */
  function LeadingSpace(s: string): (n: nat)
    ensures n <= |s|
    ensures forall k :: 0 <= k < n ==> IsSpace(s[k])
    ensures n < |s| ==> !IsSpace(s[n])
  {
    if s == [] || !IsSpace(s[0]) then 0 else 1 + LeadingSpace(s[1..])
  }

  /** Number of white-space characters at the end of `s`. */
  function TrailingSpace(s: string): (n: nat)
    ensures n <= |s|
    ensures forall k :: |s| - n <= k < |s| ==> IsSpace(s[k])
    ensures n < |s| ==> !IsSpace(s[|s| - 1 - n])
  {
    if s == [] || !IsSpace(s[|s| - 1]) then 0 else 1 + TrailingSpace(s[..|s| - 1])
  }

  /** `s.trim()`. */
  function Trim(s: string): string {
    var a := LeadingSpace(s);
    s[a..|s| - TrailingSpace(s[a..])]
  }

  /** What `trim()` promises: the result is `s` with white space cut from both ends, and it neither starts nor ends with white space. */
  lemma TrimSpec(s: string)
    ensures var t := Trim(s);
      exists a, b :: 0 <= a <= b <= |s| && t == s[a..b]
        && (forall k :: 0 <= k < a ==> IsSpace(s[k]))
        && (forall k :: b <= k < |s| ==> IsSpace(s[k]))
    ensures Trim(s) != [] ==> !IsSpace(Trim(s)[0]) && !IsSpace(Trim(s)[|Trim(s)| - 1])
  {
    var a := LeadingSpace(s);
    var rest := s[a..];
    var b := |s| - TrailingSpace(rest);
    assert forall k :: b <= k < |s| ==> s[k] == rest[k - a];
    var t := s[a..b];
    assert Trim(s) == t;
    if t != [] {
      assert t[0] == s[a];
      assert t[|t| - 1] == rest[|rest| - 1 - TrailingSpace(rest)];
    }
  }

  /** Trimming a trimmed string changes nothing. */
  lemma TrimIdempotent(s: string)
    ensures Trim(Trim(s)) == Trim(s)
  {
    var t := Trim(s);
    TrimSpec(s);
    assert LeadingSpace(t) == 0;
    assert TrailingSpace(t) == 0;
  }

  // ---------------------------------------------------------------------
  // Ordering of strings
  // ---------------------------------------------------------------------

  /** Three-way lexicographic comparison: -1, 0 or 1; a proper prefix is smaller. */
  function LexCmp(a: seq<int>, b: seq<int>): (r: int)
    ensures -1 <= r <= 1
  {
    if a == [] then (if b == [] then 0 else -1)
    else if b == [] then 1
    else if a[0] < b[0] then -1
    else if a[0] > b[0] then 1
    else LexCmp(a[1..], b[1..])
  }

  lemma {:induction false} LexCmpZero(a: seq<int>, b: seq<int>)
    ensures LexCmp(a, b) == 0 <==> a == b
  {
    if a != [] && b != [] && a[0] == b[0] {
      LexCmpZero(a[1..], b[1..]);
      assert a == [a[0]] + a[1..] && b == [b[0]] + b[1..];
    }
  }

  lemma {:induction false} LexCmpFlip(a: seq<int>, b: seq<int>)
    ensures LexCmp(b, a) == -LexCmp(a, b)
  {
    if a != [] && b != [] && a[0] == b[0] {
      LexCmpFlip(a[1..], b[1..]);
    }
  }

  lemma {:induction false} LexCmpTransitive(a: seq<int>, b: seq<int>, c: seq<int>)
    requires LexCmp(a, b) <= 0 && LexCmp(b, c) <= 0
    ensures LexCmp(a, c) <= 0
  {
    if a != [] && b != [] && c != [] && a[0] == b[0] == c[0] {
      LexCmpTransitive(a[1..], b[1..], c[1..]);
    }
  }

  /** The code points of a string, which `<` on strings compares (JavaScript compares UTF-16 code units). */
  function Units(s: string): (u: seq<int>)
    ensures |u| == |s|
    ensures forall i :: 0 <= i < |s| ==> u[i] == s[i] as int
  {
    seq(|s|, i requires 0 <= i < |s| => s[i] as int)
  }

  lemma UnitsInjective(s: string, t: string)
    requires Units(s) == Units(t)
    ensures s == t
  {
    assert |s| == |t|;
    forall i | 0 <= i < |s| ensures s[i] == t[i] {
      assert Units(s)[i] == Units(t)[i];
    }
  }

  /** JavaScript's `a < b` on strings. */
  predicate Less(a: string, b: string) {
    LexCmp(Units(a), Units(b)) < 0
  }

  /** `<` on strings is a strict total order: exactly one of `a < b`, `a == b`, `b < a`. */
  lemma LessTrichotomy(a: string, b: string)
    ensures Less(a, b) || a == b || Less(b, a)
    ensures !(Less(a, b) && Less(b, a))
    ensures Less(a, b) ==> a != b
  {
    LexCmpFlip(Units(a), Units(b));
    LexCmpZero(Units(a), Units(b));
    if Units(a) == Units(b) {
      UnitsInjective(a, b);
    }
  }
}
