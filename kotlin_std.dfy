/**
 * The part of the Kotlin standard library that the QR payload codec relies on,
 * with Kotlin's semantics: nullable values, and the `String` functions
 * `startsWith`, `endsWith`, `contains`, `removePrefix`, `removeSuffix`,
 * `split`, `substringAfter`, `take`, `trim`, `isBlank`, `lines` and
 * `lowercase`. Strings are sequences of Unicode scalar values.
 */
module KotlinStd {

  /** A Kotlin nullable value `T?`. */
  datatype Option<+T> = None | Some(value: T) {
    /** The elvis operator `this ?: default`. */
    function GetOr(default: T): T {
      if Some? then value else default
    }
  }

  predicate StartsWith(s: string, p: string) {
    |p| <= |s| && s[..|p|] == p
  }

  predicate EndsWith(s: string, p: string) {
    |p| <= |s| && s[|s| - |p|..] == p
  }

  /** `s.contains(p)`: p occurs in s at some position. */
  predicate Contains(s: string, p: string)
    decreases |s|
  {
    StartsWith(s, p) || (|s| > 0 && Contains(s[1..], p))
  }

  /** A string that starts with a non-empty prefix starts with its first
      character. */
  lemma StartsWithHead(s: string, p: string)
    requires |p| > 0
    ensures StartsWith(s, p) ==> |s| > 0 && s[0] == p[0]
  {
    if StartsWith(s, p) {
      assert s[0] == s[..|p|][0];
    }
  }

  /** p occurs at index i, so s contains p. */
  lemma {:induction false} ContainsAt(s: string, p: string, i: nat)
    requires i + |p| <= |s| && s[i..i + |p|] == p
    ensures Contains(s, p)
    decreases i
  {
    if i > 0 {
      assert s[1..][i - 1..i - 1 + |p|] == s[i..i + |p|];
      ContainsAt(s[1..], p, i - 1);
    }
  }

  /** An occurrence of p in s has an index. */
  lemma {:induction false} ContainsIndex(s: string, p: string) returns (i: nat)
    requires Contains(s, p)
    ensures i + |p| <= |s| && s[i..i + |p|] == p
    decreases |s|
  {
    if StartsWith(s, p) {
      i := 0;
    } else {
      var k := ContainsIndex(s[1..], p);
      assert s[1..][k..k + |p|] == s[k + 1..k + 1 + |p|];
      i := k + 1;
    }
  }

  /** Containment is transitive. */
  lemma ContainsTransitive(s: string, p: string, q: string)
    requires Contains(s, p) && Contains(p, q)
    ensures Contains(s, q)
  {
    var i := ContainsIndex(s, p);
    var j := ContainsIndex(p, q);
    forall k | 0 <= k < |q| ensures s[i + j..i + j + |q|][k] == q[k] {
      assert q[k] == p[j + k] == s[i..i + |p|][j + k];
    }
    assert s[i + j..i + j + |q|] == q;
    ContainsAt(s, q, i + j);
  }

  /** Every character of an occurrence of p occurs in s. */
  lemma {:induction false} ContainsChar(s: string, p: string, c: char)
    requires Contains(s, p) && c in p
    ensures c in s
    decreases |s|
  {
    if StartsWith(s, p) {
      var k :| 0 <= k < |p| && p[k] == c;
      assert s[k] == s[..|p|][k];
    } else {
      ContainsChar(s[1..], p, c);
    }
  }

  /** Concatenation is associative. */
  lemma AppendAssoc<T>(a: seq<T>, b: seq<T>, c: seq<T>)
    ensures (a + b) + c == a + (b + c)
  {
  }

  /** A prefix of s is a prefix of anything s is extended to. */
  lemma StartsWithExtended(s: string, p: string, t: string)
    requires StartsWith(s, p)
    ensures StartsWith(s + t, p)
  {
    assert (s + t)[..|p|] == s[..|p|];
  }

  /** s and p differ at an index both have, so p is not a prefix of s. */

  lemma NotStartsWithAt(s: string, p: string, j: nat)
    requires j < |s| && j < |p| && s[j] != p[j]
    ensures !StartsWith(s, p)
  {
    if |p| <= |s| {
      assert s[..|p|][j] == s[j];
    }
  }

  function RemovePrefix(s: string, p: string): string {
    if StartsWith(s, p) then s[|p|..] else s
  }

  function RemoveSuffix(s: string, p: string): string {
    if EndsWith(s, p) then s[..|s| - |p|] else s
  }

  /** `s.take(n)`: the first n characters, or all of s if it is shorter. */
  function Take(s: string, n: nat): (r: string)
    ensures |r| <= n && StartsWith(s, r)
    ensures |s| <= n ==> r == s
    ensures |s| > n ==> |r| == n
  {
    if |s| <= n then s else s[..n]
  }

  /** The index of the first occurrence of c in s. */
  function IndexOf(s: string, c: char): (r: Option<nat>)
    ensures r.Some? ==> r.value < |s| && s[r.value] == c && c !in s[..r.value]
    ensures r.None? <==> c !in s
  {
    if |s| == 0 then None
    else if s[0] == c then Some(0)
    else match IndexOf(s[1..], c)
      case None => None
      case Some(i) => Some(i + 1)
  }

  /** `s.split(d)` for a one-character delimiter: every occurrence splits,
      and empty pieces (also leading and trailing ones) are kept. */
  function Split(s: string, d: char): (r: seq<string>)
    ensures |r| >= 1
    ensures forall i :: 0 <= i < |r| ==> d !in r[i]
    ensures StartsWith(s, r[0]) && (|r[0]| == |s| || s[|r[0]|] == d)
    decreases |s|
  {
    match IndexOf(s, d)
    case None => [s]
    case Some(i) => [s[..i]] + Split(s[i + 1..], d)
  }

  /** `parts.joinToString(sep)`. */
  function Join(parts: seq<string>, sep: string): string
    decreases |parts|
  {
    if |parts| == 0 then ""
    else if |parts| == 1 then parts[0]
    else parts[0] + sep + Join(parts[1..], sep)
  }

  /** Splitting and joining with the same delimiter gives back the string. */
  lemma {:induction false} JoinSplit(s: string, d: char)
    ensures Join(Split(s, d), [d]) == s
    decreases |s|
  {
    match IndexOf(s, d)
    case None =>
    case Some(i) =>
      var rest := Split(s[i + 1..], d);
      JoinSplit(s[i + 1..], d);
      assert Split(s, d) == [s[..i]] + rest;
      assert s == s[..i] + [d] + s[i + 1..];
  }

  /** Split on d after a piece without d: the piece comes first. */
  lemma SplitAfterPiece(a: string, d: char, rest: string)
    requires d !in a
    ensures Split(a + [d] + rest, d) == [a] + Split(rest, d)
  {
    var s := a + [d] + rest;
    IndexOfAfterPiece(a, d, rest);
    assert s[..|a|] == a;
    assert s[|a| + 1..] == rest;
  }

  lemma IndexOfAfterPiece(a: string, d: char, rest: string)
    requires d !in a
    ensures IndexOf(a + [d] + rest, d) == Some(|a|)
  {
    var s := a + [d] + rest;
    assert s[..|a|] == a;
    assert s[|a|] == d;
  }

  /** A delimiter-free string is its own only piece. */
  lemma SplitNoDelimiter(s: string, d: char)
    requires d !in s
    ensures Split(s, d) == [s]
  {
  }

  /** `s.split(d, limit = 2)`: the text before the first d and, when there is
      a d, the text after it. */
  function SplitOnce(s: string, d: char): (r: (string, Option<string>))
    ensures r.1.None? <==> d !in s
    ensures r.1.Some? ==> r.0 + [d] + r.1.value == s
    ensures d !in r.0
  {
    match IndexOf(s, d)
    case None => (s, None)
    case Some(i) =>
      assert s == s[..i] + [d] + s[i + 1..];
      (s[..i], Some(s[i + 1..]))
  }

  /** Splitting once after a piece without d gives that piece and the rest. */
  lemma SplitOnceAfterPiece(a: string, d: char, rest: string)
    requires d !in a
    ensures SplitOnce(a + [d] + rest, d) == (a, Some(rest))
  {
    var s := a + [d] + rest;
    IndexOfAfterPiece(a, d, rest);
    assert s[..|a|] == a;
    assert s[|a| + 1..] == rest;
  }

  /** `s.substringAfter(d)`: the text after the first d, or s itself. */
  function SubstringAfter(s: string, d: char): string {
    match IndexOf(s, d)
    case None => s
    case Some(i) => s[i + 1..]
  }

  /** Kotlin's `Char.isWhitespace()` (Java's `Character.isWhitespace` or
      `Character.isSpaceChar`). */
  predicate IsWhitespace(c: char) {
    || c == ' '
    || ('\t' <= c <= '\r')
    || ('\U{1C}' <= c <= '\U{1F}')
    || c == '\U{A0}' || c == '\U{1680}'
    || ('\U{2000}' <= c <= '\U{200A}')
    || c == '\U{2028}' || c == '\U{2029}' || c == '\U{202F}'
    || c == '\U{205F}' || c == '\U{3000}'
  }

  /** `s.isBlank()`: empty, or whitespace only. */
  predicate IsBlank(s: string) {
    forall i :: 0 <= i < |s| ==> IsWhitespace(s[i])
  }

  function TrimStart(s: string): (r: string)
    ensures |r| <= |s| && EndsWith(s, r)
    ensures r != [] ==> !IsWhitespace(r[0])
  {
    if |s| > 0 && IsWhitespace(s[0]) then TrimStart(s[1..]) else s
  }

  function TrimEnd(s: string): (r: string)
    ensures |r| <= |s| && StartsWith(s, r)
    ensures r != [] ==> !IsWhitespace(r[|r| - 1])
  {
    if |s| > 0 && IsWhitespace(s[|s| - 1]) then TrimEnd(s[..|s| - 1]) else s
  }

  /** `s.trim()`: leading and trailing whitespace removed. */
  function Trim(s: string): string {
    TrimEnd(TrimStart(s))
  }

  /** A string is blank exactly when trimming leaves nothing. */
  lemma {:induction false} BlankIffTrimEmpty(s: string)
    ensures IsBlank(s) <==> Trim(s) == ""
    decreases |s|
  {
    if |s| > 0 && IsWhitespace(s[0]) {
      BlankIffTrimEmpty(s[1..]);
      assert IsBlank(s) <==> IsBlank(s[1..]) by {
        if IsBlank(s[1..]) {
          forall i | 0 <= i < |s| ensures IsWhitespace(s[i]) {
            if i > 0 { assert s[i] == s[1..][i - 1]; }
          }
        }
      }
    } else if |s| > 0 {
      TrimEndKeepsFirst(s);
    }
  }

  /** TrimEnd keeps a first character that is not whitespace. */
  lemma {:induction false} TrimEndKeepsFirst(s: string)
    requires |s| > 0 && !IsWhitespace(s[0])
    ensures TrimEnd(s) != [] && TrimEnd(s)[0] == s[0]
    decreases |s|
  {
    if |s| > 1 && IsWhitespace(s[|s| - 1]) {
      TrimEndKeepsFirst(s[..|s| - 1]);
    }
  }

  /** Trimming is idempotent. */
  lemma TrimIdempotent(s: string)
    ensures Trim(Trim(s)) == Trim(s)
  {
    var t := TrimStart(s);
    if TrimEnd(t) != [] {
      TrimEndKeepsFirst(t);
    }
  }

  /** Trimming a string that starts with a non-whitespace prefix and ends
      with a non-whitespace character changes nothing. */
  lemma TrimNoop(s: string)
    requires |s| > 0 && !IsWhitespace(s[0]) && !IsWhitespace(s[|s| - 1])
    ensures Trim(s) == s
  {
  }

  /** Trimming p + s, where p starts and ends with non-whitespace characters,
      keeps p and trims only the end of s. */
  lemma {:induction false} TrimAfterPrefix(p: string, s: string)
    requires |p| > 0 && !IsWhitespace(p[0]) && !IsWhitespace(p[|p| - 1])
    ensures Trim(p + s) == p + TrimEnd(s)
    decreases |s|
  {
    assert (p + s)[0] == p[0];
    if |s| > 0 && IsWhitespace(s[|s| - 1]) {
      assert (p + s)[..|p + s| - 1] == p + s[..|s| - 1];
      TrimAfterPrefix(p, s[..|s| - 1]);
    } else if |s| == 0 {
      assert p + s == p;
    }
  }

  /** The characters at which `lines()` breaks a string. */
  predicate IsLineBreak(c: char) {
    c == '\n' || c == '\r'
  }

  function IndexOfLineBreak(s: string): (r: Option<nat>)
    ensures r.Some? ==> (r.value < |s| && IsLineBreak(s[r.value])
      && forall j :: 0 <= j < r.value ==> !IsLineBreak(s[j]))
    ensures r.None? ==> forall j :: 0 <= j < |s| ==> !IsLineBreak(s[j])
  {
    if |s| == 0 then None
    else if IsLineBreak(s[0]) then Some(0)
    else match IndexOfLineBreak(s[1..])
      case None => None
      case Some(i) => Some(i + 1)
  }

  /** `s.lines()`: s split at "\r\n", "\n" and "\r", a "\r\n" pair counting
      as one break. */
  function Lines(s: string): (r: seq<string>)
    ensures |r| >= 1
    decreases |s|
  {
    match IndexOfLineBreak(s)
    case None => [s]
    case Some(i) =>
      var width := if s[i] == '\r' && i + 1 < |s| && s[i + 1] == '\n' then 2 else 1;
      [s[..i]] + Lines(s[i + width..])
  }

  predicate NoLineBreak(s: string) {
    forall j :: 0 <= j < |s| ==> !IsLineBreak(s[j])
  }

  lemma IndexOfLineBreakAfterLine(a: string, rest: string)
    requires NoLineBreak(a)
    ensures IndexOfLineBreak(a + "\n" + rest) == Some(|a|)
  {
    var s := a + "\n" + rest;
    assert s[..|a|] == a;
    assert s[|a|] == '\n';
  }

  /** A line without breaks followed by "\n" is the first line. */
  lemma LinesAfterLine(a: string, rest: string)
    requires NoLineBreak(a)
    ensures Lines(a + "\n" + rest) == [a] + Lines(rest)
  {
    var s := a + "\n" + rest;
    IndexOfLineBreakAfterLine(a, rest);
    assert s[..|a|] == a;
    assert s[|a| + 1..] == rest;
  }

  /** Lines without breaks, each terminated by "\n", read back as themselves
      followed by the text after the last one. */
  lemma {:induction false} LinesOfTerminated(ls: seq<string>, last: string)
    requires forall k :: 0 <= k < |ls| ==> NoLineBreak(ls[k])
    requires NoLineBreak(last)
    ensures Lines(Terminated(ls) + last) == ls + [last]
    decreases |ls|
  {
    if |ls| == 0 {
      assert Terminated(ls) + last == last;
    } else {
      var rest := Terminated(ls[1..]) + last;
      assert Terminated(ls) + last == ls[0] + "\n" + rest;
      LinesAfterLine(ls[0], rest);
      LinesOfTerminated(ls[1..], last);
      assert ls == [ls[0]] + ls[1..];
    }
  }

  /** One more line at the end. */
  lemma {:induction false} TerminatedSnoc(ls: seq<string>, last: string)
    ensures Terminated(ls + [last]) == Terminated(ls) + last + "\n"
    decreases |ls|
  {
    if |ls| == 0 {
      assert ls + [last] == [last];
      assert [last][1..] == [];
    } else {
      assert (ls + [last])[0] == ls[0];
      assert (ls + [last])[1..] == ls[1..] + [last];
      TerminatedSnoc(ls[1..], last);
    }
  }

  /** The text of several lines starts with the first line. */
  lemma TerminatedStartsWith(ls: seq<string>)
    requires |ls| > 0
    ensures StartsWith(Terminated(ls), ls[0])
  {
    assert Terminated(ls)[..|ls[0]|] == ls[0];
  }

  /** Every line followed by "\n", as Kotlin's `appendLine` builds them. */
  function Terminated(ls: seq<string>): string
    decreases |ls|
  {
    if |ls| == 0 then "" else ls[0] + "\n" + Terminated(ls[1..])
  }

  /** ASCII lower-casing of one character. */
  function AsciiLower(c: char): char {
    if 'A' <= c <= 'Z' then (c as int + 32) as char else c
  }

  /** Kotlin's `lowercase()` (locale-independent, full case mapping), as far
      as it affects ASCII content: ASCII letters are lowered, U+0130 becomes
      "i" + U+0307 and the Kelvin sign U+212A becomes "k". Every other
      character is kept; a non-ASCII character that maps to another non-ASCII
      character cannot change which ASCII texts occur in the result. */
  function Lowercase(s: string): (r: string)
    decreases |s|
  {
    if |s| == 0 then ""
    else
      var c := s[0];
      var lowered :=
        if c == '\U{130}' then "i\U{307}"
        else if c == '\U{212A}' then "k"
        else [AsciiLower(c)];
      lowered + Lowercase(s[1..])
  }

  lemma {:induction false} LowercaseAppend(a: string, b: string)
    ensures Lowercase(a + b) == Lowercase(a) + Lowercase(b)
    decreases |a|
  {
    if |a| == 0 {
      assert a + b == b;
    } else {
      assert (a + b)[0] == a[0];
      assert (a + b)[1..] == a[1..] + b;
      LowercaseAppend(a[1..], b);
    }
  }

  /** The characters `lowercase()` leaves alone. */
  predicate IsLowercaseStable(c: char) {
    !('A' <= c <= 'Z') && c != '\U{130}' && c != '\U{212A}'
  }

  /** Lower-casing a string without upper-case characters changes nothing. */
  lemma {:induction false} LowercaseStable(s: string)
    requires forall j :: 0 <= j < |s| ==> IsLowercaseStable(s[j])
    ensures Lowercase(s) == s
    decreases |s|
  {
    if |s| > 0 {
      LowercaseStable(s[1..]);
    }
  }

  /** Lower-casing never introduces a character that is not a letter
      (and not the combining dot U+0307) when it was absent. */
  lemma {:induction false} LowercaseKeepsAbsent(s: string, c: char)
    requires !('a' <= c <= 'z') && !('A' <= c <= 'Z') && c != '\U{307}'
    requires c !in s
    ensures c !in Lowercase(s)
    decreases |s|
  {
    if |s| > 0 {
      LowercaseKeepsAbsent(s[1..], c);
    }
  }

  /** A case-insensitive prefix made of ASCII characters whose case
      folding has no non-ASCII partner (no i, k or s) is a prefix of the
      lower-cased string. */
  lemma {:induction false} LowercaseStartsWith(s: string, p: string)
    requires StartsWithIgnoreCase(s, p)
    requires forall j :: 0 <= j < |p| ==>
      p[j] < '\U{80}' && !('A' <= p[j] <= 'Z') && p[j] != 'i' && p[j] != 'k' && p[j] != 's'
    ensures StartsWith(Lowercase(s), p)
    decreases |p|
  {
    if |p| > 0 {
      assert StartsWithIgnoreCase(s[1..], p[1..]) by {
        forall j | 0 <= j < |p[1..]|
          ensures MatchesIgnoreCase(s[1..][j], p[1..][j])
        {
          assert MatchesIgnoreCase(s[j + 1], p[j + 1]);
        }
      }
      LowercaseStartsWith(s[1..], p[1..]);
      assert MatchesIgnoreCase(s[0], p[0]);
      assert Lowercase(s) == [p[0]] + Lowercase(s[1..]);
      assert p == [p[0]] + p[1..];
    }
  }

  /** Kotlin's `Char.equals(other, ignoreCase = true)` against an ASCII
      pattern character p: equal after ASCII case folding, or one of the
      non-ASCII characters whose upper or lower case is that ASCII letter
      (U+0131 and U+0130 for i, U+017F for s, U+212A for k). */
  predicate MatchesIgnoreCase(c: char, p: char) {
    var lp := AsciiLower(p);
    || AsciiLower(c) == lp
    || (lp == 'i' && (c == '\U{131}' || c == '\U{130}'))
    || (lp == 's' && c == '\U{17F}')
    || (lp == 'k' && c == '\U{212A}')
  }

  /** `s.startsWith(p, ignoreCase = true)` for an ASCII pattern p. */
  predicate StartsWithIgnoreCase(s: string, p: string) {
    |p| <= |s| && forall i :: 0 <= i < |p| ==> MatchesIgnoreCase(s[i], p[i])
  }

  /** A case-sensitive prefix is also a case-insensitive one. */
  lemma StartsWithIsIgnoreCase(s: string, p: string)
    requires StartsWith(s, p)
    ensures StartsWithIgnoreCase(s, p)
  {
    forall i | 0 <= i < |p| ensures MatchesIgnoreCase(s[i], p[i]) {
      assert s[i] == s[..|p|][i];
    }
  }
}
