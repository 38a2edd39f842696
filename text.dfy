/** The string operations the formatters use: `substring(0, n) + '...'`,
    `toUpperCase()` and `replace(pattern, replacement)` with a string pattern. */
module Text {
  import opened Wrappers

  /** The suffix appended to a shortened string. */
  const Ellipsis: string := "..."

  predicate StartsWith(s: string, prefix: string) {
    |prefix| <= |s| && s[..|prefix|] == prefix
  }

  predicate EndsWith(s: string, suffix: string) {
    |suffix| <= |s| && s[|s| - |suffix|..] == suffix
  }

  /** The string itself when at most `limit` long, else its first `limit`
      characters followed by "..."; lengths are
      counted in code points (JavaScript counts UTF-16 code units, which
      agree for text within the Basic Multilingual Plane). */
  function Truncate(s: string, limit: nat): (r: string)
    ensures |s| <= limit ==> r == s
    ensures |r| <= limit + |Ellipsis|
    ensures |s| > limit ==> |r| == limit + |Ellipsis| && EndsWith(r, Ellipsis)
    ensures StartsWith(r, s[..if |s| <= limit then |s| else limit])
  {
    if |s| > limit then s[..limit] + Ellipsis else s
  }

  /** Shortening an already shortened string changes nothing: the first
      `limit` characters and the ellipsis are kept as they are. */
  lemma TruncateIdempotent(s: string, limit: nat)
    ensures Truncate(Truncate(s, limit), limit) == Truncate(s, limit)
  {
    var r := Truncate(s, limit);
    if |s| > limit {
      assert r[..limit] == s[..limit];
    }
  }

  /** A string longer than the limit is never returned unchanged unless it
      already reads as its own first `limit` characters plus the ellipsis. */
  lemma TruncateChangesLongStrings(s: string, limit: nat)
    requires |s| > limit
    ensures Truncate(s, limit) == s <==> s[limit..] == Ellipsis
  {
    if s[limit..] == Ellipsis {
      assert s == s[..limit] + s[limit..];
    }
  }

  predicate IsLowerAscii(c: char) {
    'a' <= c <= 'z'
  }

  /** Upper case of one character, for the ASCII letters. */
  function UpperChar(c: char): (u: char)
    ensures IsLowerAscii(c) ==> u as int == c as int - 32
    ensures !IsLowerAscii(c) ==> u == c
  {
    if IsLowerAscii(c) then (c as int - 32) as char else c
  }

  /** `s.toUpperCase()`, character by character over ASCII. */
  function ToUpperCase(s: string): (r: string)
    ensures |r| == |s|
    ensures forall i :: 0 <= i < |s| ==> r[i] == UpperChar(s[i])
  {
    if s == [] then [] else [UpperChar(s[0])] + ToUpperCase(s[1..])
  }

  /** An upper-cased string holds no lower-case ASCII letter, and upper-casing
      it again changes nothing. */
  lemma {:induction false} ToUpperCaseIdempotent(s: string)
    ensures forall i :: 0 <= i < |s| ==> !IsLowerAscii(ToUpperCase(s)[i])
    ensures ToUpperCase(ToUpperCase(s)) == ToUpperCase(s)
  {
    var u := ToUpperCase(s);
    forall i | 0 <= i < |s| ensures UpperChar(u[i]) == u[i] && !IsLowerAscii(u[i]) {
      assert u[i] == UpperChar(s[i]);
    }
  }

  /** `pattern` occurs in `s` starting at position `i`. */
  predicate OccursAt(s: string, pattern: string, i: nat) {
    i + |pattern| <= |s| && s[i..i + |pattern|] == pattern
  }

  /** `s.indexOf(pattern, from)`: the first position at or after `from` where
      `pattern` occurs, or None. */
  function IndexOf(s: string, pattern: string, from: nat := 0): (r: Option<nat>)
    requires from <= |s|
    ensures r.Some? ==> from <= r.value && OccursAt(s, pattern, r.value)
    ensures r.Some? ==> forall j :: from <= j < r.value ==> !OccursAt(s, pattern, j)
    ensures r.None? ==> forall j :: from <= j <= |s| ==> !OccursAt(s, pattern, j)
    decreases |s| - from
  {
    if OccursAt(s, pattern, from) then Some(from)
    else if from == |s| then None
    else IndexOf(s, pattern, from + 1)
  }

  /** `s.replace(pattern, replacement)` with a string pattern: only the first
      occurrence is replaced; without one the string comes back unchanged.
      The replacement is inserted literally; JavaScript would expand `$`
      patterns in it. */
  function ReplaceFirst(s: string, pattern: string, replacement: string): (r: string)
    ensures IndexOf(s, pattern).None? ==> r == s
    ensures IndexOf(s, pattern).Some? ==>
              var i := IndexOf(s, pattern).value;
              |r| == |s| - |pattern| + |replacement|
              && r[..i] == s[..i] && r[i..i + |replacement|] == replacement
              && r[i + |replacement|..] == s[i + |pattern|..]
  {
    match IndexOf(s, pattern)
    case None => s
    case Some(i) => s[..i] + replacement + s[i + |pattern|..]
  }

  /** ReplaceFirst inserts the replacement, literally, at the first
      occurrence and keeps everything after it, later occurrences included. */
  lemma ReplaceFirstAt(s: string, pattern: string, replacement: string, i: nat)
    requires OccursAt(s, pattern, i)
    requires forall j :: 0 <= j < i ==> !OccursAt(s, pattern, j)
    ensures ReplaceFirst(s, pattern, replacement) == s[..i] + replacement + s[i + |pattern|..]
  {
  }

  /** Without an occurrence of the pattern the string is returned as it is. */
  lemma ReplaceFirstAbsent(s: string, pattern: string, replacement: string)
    requires forall j :: 0 <= j <= |s| ==> !OccursAt(s, pattern, j)
    ensures ReplaceFirst(s, pattern, replacement) == s
  {
  }
}
