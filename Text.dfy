/**
 * The string operations of java.lang.String that the controller relies on,
 * restricted to what the game uses: `trim`, ASCII `toLowerCase` and
 * `equalsIgnoreCase`, `split(" ", 2)`, `startsWith` and `String.join`.
 */
module Text {
  import opened Wrappers

  // ---------------------------------------------------------------- trim

  /** `String.trim` removes every leading and trailing character at or below U+0020. */
  predicate IsTrimmable(c: char) { c <= ' ' }

  /** `s` without its leading trimmable characters. */
  function TrimStart(s: string): string
  {
    if s != [] && IsTrimmable(s[0]) then TrimStart(s[1..]) else s
  }

  /** `s` without its trailing trimmable characters. */
  function TrimEnd(s: string): string
  {
    if s != [] && IsTrimmable(s[|s| - 1]) then TrimEnd(s[..|s| - 1]) else s
  }

  function Trim(s: string): string
  {
    TrimEnd(TrimStart(s))
  }

  /** `TrimStart` keeps a suffix and drops only trimmable characters before it. */
  lemma {:induction false} TrimStartSpec(s: string)
    ensures |TrimStart(s)| <= |s|
    ensures TrimStart(s) == s[|s| - |TrimStart(s)|..]
    ensures forall k :: 0 <= k < |s| - |TrimStart(s)| ==> IsTrimmable(s[k])
    ensures TrimStart(s) != [] ==> !IsTrimmable(TrimStart(s)[0])
  {
    if s != [] && IsTrimmable(s[0]) {
      TrimStartSpec(s[1..]);
      assert forall k :: 1 <= k < |s| ==> s[k] == s[1..][k - 1];
    }
  }

  /** `TrimEnd` keeps a prefix and drops only trimmable characters after it. */
  lemma {:induction false} TrimEndSpec(s: string)
    ensures |TrimEnd(s)| <= |s|
    ensures TrimEnd(s) == s[..|TrimEnd(s)|]
    ensures forall k :: |TrimEnd(s)| <= k < |s| ==> IsTrimmable(s[k])
    ensures TrimEnd(s) != [] ==> !IsTrimmable(TrimEnd(s)[|TrimEnd(s)| - 1])
  {
    if s != [] && IsTrimmable(s[|s| - 1]) {
      var t := s[..|s| - 1];
      TrimEndSpec(t);
      assert forall k :: 0 <= k < |t| ==> t[k] == s[k];
    }
  }

  /**
   * `Trim(s)` is the slice of `s` that starts at its first and ends at its last
   * character above U+0020; everything outside the slice is trimmable.
   */
  lemma TrimSpec(s: string)
    ensures |TrimStart(s)| <= |s|
    ensures var r, n := Trim(s), |s| - |TrimStart(s)|;
            n + |r| <= |s| && r == s[n..n + |r|] &&
            (forall k :: 0 <= k < n ==> IsTrimmable(s[k])) &&
            (forall k :: n + |r| <= k < |s| ==> IsTrimmable(s[k])) &&
            (r == [] || (!IsTrimmable(r[0]) && !IsTrimmable(r[|r| - 1])))
  {
    var t := TrimStart(s);
    TrimStartSpec(s);
    TrimEndSpec(t);
    var r, n := Trim(s), |s| - |t|;
    assert forall k :: n + |r| <= k < |s| ==> s[k] == t[k - n];
    assert r == s[n..n + |r|];
  }

  // ---------------------------------------------------------- ASCII case

  function LowerChar(c: char): (d: char)
  {
    if 'A' <= c <= 'Z' then (c as int + 32) as char else c
  }

  function UpperChar(c: char): (d: char)
  {
    if 'a' <= c <= 'z' then (c as int - 32) as char else c
  }

  /** `toLowerCase`, ASCII letters only. */
  function ToLower(s: string): string
  {
    if s == [] then [] else [LowerChar(s[0])] + ToLower(s[1..])
  }

  /** Lower-casing maps every character on its own and keeps the length. */
  lemma {:induction false} ToLowerSpec(s: string)
    ensures |ToLower(s)| == |s|
    ensures forall i :: 0 <= i < |s| ==> ToLower(s)[i] == LowerChar(s[i])
  {
    if s != [] {
      ToLowerSpec(s[1..]);
    }
  }

  /**
   * The character test of `equalsIgnoreCase`: equal, or equal once upper-cased,
   * or equal once upper-cased and then lower-cased.
   */
  predicate CharEqualsIgnoreCase(a: char, b: char)
  {
    a == b || UpperChar(a) == UpperChar(b) || LowerChar(UpperChar(a)) == LowerChar(UpperChar(b))
  }

  /** `equalsIgnoreCase`: same length and pairwise case-insensitively equal characters. */
  predicate EqualsIgnoreCase(a: string, b: string)
  {
    |a| == |b| &&
    (a == [] || (CharEqualsIgnoreCase(a[0], b[0]) && EqualsIgnoreCase(a[1..], b[1..])))
  }

  lemma CharEqualsIgnoreCaseIff(a: char, b: char)
    ensures CharEqualsIgnoreCase(a, b) <==> LowerChar(a) == LowerChar(b)
  {
  }

  /** Case-insensitive equality is equality of the lower-cased strings. */
  lemma {:induction false} EqualsIgnoreCaseIff(a: string, b: string)
    ensures EqualsIgnoreCase(a, b) <==> ToLower(a) == ToLower(b)
  {
    ToLowerSpec(a);
    ToLowerSpec(b);
    if |a| == |b| && a != [] {
      CharEqualsIgnoreCaseIff(a[0], b[0]);
      EqualsIgnoreCaseIff(a[1..], b[1..]);
      var la, lb := ToLower(a), ToLower(b);
      assert la == [LowerChar(a[0])] + ToLower(a[1..]);
      assert lb == [LowerChar(b[0])] + ToLower(b[1..]);
      if la == lb {
        assert la[0] == lb[0];
        assert la[1..] == lb[1..];
      }
    }
  }

  /** Every string equals itself ignoring case. */
  lemma {:induction false} EqualsIgnoreCaseReflexive(a: string)
    ensures EqualsIgnoreCase(a, a)
  {
    if a != [] {
      EqualsIgnoreCaseReflexive(a[1..]);
    }
  }

  // ------------------------------------------------------------ split

  /** The first position of `c` in `s`, if any. */
  function IndexOf(s: string, c: char): (r: Option<nat>)
    ensures r.Some? ==> r.value < |s| && s[r.value] == c && c !in s[..r.value]
    ensures r.None? <==> c !in s
  {
    if s == [] then None
    else if s[0] == c then Some(0)
    else match IndexOf(s[1..], c)
      case None => None
      case Some(k) =>
        assert s[..k + 1] == [s[0]] + s[1..][..k];
        Some(k + 1)
  }

  /**
   * `s.split(" ", 2)` read as a (first part, rest) pair, where a missing second
   * element of the array becomes "": the split is at the first single space.
   */
  function SplitAtFirstSpace(s: string): (string, string)
  {
    match IndexOf(s, ' ')
    case None => (s, "")
    case Some(k) => (s[..k], s[k + 1..])
  }

  /**
   * The first part holds no space; with a space in `s`, the parts around that
   * space make up `s` again, and without one the whole of `s` is the first part.
   */
  lemma SplitAtFirstSpaceSpec(s: string)
    ensures ' ' !in SplitAtFirstSpace(s).0
    ensures ' ' in s ==> s == SplitAtFirstSpace(s).0 + " " + SplitAtFirstSpace(s).1
    ensures ' ' !in s ==> SplitAtFirstSpace(s) == (s, "")
  {
    match IndexOf(s, ' ')
    case None =>
    case Some(k) =>
      assert s == s[..k] + " " + s[k + 1..];
  }

  /** Splitting a word followed by a space and any rest gives back the word and the rest. */
  lemma SplitAtFirstSpaceWord(word: string, rest: string)
    requires ' ' !in word
    ensures SplitAtFirstSpace(word + " " + rest) == (word, rest)
    ensures SplitAtFirstSpace(word) == (word, "")
  {
    var s := word + " " + rest;
    assert s[|word|] == ' ';
    SplitAtFirstSpaceSpec(s);
    SplitAtFirstSpaceSpec(word);
    var r := SplitAtFirstSpace(s);
    assert r.0 == s[..|word|] == word;
    assert r.1 == s[|word| + 1..] == rest;
  }

  // -------------------------------------------------------- startsWith, join

  predicate StartsWith(s: string, prefix: string)
  {
    |prefix| <= |s| && s[..|prefix|] == prefix
  }

  /** `String.join(sep, parts)`: the parts in order with `sep` between neighbours. */
  function Join(parts: seq<string>, sep: string): (r: string)
  {
    if |parts| == 0 then ""
    else if |parts| == 1 then parts[0]
    else parts[0] + sep + Join(parts[1..], sep)
  }

  /**
   * Joining is what a string joiner does when it adds the parts one at a time
   * from the left: a further part costs one separator and the part itself.
   */
  lemma {:induction false} JoinAppend(parts: seq<string>, last: string, sep: string)
    requires parts != []
    ensures Join(parts + [last], sep) == Join(parts, sep) + sep + last
  {
    if |parts| == 1 {
      assert parts + [last] == [parts[0], last];
    } else {
      assert (parts + [last])[1..] == parts[1..] + [last];
      JoinAppend(parts[1..], last, sep);
    }
  }

  /** With two or more parts the separator stands right after the first part. */
  lemma JoinSeparatorAfterFirst(parts: seq<string>, sep: string)
    requires |parts| >= 2
    ensures |parts[0]| + |sep| <= |Join(parts, sep)|
    ensures Join(parts, sep)[|parts[0]|..|parts[0]| + |sep|] == sep
  {
    var r := Join(parts, sep);
    assert r == parts[0] + sep + Join(parts[1..], sep);
    assert r[|parts[0]|..|parts[0]| + |sep|] == sep;
  }
}
