/**
 * String helpers shared by the dashboard and its backend: ASCII lower-casing
 * (JavaScript `toLowerCase`, Python `str.lower`), JavaScript `indexOf`,
 * Python `str.join` / `str.split` with a one-character separator, and the
 * lexicographic order in which ISO-8601 dates sort chronologically.
 */
module Text {

  /** Lower-cases one character; only the ASCII letters A-Z change. */
  function LowerChar(c: char): (r: char)
    ensures 'A' <= c <= 'Z' ==> r as int == c as int + 32
    ensures !('A' <= c <= 'Z') ==> r == c
    ensures !('A' <= r <= 'Z')
  {
    if 'A' <= c <= 'Z' then (c as int + 32) as char else c
  }

  /** Lower-cases a string character by character. */
  function Lower(s: string): (r: string)
    ensures |r| == |s|
    ensures forall i :: 0 <= i < |s| ==> r[i] == LowerChar(s[i])
  {
    if s == [] then [] else [LowerChar(s[0])] + Lower(s[1..])
  }

  /** Lower-casing twice is lower-casing once. */
  lemma LowerIdempotent(s: string)
    ensures Lower(Lower(s)) == Lower(s)
  {
  }

  /** `needle` occurs in `hay` starting at index `i`. */
  predicate OccursAt(needle: string, hay: string, i: int)
  {
    0 <= i <= |hay| - |needle| && hay[i..i + |needle|] == needle
  }

  /** `needle` is a (contiguous) substring of `hay`. */
  predicate IsSubstring(needle: string, hay: string)
  {
    exists i :: 0 <= i <= |hay| - |needle| && OccursAt(needle, hay, i)
  }

  /** The first index at or after `from` where `needle` occurs in `hay`, or -1. */
  function IndexOfFrom(hay: string, needle: string, from: nat): (r: int)
    ensures r == -1 || (from <= r && OccursAt(needle, hay, r))
    ensures r == -1 <==> forall i :: from <= i <= |hay| - |needle| ==> !OccursAt(needle, hay, i)
    ensures r != -1 ==> forall i :: from <= i < r ==> !OccursAt(needle, hay, i)
    decreases |hay| - from
  {
    if from + |needle| > |hay| then -1
    else if OccursAt(needle, hay, from) then from
    else IndexOfFrom(hay, needle, from + 1)
  }

  /** JavaScript `hay.indexOf(needle)`: the first occurrence, or -1 when there is none. */
  function IndexOf(hay: string, needle: string): (r: int)
    ensures r >= 0 <==> IsSubstring(needle, hay)
    ensures r >= 0 ==> OccursAt(needle, hay, r) && forall i :: 0 <= i < r ==> !OccursAt(needle, hay, i)
    ensures r < 0 ==> r == -1
  {
    IndexOfFrom(hay, needle, 0)
  }

  /** Python `sep.join(parts)` for a one-character separator. */
  function Join(sep: char, parts: seq<string>): (r: string)
    ensures parts == [] ==> r == ""
    ensures |parts| == 1 ==> r == parts[0]
    ensures parts != [] ==> parts[0] <= r
  {
    if |parts| == 0 then ""
    else if |parts| == 1 then parts[0]
    else parts[0] + [sep] + Join(sep, parts[1..])
  }

  /**
   * Python `s.split(sep)`: the pieces between separators; never empty ("" splits to [""]).
   * It is the inverse of Join, used to state what a join keeps.
   */
  function Split(sep: char, s: string): (r: seq<string>)
    ensures |r| >= 1
  {
    if s == [] then [""]
    else
      var rest := Split(sep, s[1..]);
      if s[0] == sep then [""] + rest
      else [[s[0]] + rest[0]] + rest[1..]
  }

  /** A piece without separators splits to itself. */
  lemma {:induction false} SplitPlain(sep: char, a: string)
    requires sep !in a
    ensures Split(sep, a) == [a]
  {
    if a != [] {
      SplitPlain(sep, a[1..]);
      assert [a[0]] + a[1..] == a;
    }
  }

  /** A separator-free piece followed by a separator is split off as the first piece. */
  lemma {:induction false} SplitFirst(sep: char, a: string, b: string)
    requires sep !in a
    ensures Split(sep, a + [sep] + b) == [a] + Split(sep, b)
  {
    if a == [] {
      assert a + [sep] + b == [sep] + b;
      assert ([sep] + b)[1..] == b;
    } else {
      var s := a + [sep] + b;
      assert s[0] == a[0] != sep;
      assert s[1..] == a[1..] + [sep] + b;
      SplitFirst(sep, a[1..], b);
      var rest := Split(sep, s[1..]);
      assert rest[0] == a[1..] && rest[1..] == Split(sep, b);
      assert Split(sep, s) == [[s[0]] + rest[0]] + rest[1..];
      assert [a[0]] + a[1..] == a;
    }
  }

  /**
   * Splitting a join gives back the parts, as long as there is at least one
   * part and no part contains the separator.
   */
  lemma {:induction false} SplitJoin(sep: char, parts: seq<string>)
    requires parts != []
    requires forall k :: 0 <= k < |parts| ==> sep !in parts[k]
    ensures Split(sep, Join(sep, parts)) == parts
  {
    if |parts| == 1 {
      SplitPlain(sep, parts[0]);
    } else {
      SplitJoin(sep, parts[1..]);
      SplitFirst(sep, parts[0], Join(sep, parts[1..]));
      assert [parts[0]] + parts[1..] == parts;
    }
  }

  /** A join of k separator-free parts holds exactly k - 1 separators. */
  lemma {:induction false} JoinSeparatorCount(sep: char, parts: seq<string>)
    requires parts != []
    requires forall k :: 0 <= k < |parts| ==> sep !in parts[k]
    ensures multiset(Join(sep, parts))[sep] == |parts| - 1
  {
    if |parts| > 1 {
      JoinSeparatorCount(sep, parts[1..]);
      assert multiset(parts[0])[sep] == 0;
    } else {
      assert multiset(parts[0])[sep] == 0;
    }
  }

  /** Lexicographic order on strings by character code (how JavaScript and Python compare strings). */
  predicate LexLe(a: string, b: string)
    decreases |a|
  {
    a == [] || (b != [] && (a[0] < b[0] || (a[0] == b[0] && LexLe(a[1..], b[1..]))))
  }

  /** Cutting two strings to the same length keeps their order. */
  lemma {:induction false} LexLePrefix(a: string, b: string, n: nat)
    requires LexLe(a, b)
    ensures LexLe(a[..Min(n, |a|)], b[..Min(n, |b|)])
    decreases n
  {
    var a', b' := a[..Min(n, |a|)], b[..Min(n, |b|)];
    if n == 0 || a == [] {
      assert a' == [];
    } else {
      assert b != [];
      if a[0] == b[0] {
        LexLePrefix(a[1..], b[1..], n - 1);
        assert a'[1..] == a[1..][..Min(n - 1, |a| - 1)];
        assert b'[1..] == b[1..][..Min(n - 1, |b| - 1)];
      }
    }
  }

  function Min(x: int, y: int): int
  {
    if x <= y then x else y
  }
}
