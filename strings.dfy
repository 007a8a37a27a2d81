/**
 * Text helpers with the meaning Python's `str` methods give them:
 * whitespace per `str.isspace` (also what `\s` matches in a `str` pattern),
 * `strip`, `split()`, `startswith`, `in`, `replace`, `join`, and code-point order.
 */
module Strings {
  import opened Wrappers

  /** Python's `str.isspace()` for one character. */
  predicate IsSpace(c: char) {
    ('\t' <= c <= '\r') || ('\U{1C}' <= c <= '\U{1F}') || c == ' ' || c == '\U{85}' || c == '\U{A0}'
    || c == '\U{1680}' || ('\U{2000}' <= c <= '\U{200A}') || c == '\U{2028}' || c == '\U{2029}'
    || c == '\U{202F}' || c == '\U{205F}' || c == '\U{3000}'
  }

  predicate StartsWith(s: string, prefix: string) {
    |prefix| <= |s| && s[..|prefix|] == prefix
  }

  predicate EndsWith(s: string, suffix: string) {
    |suffix| <= |s| && s[|s| - |suffix|..] == suffix
  }

  /** `w` occurs in `s` starting at index `i`. */
  predicate OccursAt(s: string, w: string, i: int) {
    0 <= i && i + |w| <= |s| && s[i..i + |w|] == w
  }

  /** Python's `w in s` for strings: `w` occurs somewhere in `s` (the empty word always does). */
  predicate Contains(s: string, w: string) {
    exists i :: 0 <= i <= |s| && OccursAt(s, w, i)
  }

  /** `s.lstrip()` */
  function LStrip(s: string): (r: string)
    ensures |r| <= |s| && r == s[|s| - |r|..]
    ensures r == [] || !IsSpace(r[0])
    ensures forall i :: 0 <= i < |s| - |r| ==> IsSpace(s[i])
  {
    if |s| > 0 && IsSpace(s[0]) then LStrip(s[1..]) else s
  }

  /** `s.rstrip()` */
  function RStrip(s: string): (r: string)
    ensures |r| <= |s| && r == s[..|r|]
    ensures r == [] || !IsSpace(r[|r| - 1])
    ensures forall i :: |r| <= i < |s| ==> IsSpace(s[i])
  {
    if |s| > 0 && IsSpace(s[|s| - 1]) then RStrip(s[..|s| - 1]) else s
  }

  /** `s.strip()`: the text between the leading and the trailing whitespace. */
  function Strip(s: string): string {
    RStrip(LStrip(s))
  }

  lemma StripUnchanged(s: string)
    requires s != [] && !IsSpace(s[0]) && !IsSpace(s[|s| - 1])
    ensures Strip(s) == s
  {
  }

  /** Code-point rank of a character; when `slashFirst`, '/' ranks below every other character. */
  function Rank(c: char, slashFirst: bool): int {
    if slashFirst && c == '/' then -1 else c as int
  }

  /**
   * Lexicographic order. With `slashFirst == false` it is Python's `str` order; with
   * `slashFirst == true` it is the order Python gives two absolute paths, which compares
   * their lists of components (component names never contain '/').
   */
  predicate Less(a: string, b: string, slashFirst: bool) {
    if |a| == 0 then |b| > 0
    else if |b| == 0 then false
    else if a[0] != b[0] then Rank(a[0], slashFirst) < Rank(b[0], slashFirst)
    else Less(a[1..], b[1..], slashFirst)
  }

  lemma {:induction false} LessIrreflexive(a: string, sf: bool)
    ensures !Less(a, a, sf)
  {
    if |a| > 0 {
      LessIrreflexive(a[1..], sf);
    }
  }

  lemma {:induction false} LessTransitive(a: string, b: string, c: string, sf: bool)
    requires Less(a, b, sf) && Less(b, c, sf)
    ensures Less(a, c, sf)
  {
    if |a| > 0 && |b| > 0 && |c| > 0 && a[0] == b[0] && b[0] == c[0] {
      LessTransitive(a[1..], b[1..], c[1..], sf);
    }
  }

  lemma {:induction false} LessTotal(a: string, b: string, sf: bool)
    requires a != b
    ensures Less(a, b, sf) || Less(b, a, sf)
  {
    if |a| > 0 && |b| > 0 && a[0] == b[0] {
      assert a == [a[0]] + a[1..] && b == [b[0]] + b[1..];
      LessTotal(a[1..], b[1..], sf);
    }
  }

  lemma LessAsymmetric(a: string, b: string, sf: bool)
    requires Less(a, b, sf)
    ensures !Less(b, a, sf)
  {
    if Less(b, a, sf) {
      LessTransitive(a, b, a, sf);
      LessIrreflexive(a, sf);
    }
  }

  /** `sep.join(parts)` */
  function JoinWith(sep: string, parts: seq<string>): string {
    if |parts| == 0 then ""
    else if |parts| == 1 then parts[0]
    else parts[0] + sep + JoinWith(sep, parts[1..])
  }

  /** `s.replace(pat, rep)`: every non-overlapping occurrence, left to right. */
  function Replace(s: string, pat: string, rep: string): (r: string)
    requires |pat| > 0
    ensures !Contains(s, pat) ==> r == s
    decreases |s|
  {
    if |s| < |pat| then s
    else if s[..|pat|] == pat then
      assert OccursAt(s, pat, 0);
      rep + Replace(s[|pat|..], pat, rep)
    else
      assert Contains(s[1..], pat) ==> Contains(s, pat) by {
        if Contains(s[1..], pat) {
          var i :| 0 <= i <= |s[1..]| && OccursAt(s[1..], pat, i);
          assert s[i + 1..i + 1 + |pat|] == s[1..][i..i + |pat|];
          assert OccursAt(s, pat, i + 1);
        }
      }
      [s[0]] + Replace(s[1..], pat, rep)
  }

  /** No character of `w` is whitespace. */
  predicate NoSpace(w: string) {
    forall i :: 0 <= i < |w| ==> !IsSpace(w[i])
  }

  /** The leading run of non-whitespace characters. */
  function TakeWord(s: string): (w: string)
    ensures |w| <= |s| && w == s[..|w|]
    ensures NoSpace(w)
    ensures |w| == |s| || IsSpace(s[|w|])
  {
    if |s| == 0 || IsSpace(s[0]) then "" else [s[0]] + TakeWord(s[1..])
  }

  /** `s.split()`: the maximal runs of non-whitespace characters, in order. */
  function Words(s: string): (ws: seq<string>)
    ensures forall k :: 0 <= k < |ws| ==> ws[k] != ""
    decreases |s|
  {
    if s == [] then []
    else if IsSpace(s[0]) then Words(s[1..])
    else
      var w := TakeWord(s);
      [w] + Words(s[|w|..])
  }

  /** No word holds whitespace. */
  lemma {:induction false} WordsHaveNoSpace(s: string)
    ensures forall k :: 0 <= k < |Words(s)| ==> NoSpace(Words(s)[k])
    decreases |s|
  {
    if s != [] {
      if IsSpace(s[0]) {
        WordsHaveNoSpace(s[1..]);
      } else {
        var w := TakeWord(s);
        WordsHaveNoSpace(s[|w|..]);
        assert Words(s) == [w] + Words(s[|w|..]);
      }
    }
  }

  /** ASCII case mapping of `str.lower()`. */
  function LowerChar(c: char): char {
    if 'A' <= c <= 'Z' then (c as int + 32) as char else c
  }

  function Lower(s: string): (r: string)
    ensures |r| == |s| && forall i :: 0 <= i < |s| ==> r[i] == LowerChar(s[i])
  {
    seq(|s|, i requires 0 <= i < |s| => LowerChar(s[i]))
  }

  /**
   * `s.find(w, i)` as an option: an index at or after `i` where `w` occurs; `FindIsFirst` shows it
   * is the first one, and that there is none when the result is `None`.
   */
  function Find(s: string, w: string, i: nat): (r: Option<nat>)
    ensures r.Some? ==> i <= r.value && OccursAt(s, w, r.value)
    decreases |s| - i
  {
    if i + |w| > |s| then None
    else if OccursAt(s, w, i) then Some(i)
    else Find(s, w, i + 1)
  }

  lemma {:induction false} FindIsFirst(s: string, w: string, i: nat)
    ensures Find(s, w, i).Some? ==> forall k :: i <= k < Find(s, w, i).value ==> !OccursAt(s, w, k)
    ensures Find(s, w, i).None? ==> forall k :: i <= k ==> !OccursAt(s, w, k)
    decreases |s| - i
  {
    if i + |w| <= |s| && !OccursAt(s, w, i) {
      FindIsFirst(s, w, i + 1);
    }
  }

  /** `Find` lands on the first occurrence at or after `i`. */
  lemma {:induction false} FindFirst(s: string, w: string, i: nat, j: nat)
    requires i <= j && OccursAt(s, w, j)
    requires forall k :: i <= k < j ==> !OccursAt(s, w, k)
    ensures Find(s, w, i) == Some(j)
    decreases j - i
  {
    if i < j {
      FindFirst(s, w, i + 1, j);
    }
  }

  /** The end of the line from `i`: the next line feed, or the end of the text. */
  function LineEnd(t: string, i: nat): (r: nat)
    requires i <= |t|
    ensures i <= r <= |t|
    ensures forall k :: i <= k < r ==> t[k] != '\n'
    ensures r == |t| || t[r] == '\n'
    decreases |t| - i
  {
    if i == |t| || t[i] == '\n' then i else LineEnd(t, i + 1)
  }

  /** `str(n)` for a natural number. */
  function Show(n: nat): (r: string)
    ensures |r| > 0
    ensures forall k :: 0 <= k < |r| ==> '0' <= r[k] <= '9'
  {
    if n < 10 then [('0' as int + n) as char]
    else Show(n / 10) + [('0' as int + n % 10) as char]
  }
}
