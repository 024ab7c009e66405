/** The `java.lang.String` operations the backend services rely on:
    `trim`, `isBlank`, `split` with a literal separator, case-insensitive
    `replaceAll` with a literal pattern, `substring(0, n)`, `lastIndexOf`
    and `hashCode`. */
module JavaText {
  import Wrappers
  import opened Strings
  import opened Numeric

  /** `trim()` removes every character whose code is at most U+0020. */
  predicate IsTrimmable(c: char) {
    c <= ' '
  }

  /** The number of leading characters `trim` removes. */
  function LeadingTrimmable(s: string): (n: nat)
    ensures n <= |s| && (n == |s| || !IsTrimmable(s[n]))
    ensures forall i :: 0 <= i < n ==> IsTrimmable(s[i])
  {
    if s != [] && IsTrimmable(s[0]) then
      var n := LeadingTrimmable(s[1..]);
      assert forall i :: 1 <= i < n + 1 ==> s[i] == s[1..][i - 1];
      n + 1
    else 0
  }

  /** The number of trailing characters `trim` removes. */
  function TrailingTrimmable(s: string): (n: nat)
    ensures n <= |s| && (n == |s| || !IsTrimmable(s[|s| - n - 1]))
    ensures forall i :: |s| - n <= i < |s| ==> IsTrimmable(s[i])
  {
    if s != [] && IsTrimmable(s[|s| - 1]) then
      var n := TrailingTrimmable(s[..|s| - 1]);
      assert forall i :: |s| - 1 - n <= i < |s| - 1 ==> s[i] == s[..|s| - 1][i];
      n + 1
    else 0
  }

  function TrimStart(s: string): string {
    s[LeadingTrimmable(s)..]
  }

  function TrimEnd(s: string): string {
    s[..|s| - TrailingTrimmable(s)]
  }

  /** `String.trim()`. */
  function Trim(s: string): string {
    TrimEnd(TrimStart(s))
  }

  /** Trimming keeps a contiguous slice of the input, starts and ends on a
      kept character, and removes only trimmable characters around it. */
  lemma TrimShape(s: string)
    ensures var k := |s| - |TrimStart(s)|;
            var r := Trim(s);
            k + |r| <= |s| && r == s[k..k + |r|]
            && (forall i :: 0 <= i < k ==> IsTrimmable(s[i]))
            && (forall i :: k + |r| <= i < |s| ==> IsTrimmable(s[i]))
    ensures Trim(s) != [] ==> !IsTrimmable(Trim(s)[0]) && !IsTrimmable(Trim(s)[|Trim(s)| - 1])
  {
    var t := TrimStart(s);
    var k := |s| - |t|;
    var r := Trim(s);
    assert r == s[k..k + |r|];
    forall i | k + |r| <= i < |s| ensures IsTrimmable(s[i]) {
      assert s[i] == t[i - k];
    }
    if r != [] {
      assert r[0] == t[0];
    }
  }

  /** Text that starts and ends on a kept character is left as it is. */
  lemma TrimKeeps(s: string)
    requires s == [] || (!IsTrimmable(s[0]) && !IsTrimmable(s[|s| - 1]))
    ensures Trim(s) == s
  {
    assert LeadingTrimmable(s) == 0;
    assert TrimStart(s) == s;
    assert TrailingTrimmable(s) == 0;
  }

  lemma TrimIdempotent(s: string)
    ensures Trim(Trim(s)) == Trim(s)
  {
    TrimShape(s);
    TrimKeeps(Trim(s));
  }

  /** `isBlank()` and the source's `trim().isEmpty()`: nothing but trimmable characters. */
  predicate IsBlank(s: string) {
    Trim(s) == []
  }

  lemma BlankIffAllTrimmable(s: string)
    ensures IsBlank(s) <==> forall i :: 0 <= i < |s| ==> IsTrimmable(s[i])
  {
    var t := TrimStart(s);
    if t != [] {
      assert !IsTrimmable(s[|s| - |t|]);
      assert !IsTrimmable(t[0]);
    }
  }

  // ---------------------------------------------------------------- split

  /** Occurrences in `s[1..]` are the occurrences in `s` shifted by one. */
  lemma OccursShift(s: string, sep: string)
    requires s != []
    ensures forall j :: 1 <= j ==> (OccursAt(s, sep, j) <==> OccursAt(s[1..], sep, j - 1))
  {
    forall j | 1 <= j ensures OccursAt(s, sep, j) <==> OccursAt(s[1..], sep, j - 1) {
      if j + |sep| <= |s| {
        assert s[j..j + |sep|] == s[1..][j - 1..j - 1 + |sep|];
      }
    }
  }

  /** Position of the first occurrence of `sep` in `s`, or -1 (`indexOf`). */
  function IndexOf(s: string, sep: string): (k: int)
    requires |sep| > 0
    ensures k == -1 || 0 <= k <= |s| - |sep|
    ensures k >= 0 ==> OccursAt(s, sep, k)
    ensures forall j :: 0 <= j && (k < 0 || j < k) ==> !OccursAt(s, sep, j)
  {
    if |s| < |sep| then -1
    else if s[..|sep|] == sep then 0
    else
      var r := IndexOf(s[1..], sep);
      OccursShift(s, sep);
      if r < 0 then -1 else r + 1
  }

  /** The text before the first occurrence holds no occurrence. */
  lemma PrefixBeforeFirst(s: string, sep: string)
    requires |sep| > 0 && IndexOf(s, sep) >= 0
    ensures !Contains(s[..IndexOf(s, sep)], sep)
  {
    var k := IndexOf(s, sep);
    forall j | 0 <= j <= k - |sep| ensures !OccursAt(s[..k], sep, j) {
      assert !OccursAt(s, sep, j);
      assert s[..k][j..j + |sep|] == s[j..j + |sep|];
    }
  }

  /** The text between successive non-overlapping occurrences of `sep`,
      scanned left to right, including empty pieces. */
  function Pieces(s: string, sep: string): (ps: seq<string>)
    requires |sep| > 0
    ensures |ps| >= 1
    ensures forall i :: 0 <= i < |ps| ==> !Contains(ps[i], sep)
    decreases |s|
  {
    var k := IndexOf(s, sep);
    if k < 0 then
      [s]
    else
      PrefixBeforeFirst(s, sep);
      [s[..k]] + Pieces(s[k + |sep|..], sep)
  }

  /** Pieces glued back together with the separator. */
  function Join(ps: seq<string>, sep: string): string
    requires |ps| >= 1
  {
    if |ps| == 1 then ps[0] else ps[0] + sep + Join(ps[1..], sep)
  }

  /** Splitting loses nothing: joining the pieces gives back the input. */
  lemma {:induction false} JoinPieces(s: string, sep: string)
    requires |sep| > 0
    ensures Join(Pieces(s, sep), sep) == s
    decreases |s|
  {
    var k := IndexOf(s, sep);
    if k >= 0 {
      var rest := s[k + |sep|..];
      var ps := Pieces(s, sep);
      assert ps == [s[..k]] + Pieces(rest, sep);
      assert ps[1..] == Pieces(rest, sep);
      JoinPieces(rest, sep);
      assert Join(ps, sep) == s[..k] + sep + rest;
      assert s == s[..k] + s[k..k + |sep|] + rest;
    }
  }

  /** Removes the empty strings at the end of a list of pieces. */
  function DropTrailingEmpty(ps: seq<string>): (r: seq<string>)
    ensures |r| <= |ps| && r == ps[..|r|]
    ensures r == [] || r[|r| - 1] != []
    ensures forall i :: |r| <= i < |ps| ==> ps[i] == []
  {
    if ps != [] && ps[|ps| - 1] == [] then DropTrailingEmpty(ps[..|ps| - 1]) else ps
  }

  /** `s.split(sep)` for a separator without regex metacharacters: with no
      match the whole string is the only element; otherwise trailing empty
      pieces are dropped. */
  function Split(s: string, sep: string): (r: seq<string>)
    requires |sep| > 0
    ensures forall i :: 0 <= i < |r| ==> !Contains(r[i], sep)
  {
    var ps := Pieces(s, sep);
    if |ps| == 1 then ps else DropTrailingEmpty(ps)
  }

  /** The non-blank elements of `Split` are exactly the non-blank pieces: the
      dropped trailing pieces are all empty. */
  lemma SplitKeepsNonBlank(s: string, sep: string)
    requires |sep| > 0
    ensures var ps := Pieces(s, sep);
            var r := Split(s, sep);
            r == ps[..|r|] && forall i :: |r| <= i < |ps| ==> IsBlank(ps[i])
  {
  }

  // --------------------------------------------------------- replaceAll

  function AsciiLower(c: char): char {
    if 'A' <= c <= 'Z' then (c as int + 32) as char else c
  }

  /** Equality under the `(?i)` flag, which folds ASCII letters only. */
  predicate EqualsIgnoreCase(a: string, b: string) {
    |a| == |b| && forall i :: 0 <= i < |a| ==> AsciiLower(a[i]) == AsciiLower(b[i])
  }

  predicate MatchesIgnoreCaseAt(s: string, pat: string, i: int) {
    0 <= i && i + |pat| <= |s| && EqualsIgnoreCase(s[i..i + |pat|], pat)
  }

  predicate ContainsIgnoreCase(s: string, pat: string) {
    exists i | 0 <= i <= |s| - |pat| :: MatchesIgnoreCaseAt(s, pat, i)
  }

  /** `s.replaceAll("(?i)" + pat, rep)` for a pattern of plain characters and a
      replacement without `$` or `\`: non-overlapping matches, left to right. */
  function ReplaceAllIgnoreCase(s: string, pat: string, rep: string): string
    requires |pat| > 0
    decreases |s|
  {
    if |s| < |pat| then s
    else if EqualsIgnoreCase(s[..|pat|], pat) then rep + ReplaceAllIgnoreCase(s[|pat|..], pat, rep)
    else [s[0]] + ReplaceAllIgnoreCase(s[1..], pat, rep)
  }

  /** Text in which the pattern never occurs is left as it is. */
  lemma {:induction false} ReplaceWithoutMatch(s: string, pat: string, rep: string)
    requires |pat| > 0 && !ContainsIgnoreCase(s, pat)
    ensures ReplaceAllIgnoreCase(s, pat, rep) == s
    decreases |s|
  {
    if |s| >= |pat| {
      assert !MatchesIgnoreCaseAt(s, pat, 0);
      assert s[0..|pat|] == s[..|pat|];
      forall i | 0 <= i <= |s| - 1 - |pat| ensures !MatchesIgnoreCaseAt(s[1..], pat, i) {
        assert !MatchesIgnoreCaseAt(s, pat, i + 1);
        assert s[1..][i..i + |pat|] == s[i + 1..i + 1 + |pat|];
      }
      ReplaceWithoutMatch(s[1..], pat, rep);
    }
  }

  /** A match at the front is replaced and the scan resumes after it. */
  lemma ReplaceAtFront(m: string, rest: string, pat: string, rep: string)
    requires |pat| > 0 && EqualsIgnoreCase(m, pat)
    ensures ReplaceAllIgnoreCase(m + rest, pat, rep) == rep + ReplaceAllIgnoreCase(rest, pat, rep)
  {
    assert (m + rest)[..|pat|] == m;
    assert (m + rest)[|pat|..] == rest;
  }

  /** A match at the front of a text that `trim` leaves alone is replaced:
      the pattern begins and ends with a lower-case letter, so the text does too. */
  lemma TrimmedMatchAtFront(m: string, rest: string, pat: string, rep: string)
    requires |pat| > 0 && EqualsIgnoreCase(m, pat)
    requires 'a' <= pat[0] <= 'z' && 'a' <= pat[|pat| - 1] <= 'z'
    requires rest == [] || !IsTrimmable(rest[|rest| - 1])
    ensures ReplaceAllIgnoreCase(Trim(m + rest), pat, rep) == rep + ReplaceAllIgnoreCase(rest, pat, rep)
  {
    var s := m + rest;
    assert !IsTrimmable(s[0]) by {
      assert s[0] == m[0] && AsciiLower(m[0]) == AsciiLower(pat[0]);
    }
    assert !IsTrimmable(s[|s| - 1]) by {
      if rest == [] {
        assert s[|s| - 1] == m[|m| - 1] && AsciiLower(m[|m| - 1]) == AsciiLower(pat[|pat| - 1]);
      } else {
        assert s[|s| - 1] == rest[|rest| - 1];
      }
    }
    TrimKeeps(s);
    ReplaceAtFront(m, rest, pat, rep);
  }

  /** A character that cannot start a match is copied, and the scan goes on
      behind it. */
  lemma ReplaceSkipsChar(c: char, rest: string, pat: string, rep: string)
    requires |pat| > 0 && AsciiLower(c) != AsciiLower(pat[0])
    ensures ReplaceAllIgnoreCase([c] + rest, pat, rep) == [c] + ReplaceAllIgnoreCase(rest, pat, rep)
  {
    var s := [c] + rest;
    assert s[1..] == rest;
    if |s| >= |pat| {
      assert s[..|pat|][0] == c;
    }
  }

  /** A prefix none of whose characters can start a match is copied, and the
      scan goes on behind it. */
  lemma {:induction false} ReplaceSkipsPrefix(pre: string, rest: string, pat: string, rep: string)
    requires |pat| > 0 && forall i :: 0 <= i < |pre| ==> AsciiLower(pre[i]) != AsciiLower(pat[0])
    ensures ReplaceAllIgnoreCase(pre + rest, pat, rep) == pre + ReplaceAllIgnoreCase(rest, pat, rep)
    decreases |pre|
  {
    if pre == [] {
      assert pre + rest == rest;
    } else {
      var tail := pre[1..];
      assert pre == [pre[0]] + tail;
      assert forall i :: 0 <= i < |tail| ==> tail[i] == pre[i + 1];
      ReplaceSkipsPrefix(tail, rest, pat, rep);
      AppendAssoc([pre[0]], tail, rest);
      ReplaceSkipsChar(pre[0], tail + rest, pat, rep);
      AppendAssoc([pre[0]], tail, ReplaceAllIgnoreCase(rest, pat, rep));
    }
  }

  /** `replaceAll("'", "\"")`: every single quote becomes a double quote. */
  function ReplaceChar(s: string, from: char, to: char): string {
    seq(|s|, i requires 0 <= i < |s| => if s[i] == from then to else s[i])
  }

  // ---------------------------------------------------------- substring

  /** `s.substring(0, Math.min(n, s.length()))`, where `length()` counts UTF-16
      units: the longest prefix of at most `n` units. */
  function Utf16Prefix(s: string, n: nat): (r: string)
    ensures StartsWith(s, r)
    ensures Utf16Length(r) <= n
    ensures Utf16Length(s) <= n ==> r == s
  {
    if Utf16Length(s) <= n then s else Utf16Prefix(s[..|s| - 1], n)
  }

  /** For text of basic-plane characters the prefix is the first `n` characters. */
  lemma {:induction false} Utf16PrefixBmp(s: string, n: nat)
    requires forall i :: 0 <= i < |s| ==> (s[i] as int) < 0x1_0000
    ensures Utf16Length(s) == |s|
    ensures Utf16Prefix(s, n) == s[..Wrappers.Min(n, |s|)]
  {
    if s != [] {
      var s0 := s[..|s| - 1];
      Utf16PrefixBmp(s0, n);
      if |s| > n {
        assert s0[..Wrappers.Min(n, |s0|)] == s[..n];
      }
    }
  }

  /** `lastIndexOf(c)`: the last position holding `c`, or -1. */
  function LastIndexOf(s: string, c: char): (k: int)
    ensures -1 <= k < |s|
    ensures k >= 0 ==> s[k] == c
    ensures forall j :: k < j < |s| ==> s[j] != c
    ensures k < 0 <==> c !in s
  {
    if s == [] then -1 else if s[|s| - 1] == c then |s| - 1 else LastIndexOf(s[..|s| - 1], c)
  }

  // ---------------------------------------------------------- hashCode

  /** `String.hashCode()`: `h = 31 * h + unit` over the UTF-16 units, in `int`. */
  function HashUnits(u: seq<int>): (h: int)
    ensures IntMin <= h <= IntMax
  {
    if u == [] then 0 else ToInt32(31 * HashUnits(u[..|u| - 1]) + u[|u| - 1])
  }

  function JavaHashCode(s: string): int {
    HashUnits(Utf16Units(s))
  }

  /** The same polynomial without overflow. */
  function Polynomial(u: seq<int>): int {
    if u == [] then 0 else 31 * Polynomial(u[..|u| - 1]) + u[|u| - 1]
  }

  lemma ToInt32Step(y: int)
    ensures ToInt32(y + 0x1_0000_0000) == ToInt32(y)
  {
    assert (y + 0x1_0000_0000) % 0x1_0000_0000 == y % 0x1_0000_0000;
  }

  /** Adding a multiple of 2^32 does not change the `int` value. */
  lemma {:induction false} ToInt32Shift(x: int, q: int)
    ensures ToInt32(x + 0x1_0000_0000 * q) == ToInt32(x)
    decreases if q < 0 then -q else q
  {
    if q > 0 {
      var y := x + 0x1_0000_0000 * (q - 1);
      ToInt32Shift(x, q - 1);
      ToInt32Step(y);
      assert x + 0x1_0000_0000 * q == y + 0x1_0000_0000;
    } else if q < 0 {
      var y := x + 0x1_0000_0000 * q;
      ToInt32Shift(x, q + 1);
      ToInt32Step(y);
      assert x + 0x1_0000_0000 * (q + 1) == y + 0x1_0000_0000;
    }
  }

  /** Wrapping after every step equals wrapping once at the end: the hash is
      the polynomial `sum u[i] * 31^(n-1-i)` reduced to 32 bits. */
  lemma {:induction false} HashIsWrappedPolynomial(u: seq<int>)
    ensures HashUnits(u) == ToInt32(Polynomial(u))
  {
    if u != [] {
      var p := u[..|u| - 1];
      var c := u[|u| - 1];
      HashIsWrappedPolynomial(p);
      var h := HashUnits(p);
      var P := Polynomial(p);
      var q := (h - P) / 0x1_0000_0000;
      assert h == P + 0x1_0000_0000 * q;
      assert 31 * h + c == (31 * P + c) + 0x1_0000_0000 * (31 * q);
      ToInt32Shift(31 * P + c, 31 * q);
    }
  }
}
