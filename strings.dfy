/** Language-neutral facts about strings: substring search, prefixes, the
    uniqueness of a split at a separator, and UTF-16 lengths (Java's
    `length()` and JavaScript's `.length` count UTF-16 code units, Dafny's
    `|s|` counts Unicode scalar values). */
module Strings {

  predicate StartsWith<T(==)>(s: seq<T>, prefix: seq<T>) {
    |prefix| <= |s| && s[..|prefix|] == prefix
  }

  predicate EndsWith<T(==)>(s: seq<T>, suffix: seq<T>) {
    |suffix| <= |s| && s[|s| - |suffix|..] == suffix
  }

  /** A non-empty sequence is its front followed by its last element. */
  lemma InitLast<T>(s: seq<T>)
    requires s != []
    ensures s[..|s| - 1] + [s[|s| - 1]] == s
  {
  }

  /** A prefix of a suffix is a slice. */
  lemma SliceOfSlice<T>(s: seq<T>, k: nat, n: nat)
    requires k + n <= |s|
    ensures s[k..][..n] == s[k..k + n]
  {
  }

  /** A concatenation starts with its first part and ends with its second. */
  lemma AppendEnds<T>(a: seq<T>, b: seq<T>)
    ensures StartsWith(a + b, a) && EndsWith(a + b, b)
  {
    assert (a + b)[..|a|] == a;
    assert (a + b)[|a + b| - |b|..] == b;
  }

  lemma AppendAssoc<T>(a: seq<T>, b: seq<T>, c: seq<T>)
    ensures (a + b) + c == a + (b + c)
  {
  }

  /** The last part of a concatenation is a suffix of it. */
  lemma EndsWithLast<T>(a: seq<T>, b: seq<T>, c: seq<T>)
    ensures EndsWith(a + (b + c), c)
  {
    assert (a + (b + c))[|a + (b + c)| - |c|..] == c;
  }

  /** `needle` occurs in `hay` at position `i`. */
  predicate OccursAt<T(==)>(hay: seq<T>, needle: seq<T>, i: int) {
    0 <= i && i + |needle| <= |hay| && hay[i..i + |needle|] == needle
  }

  /** Java's `String.contains` and Python's `needle in hay`. */
  predicate Contains<T(==)>(hay: seq<T>, needle: seq<T>) {
    exists i | 0 <= i <= |hay| - |needle| :: OccursAt(hay, needle, i)
  }

  lemma ContainsMiddle<T>(a: seq<T>, b: seq<T>, c: seq<T>)
    ensures Contains(a + b + c, b)
  {
    assert OccursAt(a + b + c, b, |a|);
  }

  /** Position of the first `x` in `s`, or `|s|` when there is none. */
  function IndexOfElem<T(==)>(s: seq<T>, x: T): (k: nat)
    ensures k <= |s|
    ensures k < |s| ==> s[k] == x
    ensures forall j :: 0 <= j < k ==> s[j] != x
  {
    if s == [] then 0 else if s[0] == x then 0 else 1 + IndexOfElem(s[1..], x)
  }

  lemma IndexOfElemAfterFreePrefix<T>(a: seq<T>, b: seq<T>, sep: T)
    requires sep !in a
    ensures IndexOfElem(a + [sep] + b, sep) == |a|
  {
    var s := a + [sep] + b;
    assert forall j :: 0 <= j < |a| ==> s[j] == a[j];
    assert s[|a|] == sep;
  }

  /** Two strings built as `a + sep + b` and `a' + sep + b'`, with no separator
      in `a` or `a'`, are equal only when the parts are. This is what makes keys
      like "kind:id:date" unambiguous. */
  lemma SeparatorSplitsUniquely<T>(a: seq<T>, b: seq<T>, a': seq<T>, b': seq<T>, sep: T)
    requires sep !in a && sep !in a'
    requires a + [sep] + b == a' + [sep] + b'
    ensures a == a' && b == b'
  {
    var s := a + [sep] + b;
    IndexOfElemAfterFreePrefix(a, b, sep);
    IndexOfElemAfterFreePrefix(a', b', sep);
    assert a == s[..|a|] && b == s[|a| + 1..];
    assert a' == s[..|a'|] && b' == s[|a'| + 1..];
  }

  /** Keys `ns + p + sep + x` and `ns + p' + sep + x'` that share the namespace
      and differ in a separator-free part `p` are distinct. */
  lemma DistinctTagsDistinctKeys<T>(ns: seq<T>, p: seq<T>, x: seq<T>, p': seq<T>, x': seq<T>, sep: T)
    requires sep !in p && sep !in p' && p != p'
    ensures ns + p + [sep] + x != ns + p' + [sep] + x'
  {
    if ns + p + [sep] + x == ns + p' + [sep] + x' {
      var k := ns + p + [sep] + x;
      assert k[|ns|..] == p + [sep] + x;
      assert k[|ns|..] == p' + [sep] + x';
      SeparatorSplitsUniquely(p, x, p', x', sep);
    }
  }

  /** Number of UTF-16 code units of one character. */
  function Utf16Width(c: char): nat {
    if c as int < 0x1_0000 then 1 else 2
  }

  /** `String.length()` in Java and `.length` in JavaScript. */
  function Utf16Length(s: string): (n: nat)
    ensures |s| <= n <= 2 * |s|
  {
    if s == [] then 0 else Utf16Length(s[..|s| - 1]) + Utf16Width(s[|s| - 1])
  }

  /** UTF-16 code units of a string (surrogate pairs for characters beyond the BMP). */
  function Utf16Units(s: string): (u: seq<int>)
    ensures |u| == Utf16Length(s)
  {
    if s == [] then []
    else
      var c := s[|s| - 1] as int;
      Utf16Units(s[..|s| - 1]) +
        (if c < 0x1_0000 then [c] else [0xD800 + (c - 0x1_0000) / 0x400, 0xDC00 + (c - 0x1_0000) % 0x400])
  }

  /** Within the Basic Multilingual Plane a character is one code unit. */
  lemma {:induction false} Utf16LengthBmp(s: string)
    requires forall i :: 0 <= i < |s| ==> (s[i] as int) < 0x1_0000
    ensures Utf16Length(s) == |s|
  {
    if s != [] {
      Utf16LengthBmp(s[..|s| - 1]);
    }
  }

  lemma {:induction false} Utf16LengthAppend(a: string, b: string)
    ensures Utf16Length(a + b) == Utf16Length(a) + Utf16Length(b)
    decreases |b|
  {
    if b == [] {
      assert a + b == a;
    } else {
      var b0 := b[..|b| - 1];
      assert (a + b)[..|a + b| - 1] == a + b0;
      Utf16LengthAppend(a, b0);
    }
  }

  /** A string between a fixed prefix and a fixed suffix is determined by the
      whole. */
  lemma SameFrame<T>(p: seq<T>, a: seq<T>, b: seq<T>, q: seq<T>)
    requires p + a + q == p + b + q
    ensures a == b
  {
    assert |a| == |b|;
    assert a == (p + a + q)[|p|..|p| + |a|];
    assert b == (p + b + q)[|p|..|p| + |b|];
  }
}
