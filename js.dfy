/** The JavaScript built-ins the components rely on, with the semantics they have for
    the arguments the components pass: `Array.prototype.slice/filter/flat/indexOf`,
    `String.prototype.toLowerCase/toUpperCase/includes/trim`, and the
    `s.charAt(0).toUpperCase() + s.slice(1)` idiom. Case mapping covers ASCII only. */
module Js {

  function Min(a: int, b: int): int { if a <= b then a else b }

  // ---------------------------------------------------------------------------
  // Sequences

  /** `r` can be obtained from `s` by deleting elements: same elements, same order. */
  predicate IsSubsequence<T(==)>(r: seq<T>, s: seq<T>)
    decreases |s|
  {
    r == [] ||
    (|s| > 0 && ((r[0] == s[0] && IsSubsequence(r[1..], s[1..])) || IsSubsequence(r, s[1..])))
  }

  lemma {:induction false} SubsequenceTransitive<T>(a: seq<T>, b: seq<T>, c: seq<T>)
    requires IsSubsequence(a, b) && IsSubsequence(b, c)
    ensures IsSubsequence(a, c)
    decreases |c|
  {
    if a == [] {
    } else if b == [] {
    } else if b[0] == c[0] && IsSubsequence(b[1..], c[1..]) {
      if a[0] == b[0] && IsSubsequence(a[1..], b[1..]) {
        SubsequenceTransitive(a[1..], b[1..], c[1..]);
      } else {
        SubsequenceTransitive(a, b[1..], c[1..]);
      }
    } else {
      SubsequenceTransitive(a, b, c[1..]);
    }
  }

  /** Every element of a subsequence occurs in the sequence it was taken from. */
  lemma {:induction false} SubsequenceMember<T>(r: seq<T>, s: seq<T>, k: nat)
    requires IsSubsequence(r, s) && k < |r|
    ensures r[k] in s
    decreases |s|
  {
    var i: nat;
    if r[0] == s[0] && IsSubsequence(r[1..], s[1..]) {
      if k == 0 {
        return;
      }
      SubsequenceMember(r[1..], s[1..], k - 1);
      i :| 0 <= i < |s[1..]| && s[1..][i] == r[1..][k - 1];
    } else {
      SubsequenceMember(r, s[1..], k);
      i :| 0 <= i < |s[1..]| && s[1..][i] == r[k];
    }
    assert s[i + 1] == r[k];
  }

  lemma {:induction false} SubsequenceOfSelf<T>(s: seq<T>)
    ensures IsSubsequence(s, s)
    decreases |s|
  {
    if s != [] {
      SubsequenceOfSelf(s[1..]);
    }
  }

  /** Every contiguous piece of `s` is a subsequence of it. */
  lemma {:induction false} SegmentIsSubsequence<T>(s: seq<T>, i: nat, j: nat)
    requires i <= j <= |s|
    ensures IsSubsequence(s[i..j], s)
    decreases |s|
  {
    if i == j {
    } else if i == 0 {
      assert s[i..j][0] == s[0];
      assert s[i..j][1..] == s[1..][0..j - 1];
      SegmentIsSubsequence(s[1..], 0, j - 1);
    } else {
      var t := s[1..];
      assert s[i..j] == t[i - 1..j - 1] by {
        assert forall k :: 0 <= k < j - i ==> s[i..j][k] == s[i + k] == t[i - 1 + k];
      }
      SegmentIsSubsequence(t, i - 1, j - 1);
    }
  }

  /** `s.slice(start, end)` for non-negative arguments: indices past the end are
      clamped to the length, and an empty range gives the empty array. */
  function Slice<T>(s: seq<T>, start: nat, end: nat): (r: seq<T>)
    ensures |r| == if start < Min(end, |s|) then Min(end, |s|) - start else 0
    ensures forall k :: 0 <= k < |r| ==> r[k] == s[start + k]
  {
    var e := Min(end, |s|);
    if start < e then s[start..e] else []
  }

  lemma {:induction false} SliceIsSubsequence<T>(s: seq<T>, start: nat, end: nat)
    ensures IsSubsequence(Slice(s, start, end), s)
  {
    var e := Min(end, |s|);
    if start < e {
      SegmentIsSubsequence(s, start, e);
    }
  }

  /** Two adjacent slices make up the slice that spans them both. */
  lemma {:induction false} SliceAdjacent<T>(s: seq<T>, a: nat, b: nat, c: nat)
    requires a <= b <= c
    ensures Slice(s, a, b) + Slice(s, b, c) == Slice(s, a, c)
  {
    var n := |s|;
    if b >= n {
      assert Slice(s, b, c) == [];
      assert Slice(s, a, b) == Slice(s, a, c);
    } else if c >= n {
      assert Slice(s, a, b) + Slice(s, b, c) == s[a..b] + s[b..n];
      assert s[a..b] + s[b..n] == s[a..n];
    } else {
      assert s[a..b] + s[b..c] == s[a..c];
    }
  }

  /** `s.filter(p)`: the elements of `s` that satisfy `p`, in their order in `s`. */
  function Filter<T(!new)>(s: seq<T>, p: T -> bool): (r: seq<T>)
    ensures |r| <= |s|
    ensures forall k :: 0 <= k < |r| ==> p(r[k])
    ensures forall k :: 0 <= k < |s| && p(s[k]) ==> s[k] in r
    ensures IsSubsequence(r, s)
  {
    if s == [] then []
    else
      var rest := Filter(s[1..], p);
      if p(s[0]) then [s[0]] + rest
      else
        assert rest == [] || |s| > 0;
        rest
  }

  /** `filter` keeps every copy of an element that passes and no copy of one that fails. */
  lemma {:induction false} FilterCounts<T(!new)>(s: seq<T>, p: T -> bool)
    ensures forall x :: multiset(Filter(s, p))[x] == if p(x) then multiset(s)[x] else 0
    decreases |s|
  {
    if s != [] {
      FilterCounts(s[1..], p);
      assert s == [s[0]] + s[1..];
    }
  }

  lemma {:induction false} FilterAppend<T(!new)>(a: seq<T>, b: seq<T>, p: T -> bool)
    ensures Filter(a + b, p) == Filter(a, p) + Filter(b, p)
    decreases |a|
  {
    if a == [] {
      assert a + b == b;
    } else {
      assert (a + b)[1..] == a[1..] + b;
      FilterAppend(a[1..], b, p);
    }
  }

  /** A filter that every element passes gives back the whole array. */
  lemma {:induction false} FilterKeepsAll<T(!new)>(s: seq<T>, p: T -> bool)
    requires forall k :: 0 <= k < |s| ==> p(s[k])
    ensures Filter(s, p) == s
    decreases |s|
  {
    if s != [] {
      FilterKeepsAll(s[1..], p);
    }
  }

  /** `pages.flat()` on an array of arrays: the pages joined in order. */
  function Flat<T>(pages: seq<seq<T>>): (r: seq<T>)
    ensures pages == [] ==> r == []
    ensures pages != [] ==> pages[0] <= r
  {
    if pages == [] then [] else Flat(pages[..|pages| - 1]) + pages[|pages| - 1]
  }

  /** Flattening after one more page appends that page. */
  lemma {:induction false} FlatSnoc<T>(pages: seq<seq<T>>, page: seq<T>)
    ensures Flat(pages + [page]) == Flat(pages) + page
  {
    assert (pages + [page])[..|pages|] == pages;
  }

  /** The first `n` pages of width `width` of `s`, at offsets 0, width, 2 * width, ... */
  function Pages<T>(s: seq<T>, width: nat, n: nat): (pages: seq<seq<T>>)
    ensures |pages| == n
  {
    if n == 0 then [] else Pages(s, width, n - 1) + [Slice(s, (n - 1) * width, (n - 1) * width + width)]
  }

  /** Page `k` is the slice at offset `k * width`. */
  lemma {:induction false} PageAt<T>(s: seq<T>, width: nat, n: nat, k: nat)
    requires k < n
    ensures Pages(s, width, n)[k] == Slice(s, k * width, k * width + width)
    decreases n
  {
    if k < n - 1 {
      PageAt(s, width, n - 1, k);
    }
  }

  /** Consecutive pages tile `s`: joined, the first `n` pages are its first `n * width`
      elements, with no gap and no repetition. */
  lemma {:induction false} PagesTile<T>(s: seq<T>, width: nat, n: nat)
    ensures Flat(Pages(s, width, n)) == Slice(s, 0, n * width)
    decreases n
  {
    if n == 0 {
      assert Slice(s, 0, 0) == [];
    } else {
      var off := (n - 1) * width;
      assert off + width == n * width;
      var prev := Pages(s, width, n - 1);
      PagesTile(s, width, n - 1);
      FlatSnoc(prev, Slice(s, off, off + width));
      SliceAdjacent(s, 0, off, off + width);
    }
  }

  /** `s.indexOf(x)`: the first position holding `x`, or -1. */
  function IndexOf<T(==)>(s: seq<T>, x: T): (r: int)
    ensures -1 <= r < |s|
    ensures r == -1 <==> x !in s
    ensures 0 <= r ==> s[r] == x && x !in s[..r]
  {
    if s == [] then -1
    else if s[0] == x then 0
    else
      var i := IndexOf(s[1..], x);
      if i == -1 then -1
      else
        assert s[..i + 1] == [s[0]] + s[1..][..i];
        i + 1
  }

  // ---------------------------------------------------------------------------
  // Strings (ASCII case mapping)

  function LowerChar(c: char): char
  {
    if 'A' <= c <= 'Z' then (c as int + 32) as char else c
  }

  function UpperChar(c: char): (u: char)
    ensures u == ' ' <==> c == ' '
    ensures !('a' <= u <= 'z')
  {
    if 'a' <= c <= 'z' then (c as int - 32) as char else c
  }

  /** `s.toLowerCase()`. */
  function Lower(s: string): (r: string)
    ensures |r| == |s|
    ensures forall k :: 0 <= k < |s| ==> r[k] == LowerChar(s[k])
    ensures forall k :: 0 <= k < |r| ==> !('A' <= r[k] <= 'Z')
  {
    seq(|s|, k requires 0 <= k < |s| => LowerChar(s[k]))
  }

  /** `s.charAt(0).toUpperCase() + s.slice(1)`: the first character upper-cased, the
      rest unchanged; the empty string stays empty. */
  function CapitalizeFirst(s: string): (r: string)
    ensures |r| == |s|
    ensures s != "" ==> r[0] == UpperChar(s[0]) && r[1..] == s[1..]
  {
    if s == "" then "" else [UpperChar(s[0])] + s[1..]
  }

  /** `needle` sits in `hay` at position `i`. */
  ghost predicate OccursAt(hay: string, needle: string, i: int)
  {
    0 <= i && i + |needle| <= |hay| && hay[i..i + |needle|] == needle
  }

  /** `hay.includes(needle)`, computed by trying each start position in turn. */
  function Includes(hay: string, needle: string): (b: bool)
    ensures needle <= hay ==> b
    ensures b ==> |needle| <= |hay|
    decreases |hay|
  {
    needle <= hay || (hay != "" && Includes(hay[1..], needle))
  }

  lemma {:induction false} IncludesIff(hay: string, needle: string)
    ensures Includes(hay, needle) <==> exists i :: OccursAt(hay, needle, i)
    decreases |hay|
  {
    OccursAtStart(hay, needle);
    if needle <= hay {
    } else if hay == "" {
    } else {
      IncludesIff(hay[1..], needle);
      forall i | OccursAt(hay, needle, i)
        ensures OccursAt(hay[1..], needle, i - 1)
      {
        OccursAtShift(hay, needle, i);
      }
      if Includes(hay[1..], needle) {
        var i :| OccursAt(hay[1..], needle, i);
        OccursAtShift(hay, needle, i + 1);
      }
    }
  }

  /** An occurrence at 0 is a prefix. */
  lemma OccursAtStart(hay: string, needle: string)
    ensures OccursAt(hay, needle, 0) <==> needle <= hay
  {
    if |needle| <= |hay| {
      assert hay[0..|needle|] == hay[..|needle|];
    }
  }

  /** An occurrence at `i > 0` is one at `i - 1` once the first character is dropped. */
  lemma OccursAtShift(hay: string, needle: string, i: int)
    requires hay != ""
    ensures i > 0 ==> (OccursAt(hay, needle, i) <==> OccursAt(hay[1..], needle, i - 1))
  {
    if 0 < i && i + |needle| <= |hay| {
      assert hay[1..][i - 1..i - 1 + |needle|] == hay[i..i + |needle|];
    }
  }

  lemma {:induction false} IncludesEmpty(hay: string)
    ensures Includes(hay, "")
  {
    assert "" <= hay;
  }

  // ---------------------------------------------------------------------------
  // Whitespace

  /** The characters `String.prototype.trim` strips: the ECMAScript WhiteSpace set
      (tab, vertical tab, form feed, space, no-break space, the byte order mark and the
      Unicode space separators) and the LineTerminator set. */
  predicate IsWhitespace(c: char)
  {
    || c == '\t' || c == '\U{B}' || c == '\U{C}' || c == ' ' || c == '\U{A0}' || c == '\U{FEFF}'
    || c == '\n' || c == '\r' || c == '\U{2028}' || c == '\U{2029}'
    || c == '\U{1680}' || '\U{2000}' <= c <= '\U{200A}' || c == '\U{202F}' || c == '\U{205F}'
    || c == '\U{3000}'
  }

  /** The index of the first non-whitespace character of `s` at or after `i`, or `|s|`. */
  function SkipStart(s: string, i: nat): (j: nat)
    requires i <= |s|
    ensures i <= j <= |s|
    ensures forall k :: i <= k < j ==> IsWhitespace(s[k])
    ensures j < |s| ==> !IsWhitespace(s[j])
    decreases |s| - i
  {
    if i < |s| && IsWhitespace(s[i]) then SkipStart(s, i + 1) else i
  }

  /** The end of `s[i..j]` once its trailing whitespace is dropped. */
  function SkipEnd(s: string, i: nat, j: nat): (e: nat)
    requires i <= j <= |s|
    ensures i <= e <= j
    ensures forall k :: e <= k < j ==> IsWhitespace(s[k])
    ensures i < e ==> !IsWhitespace(s[e - 1])
    decreases j
  {
    if i < j && IsWhitespace(s[j - 1]) then SkipEnd(s, i, j - 1) else j
  }

  /** `s.trim()`: `s` with its leading and trailing whitespace removed. It is the segment
      of `s` from the first to the last non-whitespace character, so it is empty exactly
      when `s` holds nothing but whitespace. */
  function Trim(s: string): (r: string)
    ensures var i := SkipStart(s, 0);
      && i + |r| <= |s| && r == s[i..i + |r|]
      && (forall k :: 0 <= k < i ==> IsWhitespace(s[k]))
      && (forall k :: i + |r| <= k < |s| ==> IsWhitespace(s[k]))
    ensures r == "" <==> forall k :: 0 <= k < |s| ==> IsWhitespace(s[k])
    ensures r != "" ==> !IsWhitespace(r[0]) && !IsWhitespace(r[|r| - 1])
  {
    var i := SkipStart(s, 0);
    var e := SkipEnd(s, i, |s|);
    assert i < e ==> s[i..e][0] == s[i] && s[i..e][e - i - 1] == s[e - 1];
    s[i..e]
  }

  /** `table[key]` (a `Record<string, string>` entry or `URLSearchParams.get`), with a
      missing entry read as `undefined`/`null`, which every use below treats like "". */
  function Lookup(table: map<string, string>, key: string): (r: string)
    ensures key in table ==> r == table[key]
    ensures key !in table ==> r == ""
  {
    if key in table then table[key] else ""
  }

  /** `value || fallback` for strings: "" is the only falsy string. */
  function Or(value: string, fallback: string): (r: string)
    ensures value != "" ==> r == value
    ensures value == "" ==> r == fallback
  {
    if value != "" then value else fallback
  }
}
