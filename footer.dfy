/** `components/layout/Footer.tsx`: the footer shows the first six entries of each of
    the three taxonomy lists (body parts, equipment, target muscles), each entry passed
    through `capitalize`, which upper-cases the first letter of every space-separated word. */
module Footer {
  import opened Exercises
  import Js

  const PREVIEW_SIZE: nat := 6

  /** Position of the first space in `s`, or `|s|` when there is none. */
  function SpaceIndex(s: string): (k: nat)
    ensures k <= |s|
    ensures k < |s| ==> s[k] == ' '
    ensures forall i :: 0 <= i < k ==> s[i] != ' '
  {
    if s == "" || s[0] == ' ' then 0 else 1 + SpaceIndex(s[1..])
  }

  /** `s.split(' ')`: the pieces between single spaces; two adjacent spaces give an
      empty piece, and there is always at least one piece. */
  function Split(s: string): (words: seq<string>)
    ensures |words| >= 1
    decreases |s|
  {
    var k := SpaceIndex(s);
    if k == |s| then [s] else [s[..k]] + Split(s[k + 1..])
  }

  /** No piece of a split contains a space. */
  lemma {:induction false} SplitHasNoSpace(s: string)
    ensures forall k :: 0 <= k < |Split(s)| ==> ' ' !in Split(s)[k]
    decreases |s|
  {
    SplitUnfold(s);
    var k := SpaceIndex(s);
    if k < |s| {
      SplitHasNoSpace(s[k + 1..]);
      assert ' ' !in s[..k];
    }
  }

  /** `words.join(' ')`: the first word, then each further word after one space. */
  function Join(words: seq<string>): (r: string)
    ensures words == [] ==> r == ""
    ensures words != [] ==> words[0] <= r
    ensures |words| >= 2 ==> |words[0]| < |r| && r[|words[0]|] == ' '
  {
    if words == [] then ""
    else if |words| == 1 then words[0]
    else words[0] + " " + Join(words[1..])
  }

  lemma {:induction false} JoinCons(word: string, rest: seq<string>)
    requires |rest| >= 1
    ensures Join([word] + rest) == word + " " + Join(rest)
  {
    assert ([word] + rest)[1..] == rest;
  }

  /** Joining the pieces of a split gives back the original string. */
  lemma {:induction false} JoinSplit(s: string)
    ensures Join(Split(s)) == s
    decreases |s|
  {
    SplitUnfold(s);
    var k := SpaceIndex(s);
    if k < |s| {
      var word, rest := s[..k], s[k + 1..];
      var words := Split(rest);
      assert Split(s) == [word] + words;
      JoinSplit(rest);
      JoinCons(word, words);
      AroundSpace(s, k);
    } else {
      assert Split(s) == [s];
      assert Join([s]) == s;
    }
  }

  /** A string is what comes before a space, the space and what comes after it. */
  lemma {:induction false} AroundSpace(s: string, k: nat)
    requires k < |s| && s[k] == ' '
    ensures s == s[..k] + " " + s[k + 1..]
  {
    assert s == s[..k] + s[k..] && s[k..] == [s[k]] + s[k + 1..];
  }

  /** Splitting a join of space-free words gives back the words. */
  lemma {:induction false} SplitJoin(words: seq<string>)
    requires |words| >= 1
    requires forall k :: 0 <= k < |words| ==> ' ' !in words[k]
    ensures Split(Join(words)) == words
    decreases |words|
  {
    var w := words[0];
    if |words| == 1 {
      assert SpaceIndex(w) == |w|;
    } else {
      var s := Join(words);
      assert s == w + " " + Join(words[1..]);
      SpaceIndexOfJoin(w, Join(words[1..]));
      assert s[..|w|] == w && s[|w| + 1..] == Join(words[1..]);
      SplitJoin(words[1..]);
    }
  }

  lemma {:induction false} SpaceIndexOfJoin(w: string, rest: string)
    requires ' ' !in w
    ensures SpaceIndex(w + " " + rest) == |w|
  {
    var s := w + " " + rest;
    assert forall i :: 0 <= i < |w| ==> s[i] == w[i];
    assert s[|w|] == ' ';
  }

  /** `.map(word => word.charAt(0).toUpperCase() + word.slice(1))`. */
  function CapitalizeWords(words: seq<string>): (r: seq<string>)
    ensures |r| == |words|
    ensures forall k :: 0 <= k < |r| ==> r[k] == Js.CapitalizeFirst(words[k])
  {
    if words == [] then [] else [Js.CapitalizeFirst(words[0])] + CapitalizeWords(words[1..])
  }

  /** `capitalize(str)`: its words, split at single spaces, are the words of `str` with
      their first characters upper-cased. */
  function Capitalize(s: string): (r: string)
    ensures Split(r) == CapitalizeWords(Split(s))
  {
    var words := CapitalizeWords(Split(s));
    assert forall k :: 0 <= k < |words| ==> ' ' !in words[k] by {
      SplitHasNoSpace(s);
      forall k | 0 <= k < |words|
        ensures ' ' !in words[k]
      {
        CapitalizeFirstKeepsNoSpace(Split(s)[k]);
      }
    }
    SplitJoin(words);
    Join(words)
  }

  /** Upper-casing the first character of a word without spaces adds none. */
  lemma {:induction false} CapitalizeFirstKeepsNoSpace(w: string)
    requires ' ' !in w
    ensures ' ' !in Js.CapitalizeFirst(w)
  {
    var r := Js.CapitalizeFirst(w);
    if w != "" {
      forall i | 0 <= i < |r|
        ensures r[i] != ' '
      {
        if i > 0 {
          assert r[i] == r[1..][i - 1] == w[1..][i - 1] == w[i];
        }
      }
    }
  }

  /** Position `i` of `s` begins a word: it is the first position or follows a space. */
  predicate StartsWord(s: string, i: nat)
    requires i < |s|
  {
    i == 0 || s[i - 1] == ' '
  }

  lemma {:induction false} SplitUnfold(s: string)
    ensures SpaceIndex(s) < |s| ==> Split(s) == [s[..SpaceIndex(s)]] + Split(s[SpaceIndex(s) + 1..])
    ensures SpaceIndex(s) == |s| ==> Split(s) == [s]
  {
  }

  lemma {:induction false} CapitalizeWordsCons(word: string, rest: seq<string>)
    ensures CapitalizeWords([word] + rest) == [Js.CapitalizeFirst(word)] + CapitalizeWords(rest)
  {
    assert ([word] + rest)[1..] == rest;
  }

  /** One step of `capitalize`: the first word, then the rest after the first space. */
  lemma {:induction false} CapitalizeUnfold(s: string)
    ensures SpaceIndex(s) == |s| ==> Capitalize(s) == Js.CapitalizeFirst(s)
    ensures SpaceIndex(s) < |s| ==>
      Capitalize(s) == Js.CapitalizeFirst(s[..SpaceIndex(s)]) + " " + Capitalize(s[SpaceIndex(s) + 1..])
  {
    SplitUnfold(s);
    var k := SpaceIndex(s);
    if k < |s| {
      var rest := Split(s[k + 1..]);
      CapitalizeWordsCons(s[..k], rest);
      JoinCons(Js.CapitalizeFirst(s[..k]), CapitalizeWords(rest));
    } else {
      CapitalizeWordsCons(s, []);
    }
  }

  /** `capitalize` upper-cases exactly the characters that begin a word and keeps every
      other character, so the result is as long as the input. */
  lemma {:induction false} CapitalizeAt(s: string)
    ensures |Capitalize(s)| == |s|
    ensures forall i :: 0 <= i < |s| ==>
      Capitalize(s)[i] == if StartsWord(s, i) then Js.UpperChar(s[i]) else s[i]
    decreases |s|
  {
    CapitalizeUnfold(s);
    var k := SpaceIndex(s);
    if k < |s| {
      var word, rest := s[..k], s[k + 1..];
      CapitalizeAt(rest);
      assert ' ' !in word;
      AroundSpace(s, k);
      assert Capitalize(s) == Js.CapitalizeFirst(word) + " " + Capitalize(rest);
      CapitalizeStep(word, rest, Js.CapitalizeFirst(word), Capitalize(rest));
    } else {
      assert Capitalize(s) == Js.CapitalizeFirst(s);
      assert ' ' !in s;
      CapitalizeWordAt(s);
    }
  }

  /** A single word: only its first character begins a word. */
  lemma {:induction false} CapitalizeWordAt(w: string)
    requires ' ' !in w
    ensures |Js.CapitalizeFirst(w)| == |w|
    ensures forall i :: 0 <= i < |w| ==>
      Js.CapitalizeFirst(w)[i] == if StartsWord(w, i) then Js.UpperChar(w[i]) else w[i]
  {
    var c := Js.CapitalizeFirst(w);
    forall i | 0 <= i < |w|
      ensures c[i] == if StartsWord(w, i) then Js.UpperChar(w[i]) else w[i]
    {
      if i > 0 {
        assert c[i] == c[1..][i - 1] == w[1..][i - 1] == w[i];
        assert w[i - 1] != ' ';
      }
    }
  }

  /** The character-by-character step of `CapitalizeAt` for a first word and the rest. */
  lemma {:induction false} CapitalizeStep(word: string, rest: string, head: string, tail: string)
    requires ' ' !in word
    requires head == Js.CapitalizeFirst(word)
    requires |tail| == |rest|
    requires forall i :: 0 <= i < |rest| ==> tail[i] == if StartsWord(rest, i) then Js.UpperChar(rest[i]) else rest[i]
    ensures |head + " " + tail| == |word + " " + rest|
    ensures forall i :: 0 <= i < |word + " " + rest| ==>
      (head + " " + tail)[i] == if StartsWord(word + " " + rest, i) then Js.UpperChar((word + " " + rest)[i]) else (word + " " + rest)[i]
  {
    var s, c := word + " " + rest, head + " " + tail;
    var k := |word|;
    forall i | 0 <= i < |s|
      ensures c[i] == if StartsWord(s, i) then Js.UpperChar(s[i]) else s[i]
    {
      if i < k {
        assert c[i] == head[i] && s[i] == word[i];
        if i > 0 {
          assert head[i] == head[1..][i - 1] == word[1..][i - 1];
          assert s[i - 1] == word[i - 1];
        }
      } else if i == k {
        assert c[i] == ' ' && s[i] == ' ';
        assert k > 0 ==> s[i - 1] == word[k - 1];
      } else {
        assert c[i] == tail[i - k - 1] && s[i] == rest[i - k - 1];
        assert i - k - 1 > 0 ==> rest[i - k - 2] == s[i - 1];
      }
    }
  }


  /** `capitalize` leaves every space where it was and creates no new one; empty words
      (from two adjacent spaces) survive. */
  lemma {:induction false} CapitalizeKeepsSpaces(s: string)
    ensures |Capitalize(s)| == |s|
    ensures forall i :: 0 <= i < |s| ==> (Capitalize(s)[i] == ' ' <==> s[i] == ' ')
  {
    CapitalizeAt(s);
  }

  /** Capitalizing twice is capitalizing once. */
  lemma {:induction false} CapitalizeIdempotent(s: string)
    ensures Capitalize(Capitalize(s)) == Capitalize(s)
  {
    var c := Capitalize(s);
    CapitalizeAt(s);
    CapitalizeAt(c);
    forall i | 0 <= i < |c|
      ensures Capitalize(c)[i] == c[i]
    {
      if i > 0 {
        assert c[i - 1] == ' ' <==> s[i - 1] == ' ';
      }
    }
  }

  /** `list.slice(0, 6)`: the first six entries, or all of them when there are fewer. */
  function Preview(list: seq<string>): (r: seq<string>)
    ensures |r| == Js.Min(PREVIEW_SIZE, |list|)
    ensures r == list[..|r|]
  {
    Js.Slice(list, 0, PREVIEW_SIZE)
  }

  /** What the footer's three taxonomy lists hold once the fetch effect has run: the
      previews of the three downloads, or the initial empty lists when any of the three
      requests failed (`Promise.all` rejects and the error is only logged). */
  function TaxonomyLists(
    bodyParts: Result<seq<string>, ApiError>,
    equipment: Result<seq<string>, ApiError>,
    targets: Result<seq<string>, ApiError>): (r: (seq<string>, seq<string>, seq<string>))
    ensures |r.0| <= PREVIEW_SIZE && |r.1| <= PREVIEW_SIZE && |r.2| <= PREVIEW_SIZE
    ensures bodyParts.Success? && equipment.Success? && targets.Success? ==>
      r.0 <= bodyParts.value && r.1 <= equipment.value && r.2 <= targets.value &&
      |r.0| == Js.Min(PREVIEW_SIZE, |bodyParts.value|) &&
      |r.1| == Js.Min(PREVIEW_SIZE, |equipment.value|) &&
      |r.2| == Js.Min(PREVIEW_SIZE, |targets.value|)
    ensures bodyParts.Failure? || equipment.Failure? || targets.Failure? ==> r == ([], [], [])
  {
    if bodyParts.Success? && equipment.Success? && targets.Success? then
      (Preview(bodyParts.value), Preview(equipment.value), Preview(targets.value))
    else
      ([], [], [])
  }
}
