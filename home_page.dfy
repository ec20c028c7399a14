/** `pages/HomePage.tsx`: the "popular exercises" strip is built from the first chest
    exercises and then the first waist exercises, and shows four at most. The two lists
    are what the two queries returned, or empty while they are still loading. */
module HomePage {
  import opened Exercises
  import Js

  const POPULAR_COUNT: nat := 4

  /** The `popularExercises` memo. */
  function PopularExercises(chest: seq<Exercise>, waist: seq<Exercise>): (r: seq<Exercise>)
    ensures |r| <= POPULAR_COUNT
    ensures |r| == Js.Min(POPULAR_COUNT, |chest| + |waist|)
    ensures forall k :: 0 <= k < |r| ==> r[k] in chest || r[k] in waist
  {
    Js.Slice(Js.Slice(chest, 0, POPULAR_COUNT) + Js.Slice(waist, 0, POPULAR_COUNT), 0, POPULAR_COUNT)
  }

  /** The strip is a run of leading chest exercises followed by a run of leading waist
      exercises: every entry comes from one of the two lists, and every chest entry comes
      before every waist entry. Waist exercises fill only the places chest left free. */
  lemma {:induction false} PopularIsChestThenWaist(chest: seq<Exercise>, waist: seq<Exercise>)
    ensures var r := PopularExercises(chest, waist);
      var c := Js.Min(POPULAR_COUNT, |chest|);
      |r| == Js.Min(POPULAR_COUNT, |chest| + |waist|) &&
      r == chest[..c] + waist[..|r| - c]
  {
    var r := PopularExercises(chest, waist);
    var c := Js.Min(POPULAR_COUNT, |chest|);
    var a := Js.Slice(chest, 0, POPULAR_COUNT);
    var b := Js.Slice(waist, 0, POPULAR_COUNT);
    assert a == chest[..c];
    assert |r| == Js.Min(POPULAR_COUNT, |a| + |b|);
    assert b == waist[..Js.Min(POPULAR_COUNT, |waist|)];
    assert r == (a + b)[..|r|];
    assert (a + b)[..|r|] == a + b[..|r| - c];
  }

  /** With four or more chest exercises the strip is exactly the first four of them and
      holds no waist exercise. */
  lemma {:induction false} EnoughChestMeansOnlyChest(chest: seq<Exercise>, waist: seq<Exercise>)
    requires |chest| >= POPULAR_COUNT
    ensures PopularExercises(chest, waist) == chest[..POPULAR_COUNT]
  {
    PopularIsChestThenWaist(chest, waist);
  }
}
