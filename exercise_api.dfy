/** The part of `services/exerciseApi.ts` that is computation rather than HTTP:
    `searchExercises` downloads the whole catalogue, keeps the exercises whose name,
    body part, target or equipment contains the query (case-insensitively), and returns
    one page `[offset, offset + limit)` of them. The download is a parameter here: its
    outcome, a list or the error axios threw, is passed in. */
module ExerciseApi {
  import opened Exercises
  import Js

  const DEFAULT_LIMIT: nat := 12
  const DEFAULT_OFFSET: nat := 0

  /** The filter callback, given the query already lower-cased. */
  predicate Matches(e: Exercise, lowerQuery: string)
  {
    Js.Includes(Js.Lower(e.name), lowerQuery) ||
    Js.Includes(Js.Lower(e.bodyPart), lowerQuery) ||
    Js.Includes(Js.Lower(e.target), lowerQuery) ||
    Js.Includes(Js.Lower(e.equipment), lowerQuery)
  }

  function Matcher(query: string): Exercise -> bool
  {
    e => Matches(e, Js.Lower(query))
  }

  /** `allExercises.filter(...)`: the catalogue restricted to the exercises the query hits. */
  function Matching(all: seq<Exercise>, query: string): (r: seq<Exercise>)
    ensures forall k :: 0 <= k < |r| ==> Matches(r[k], Js.Lower(query))
    ensures Js.IsSubsequence(r, all)
  {
    Js.Filter(all, Matcher(query))
  }

  /** `handleApiError`: the error is logged (not modelled) and thrown again unchanged. */
  function HandleApiError<T>(error: ApiError): (r: Result<T, ApiError>)
    ensures r.Failure? && r.error == error
  {
    Failure(error)
  }

  /** `searchExercises(query, limit, offset)` given the outcome of `getAllExercises()`. */
  function SearchExercises(all: Result<seq<Exercise>, ApiError>, query: string,
    limit: nat := DEFAULT_LIMIT, offset: nat := DEFAULT_OFFSET)
    : (r: Result<seq<Exercise>, ApiError>)
    ensures r.Failure? <==> all.Failure?
    ensures all.Failure? ==> r.error == all.error
    ensures all.Success? ==>
      var hits := Matching(all.value, query);
      && |r.value| <= limit
      && |r.value| == (if offset < |hits| then Js.Min(limit, |hits| - offset) else 0)
      && (offset <= |hits| ==> r.value == hits[offset..offset + |r.value|])
      && (forall k :: 0 <= k < |r.value| ==> Matches(r.value[k], Js.Lower(query)))
      && Js.IsSubsequence(r.value, all.value)
  {
    match all
    case Failure(e) => HandleApiError(e)
    case Success(exercises) =>
      PageOfMatches(exercises, query, limit, offset);
      Success(Js.Slice(Matching(exercises, query), offset, offset + limit))
  }

  /** The window `[offset, offset + limit)` of the matches: at most `limit` of them, in
      catalogue order, each one a match. */
  lemma {:induction false} PageOfMatches(all: seq<Exercise>, query: string, limit: nat, offset: nat)
    ensures var hits := Matching(all, query);
      var page := Js.Slice(hits, offset, offset + limit);
      && |page| <= limit
      && |page| == (if offset < |hits| then Js.Min(limit, |hits| - offset) else 0)
      && (offset <= |hits| ==> page == hits[offset..offset + |page|])
      && (forall k :: 0 <= k < |page| ==> Matches(page[k], Js.Lower(query)))
      && Js.IsSubsequence(page, all)
  {
    var hits := Matching(all, query);
    var page := Js.Slice(hits, offset, offset + limit);
    Js.SliceIsSubsequence(hits, offset, offset + limit);
    Js.SubsequenceTransitive(page, hits, all);
  }

  /** The filter is the substring test it reads as: the lower-cased query occurs at some
      position of one of the four lower-cased fields. */
  lemma {:induction false} MatchesIff(e: Exercise, query: string)
    ensures Matcher(query)(e) <==>
      var q := Js.Lower(query);
      (exists i :: Js.OccursAt(Js.Lower(e.name), q, i)) ||
      (exists i :: Js.OccursAt(Js.Lower(e.bodyPart), q, i)) ||
      (exists i :: Js.OccursAt(Js.Lower(e.target), q, i)) ||
      (exists i :: Js.OccursAt(Js.Lower(e.equipment), q, i))
  {
    var q := Js.Lower(query);
    Js.IncludesIff(Js.Lower(e.name), q);
    Js.IncludesIff(Js.Lower(e.bodyPart), q);
    Js.IncludesIff(Js.Lower(e.target), q);
    Js.IncludesIff(Js.Lower(e.equipment), q);
  }

  /** An empty query matches everything, so the search is a plain page of the catalogue. */
  lemma {:induction false} EmptyQueryPagesCatalogue(all: seq<Exercise>, limit: nat, offset: nat)
    ensures SearchExercises(Success(all), "", limit, offset) == Success(Js.Slice(all, offset, offset + limit))
  {
    forall k | 0 <= k < |all|
      ensures Matcher("")(all[k])
    {
      assert Js.Lower("") == "";
      Js.IncludesEmpty(Js.Lower(all[k].name));
    }
    Js.FilterKeepsAll(all, Matcher(""));
  }

  /** The first `n` pages of a search, at the offsets 0, limit, 2 * limit, ... */
  function SearchPages(all: seq<Exercise>, query: string, limit: nat, n: nat): (pages: seq<seq<Exercise>>)
    ensures |pages| == n
  {
    Js.Pages(Matching(all, query), limit, n)
  }

  /** Page `k` is what `searchExercises(query, limit, k * limit)` returns. */
  lemma {:induction false} SearchPageAt(all: seq<Exercise>, query: string, limit: nat, n: nat, k: nat)
    requires k < n
    ensures SearchPages(all, query, limit, n)[k] == SearchExercises(Success(all), query, limit, k * limit).value
  {
    PageAtOffset(all, query, limit, n, k, k * limit);
  }

  lemma {:induction false} PageAtOffset(all: seq<Exercise>, query: string, limit: nat, n: nat, k: nat, off: nat)
    requires k < n && off == k * limit
    ensures SearchPages(all, query, limit, n)[k] == SearchExercises(Success(all), query, limit, off).value
  {
    var hits := Matching(all, query);
    Js.PageAt(hits, limit, n, k);
    // a successful search is the slice of the matches it was asked for
    assert SearchExercises(Success(all), query, limit, off).value == Js.Slice(hits, off, off + limit);
    assert SearchPages(all, query, limit, n) == Js.Pages(hits, limit, n);
  }

  /** Consecutive searches tile the matching exercises: joined, the first `n` pages are
      exactly the first `n * limit` matches, with no gap and no repetition. */
  lemma {:induction false} SearchPagesTile(all: seq<Exercise>, query: string, limit: nat, n: nat)
    ensures Js.Flat(SearchPages(all, query, limit, n)) == Js.Slice(Matching(all, query), 0, n * limit)
  {
    Js.PagesTile(Matching(all, query), limit, n);
  }
}
