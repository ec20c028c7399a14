/** `components/exercise/ExerciseList.tsx`: the paged exercise list. The effective filters
    come from the props, else from the URL; one query is chosen from them, fetched twelve at
    a time with the offset as the page cursor; up to three further pages load on their own
    as the last card scrolls into view, after which a button loads more. The title is
    derived from the same filters, with a different priority. */
module ExerciseList {
  import opened Exercises
  import Js
  import ExerciseApi

  const PAGE_SIZE: nat := 12
  const MAX_AUTO_LOAD: nat := 3
  const DEFAULT_TITLE := "Egzersizler"
  const SEARCH_KEY := "search"

  // ---------------------------------------------------------------------------
  // Filters and the query they select

  /** `prop || url || ""` for one filter. */
  function EffectiveFilter(prop: string, url: string): (r: string)
    ensures r == "" <==> prop == "" && url == ""
    ensures r == prop || r == url
    ensures prop != "" ==> r == prop
  {
    Js.Or(Js.Or(prop, url), "")
  }

  /** The four values the list is filtered by ("" when unset). */
  datatype Filters = Filters(search: string, bodyPart: string, target: string, equipment: string)

  /** The filter props (absent ones are ""). */
  datatype Props = Props(bodyPart: string, equipment: string, target: string)

  function FiltersOf(props: Props, urlParams: map<string, string>, searchTerm: string): (f: Filters)
    ensures f.search == searchTerm
    ensures f.bodyPart == EffectiveFilter(props.bodyPart, Js.Lookup(urlParams, "bodyPart"))
    ensures f.equipment == EffectiveFilter(props.equipment, Js.Lookup(urlParams, "equipment"))
    ensures f.target == EffectiveFilter(props.target, Js.Lookup(urlParams, "target"))
  {
    Filters(
      searchTerm,
      EffectiveFilter(props.bodyPart, Js.Lookup(urlParams, "bodyPart")),
      EffectiveFilter(props.target, Js.Lookup(urlParams, "target")),
      EffectiveFilter(props.equipment, Js.Lookup(urlParams, "equipment")))
  }

  datatype Field = SearchField | BodyPartField | TargetField | EquipmentField

  function Value(f: Filters, field: Field): string
  {
    match field
    case SearchField => f.search
    case BodyPartField => f.bodyPart
    case TargetField => f.target
    case EquipmentField => f.equipment
  }

  /** The first field of `order` that is set: the reference definition of a priority. */
  function FirstSet(f: Filters, order: seq<Field>): (r: Option<Field>)
    ensures r.None? <==> forall k :: 0 <= k < |order| ==> Value(f, order[k]) == ""
    ensures r.Some? ==> exists k :: 0 <= k < |order| && order[k] == r.value && Value(f, r.value) != "" &&
                                 (forall j :: 0 <= j < k ==> Value(f, order[j]) == "")
  {
    if order == [] then None
    else if Value(f, order[0]) != "" then Some(order[0])
    else
      var r := FirstSet(f, order[1..]);
      assert r.Some? ==> exists k :: 1 <= k < |order| && order[k] == r.value && Value(f, r.value) != "" &&
                                    (forall j :: 0 <= j < k ==> Value(f, order[j]) == "") by {
        if r.Some? {
          var k' :| 0 <= k' < |order[1..]| && order[1..][k'] == r.value && Value(f, r.value) != "" &&
            forall j :: 0 <= j < k' ==> Value(f, order[1..][j]) == "";
          assert order[k' + 1] == r.value;
          assert forall j :: 1 <= j < k' + 1 ==> Value(f, order[j]) == Value(f, order[1..][j - 1]);
        }
      }
      r
  }

  /** `FirstSet` over four fields is the cascade of tests in that order. */
  lemma {:induction false} FirstSetOfFour(f: Filters, a: Field, b: Field, c: Field, d: Field)
    ensures FirstSet(f, [a, b, c, d]) ==
      if Value(f, a) != "" then Some(a)
      else if Value(f, b) != "" then Some(b)
      else if Value(f, c) != "" then Some(c)
      else if Value(f, d) != "" then Some(d)
      else None
  {
    assert [a, b, c, d][1..] == [b, c, d];
    assert [b, c, d][1..] == [c, d];
    assert [c, d][1..] == [d];
    assert [d][1..] == [];
    assert FirstSet(f, [d]) == if Value(f, d) != "" then Some(d) else FirstSet(f, []);
    assert FirstSet(f, [c, d]) == if Value(f, c) != "" then Some(c) else FirstSet(f, [d]);
    assert FirstSet(f, [b, c, d]) == if Value(f, b) != "" then Some(b) else FirstSet(f, [c, d]);
    assert FirstSet(f, [a, b, c, d]) == if Value(f, a) != "" then Some(a) else FirstSet(f, [b, c, d]);
  }

  const FETCH_ORDER: seq<Field> := [SearchField, BodyPartField, TargetField, EquipmentField]
  const TITLE_ORDER: seq<Field> := [SearchField, EquipmentField, TargetField, BodyPartField]

  /** Which API call serves the list. */
  datatype Query = Search(term: string) | ByBodyPart(bodyPart: string) | ByTarget(target: string)
                 | ByEquipment(equipment: string) | Unfiltered

  function QueryOn(field: Field, value: string): Query
  {
    match field
    case SearchField => Search(value)
    case BodyPartField => ByBodyPart(value)
    case TargetField => ByTarget(value)
    case EquipmentField => ByEquipment(value)
  }

  datatype Request = Request(query: Query, limit: nat, offset: nat)

  /** `fetchExercises({ pageParam })`: the request it makes. */
  function FetchExercises(f: Filters, pageParam: nat): (r: Request)
    ensures r.limit == PAGE_SIZE && r.offset == pageParam
    ensures FirstSet(f, FETCH_ORDER).None? ==> r.query == Unfiltered
    ensures FirstSet(f, FETCH_ORDER).Some? ==>
      var field := FirstSet(f, FETCH_ORDER).value;
      r.query == QueryOn(field, Value(f, field))
  {
    var query :=
      if f.search != "" then Search(f.search)
      else if f.bodyPart != "" then ByBodyPart(f.bodyPart)
      else if f.target != "" then ByTarget(f.target)
      else if f.equipment != "" then ByEquipment(f.equipment)
      else Unfiltered;
    FirstSetOfFour(f, SearchField, BodyPartField, TargetField, EquipmentField);
    Request(query, PAGE_SIZE, pageParam)
  }

  // ---------------------------------------------------------------------------
  // Title

  /** The title for a filter that is set. */
  function TitleFor(field: Field, value: string): (r: string)
    ensures |value| + 1 < |r|
    ensures field == SearchField ==> r[0] == '"' && r[1..|value| + 1] == value && r[|value| + 1] == '"'
    ensures field != SearchField ==> r[..|value|] == Js.CapitalizeFirst(value)
  {
    match field
    case SearchField => "\"" + value + "\" i√ßin Sonu√ßlar"
    case BodyPartField => Js.CapitalizeFirst(value) + " Egzersizleri"
    case TargetField => Js.CapitalizeFirst(value) + " Egzersizleri"
    case EquipmentField => Js.CapitalizeFirst(value) + " ile Egzersizler"
  }

  /** `generateTitle()`: a title prop other than the default wins; otherwise each set
      filter overwrites the title in turn (body part, target, equipment, search). */
  function GenerateTitle(title: string, f: Filters): (r: string)
    ensures title != DEFAULT_TITLE ==> r == title
    ensures title == DEFAULT_TITLE && FirstSet(f, TITLE_ORDER).None? ==> r == DEFAULT_TITLE
    ensures title == DEFAULT_TITLE && FirstSet(f, TITLE_ORDER).Some? ==>
      var field := FirstSet(f, TITLE_ORDER).value;
      r == TitleFor(field, Value(f, field))
  {
    if title != DEFAULT_TITLE then title
    else
      var t0 := DEFAULT_TITLE;
      var t1 := if f.bodyPart != "" then Js.CapitalizeFirst(f.bodyPart) + " Egzersizleri" else t0;
      var t2 := if f.target != "" then Js.CapitalizeFirst(f.target) + " Egzersizleri" else t1;
      var t3 := if f.equipment != "" then Js.CapitalizeFirst(f.equipment) + " ile Egzersizler" else t2;
      var t4 := if f.search != "" then "\"" + f.search + "\" i√ßin Sonu√ßlar" else t3;
      FirstSetOfFour(f, SearchField, EquipmentField, TargetField, BodyPartField);
      t4
  }

  /** The title and the query can name different filters: with no search term and both
      a body part and an equipment set, the list shows the body part's exercises under
      the equipment's title. */
  lemma {:induction false} TitleAndQueryDisagree(f: Filters)
    requires f.search == "" && f.bodyPart != "" && f.equipment != ""
    ensures FetchExercises(f, 0).query == ByBodyPart(f.bodyPart)
    ensures GenerateTitle(DEFAULT_TITLE, f) == TitleFor(EquipmentField, f.equipment)
  {
    FirstSetOfFour(f, SearchField, BodyPartField, TargetField, EquipmentField);
    FirstSetOfFour(f, SearchField, EquipmentField, TargetField, BodyPartField);
  }

  /** A search term wins in both orders, so title and query agree on it. */
  lemma {:induction false} SearchWinsBoth(f: Filters)
    requires f.search != ""
    ensures FetchExercises(f, 0).query == Search(f.search)
    ensures GenerateTitle(DEFAULT_TITLE, f) == TitleFor(SearchField, f.search)
  {
    FirstSetOfFour(f, SearchField, BodyPartField, TargetField, EquipmentField);
    FirstSetOfFour(f, SearchField, EquipmentField, TargetField, BodyPartField);
  }

  // ---------------------------------------------------------------------------
  // Pages

  /** `getNextPageParam(lastPage, allPages)`: no next page after an empty page, otherwise
      the offset just past the pages loaded so far. */
  function NextPageParam(pages: seq<seq<Exercise>>): (r: Option<nat>)
    requires |pages| > 0
    ensures r.None? <==> pages[|pages| - 1] == []
    ensures r.Some? ==> r.value == |pages| * PAGE_SIZE
  {
    if |pages[|pages| - 1]| == 0 then None else Some(|pages| * PAGE_SIZE)
  }

  /** `allExercises`: the external list whenever one is given (an empty array is truthy),
      otherwise the loaded pages in order, or nothing before the first page arrives. */
  function AllExercises(external: Option<seq<Exercise>>, data: Option<seq<seq<Exercise>>>): (r: seq<Exercise>)
    ensures external.Some? ==> r == external.value
    ensures external.None? && data.None? ==> r == []
    ensures external.None? && data.Some? ==> r == Js.Flat(data.value)
  {
    if external.Some? then external.value
    else if data.Some? then Js.Flat(data.value)
    else []
  }

  /** The pages a search accumulates when each page is fetched at the offset the cursor
      gave after the previous one. */
  function SearchPagesByCursor(all: seq<Exercise>, term: string, n: nat): (pages: seq<seq<Exercise>>)
    ensures |pages| == n
    ensures forall k :: 0 <= k < n ==>
      pages[k] == ExerciseApi.SearchExercises(Success(all), term, PAGE_SIZE, k * PAGE_SIZE).value
    ensures forall k :: 0 < k < n ==> pages[k - 1] != [] ==>
      NextPageParam(pages[..k]) == Some(k * PAGE_SIZE)
  {
    var pages := ExerciseApi.SearchPages(all, term, PAGE_SIZE, n);
    assert forall k :: 0 <= k < n ==>
      pages[k] == ExerciseApi.SearchExercises(Success(all), term, PAGE_SIZE, k * PAGE_SIZE).value by {
      forall k | 0 <= k < n
        ensures pages[k] == ExerciseApi.SearchExercises(Success(all), term, PAGE_SIZE, k * PAGE_SIZE).value
      {
        ExerciseApi.SearchPageAt(all, term, PAGE_SIZE, n, k);
      }
    }
    pages
  }

  /** Following the cursor, the list shows exactly the first `n * 12` matches of the
      search, in catalogue order, with no gap and no repetition. */
  lemma {:induction false} CursorShowsPrefixOfMatches(all: seq<Exercise>, term: string, n: nat)
    ensures AllExercises(None, Some(SearchPagesByCursor(all, term, n))) ==
      Js.Slice(ExerciseApi.Matching(all, term), 0, n * PAGE_SIZE)
  {
    ExerciseApi.SearchPagesTile(all, term, PAGE_SIZE, n);
  }

  /** A short last page does not stop the cursor: one more request is made, at the
      offset past the last match, and it comes back empty. */
  lemma {:induction false} ShortPageCostsOneEmptyRequest(all: seq<Exercise>, term: string, n: nat)
    requires n > 0
    requires var pages := SearchPagesByCursor(all, term, n);
      0 < |pages[n - 1]| < PAGE_SIZE
    ensures NextPageParam(SearchPagesByCursor(all, term, n)) == Some(n * PAGE_SIZE)
    ensures ExerciseApi.SearchExercises(Success(all), term, PAGE_SIZE, n * PAGE_SIZE) == Success([])
  {
    var pages := SearchPagesByCursor(all, term, n);
    var hits := ExerciseApi.Matching(all, term);
    ExerciseApi.SearchPageAt(all, term, PAGE_SIZE, n, n - 1);
    assert (n - 1) * PAGE_SIZE < |hits|;
    assert |hits| - (n - 1) * PAGE_SIZE < PAGE_SIZE;
    assert n * PAGE_SIZE == (n - 1) * PAGE_SIZE + PAGE_SIZE;
  }

  // ---------------------------------------------------------------------------
  // Loading more

  /** The gates of `lastExerciseElementRef` and of its observer callback together: a
      next page exists, nothing is in flight, loading is not paused and fewer than three
      pages were auto-loaded. */
  predicate AutoLoadAllowed(hasNext: bool, isFetchingNext: bool, paused: bool, autoLoaded: nat)
  {
    hasNext && !isFetchingNext && !paused && autoLoaded < MAX_AUTO_LOAD
  }

  /** The condition under which the "load more" button is rendered. */
  predicate ShowLoadMoreButton(isLoading: bool, isFetchingNext: bool, hasNext: bool, autoLoaded: nat)
  {
    !isLoading && !isFetchingNext && hasNext && autoLoaded >= MAX_AUTO_LOAD
  }

  /** The condition under which `handleLoadMore` fetches. */
  predicate LoadMoreFetches(hasNext: bool, isFetchingNext: bool)
  {
    hasNext && !isFetchingNext
  }

  /** Once the list has loaded, a remaining page can always be reached while loading is
      not paused: either the next scroll auto-loads it or the button is shown, and never
      both; a click on the button does fetch. */
  lemma {:induction false} NoDeadEnd(isFetchingNext: bool, hasNext: bool, autoLoaded: nat)
    requires hasNext && !isFetchingNext
    ensures AutoLoadAllowed(hasNext, isFetchingNext, false, autoLoaded) !=
      ShowLoadMoreButton(false, isFetchingNext, hasNext, autoLoaded)
    ensures ShowLoadMoreButton(false, isFetchingNext, hasNext, autoLoaded) ==> LoadMoreFetches(hasNext, isFetchingNext)
  {
  }

  /** The state `ExerciseList` keeps between renders. */
  class ListView {
    var autoLoadedPages: nat
    var pauseAutoLoading: bool
    var initialLoading: bool
    var searchTerm: string
    var locationKey: string
    /** The URL's query parameters, as `useSearchParams` reads them. */
    var urlParams: map<string, string>

    /** The auto-load counter never passes the cap. */
    predicate Valid()
      reads this
    {
      autoLoadedPages <= MAX_AUTO_LOAD
    }

    /** The filters in effect for the given props. */
    function CurrentFilters(props: Props): (f: Filters)
      reads this
      ensures f.search == searchTerm
    {
      FiltersOf(props, urlParams, searchTerm)
    }

    /** The title shown. */
    function DisplayTitle(title: string, props: Props): (r: string)
      reads this
      ensures title != DEFAULT_TITLE ==> r == title
      ensures title == DEFAULT_TITLE && searchTerm != "" ==> r == TitleFor(SearchField, searchTerm)
    {
      var f := CurrentFilters(props);
      if title == DEFAULT_TITLE && searchTerm != "" then
        SearchWinsBoth(f);
        GenerateTitle(title, f)
      else
        GenerateTitle(title, f)
    }

    /** The first render, at the URL `locationSearch` with parameters `params`. */
    constructor (locationSearch: string, params: map<string, string>)
      ensures Valid()
      ensures autoLoadedPages == 0 && !pauseAutoLoading && initialLoading
      ensures searchTerm == Js.Lookup(params, SEARCH_KEY)
      ensures locationKey == locationSearch && urlParams == params
    {
      autoLoadedPages := 0;
      pauseAutoLoading := false;
      initialLoading := true;
      searchTerm := Js.Or(Js.Lookup(params, SEARCH_KEY), "");
      locationKey := locationSearch;
      urlParams := params;
    }

    /** The router moved to `locationSearch` with parameters `params`, and the
        location effect ran: a new query string resets the paging and re-reads the search
        term; the same one changes nothing else. */
    method OnLocationChange(locationSearch: string, params: map<string, string>)
      requires Valid()
      modifies this
      ensures Valid()
      ensures urlParams == params && locationKey == locationSearch
      ensures locationSearch != old(locationKey) ==>
        && searchTerm == Js.Lookup(params, SEARCH_KEY)
        && initialLoading && autoLoadedPages == 0 && !pauseAutoLoading
      ensures locationSearch == old(locationKey) ==>
        && searchTerm == old(searchTerm) && initialLoading == old(initialLoading)
        && autoLoadedPages == old(autoLoadedPages) && pauseAutoLoading == old(pauseAutoLoading)
    {
      urlParams := params;
      if locationKey != locationSearch {
        locationKey := locationSearch;
        searchTerm := Js.Or(Js.Lookup(params, SEARCH_KEY), "");
        initialLoading := true;
        autoLoadedPages := 0;
        pauseAutoLoading := false;
      }
    }

    /** The effect that ends the initial loading state once a query has settled. */
    method OnQuerySettled(isSuccess: bool, isFetching: bool)
      modifies this
      ensures initialLoading == (old(initialLoading) && !(isSuccess && !isFetching))
      ensures autoLoadedPages == old(autoLoadedPages) && pauseAutoLoading == old(pauseAutoLoading)
      ensures searchTerm == old(searchTerm) && locationKey == old(locationKey) && urlParams == old(urlParams)
    {
      if isSuccess && !isFetching && initialLoading {
        initialLoading := false;
      }
    }

    /** The last card is rendered and its observer reports `intersecting`: when the gates
        allow, the next page is fetched and, once it arrives, the counter goes up by one. */
    method AutoLoad(hasNext: bool, isFetchingNext: bool, intersecting: bool) returns (fetched: bool)
      requires Valid()
      modifies this
      ensures Valid()
      ensures fetched <==> intersecting && AutoLoadAllowed(hasNext, isFetchingNext, old(pauseAutoLoading), old(autoLoadedPages))
      ensures autoLoadedPages == old(autoLoadedPages) + (if fetched then 1 else 0)
      ensures pauseAutoLoading == old(pauseAutoLoading) && initialLoading == old(initialLoading)
      ensures searchTerm == old(searchTerm) && locationKey == old(locationKey) && urlParams == old(urlParams)
    {
      fetched := false;
      if isFetchingNext || pauseAutoLoading || autoLoadedPages >= MAX_AUTO_LOAD {
        return;
      }
      if hasNext && intersecting {
        fetched := true;
        autoLoadedPages := autoLoadedPages + 1;
      }
    }

    /** `handleLoadMore`: whether it fetches; the counter is not touched. */
    method HandleLoadMore(hasNext: bool, isFetchingNext: bool) returns (fetched: bool)
      ensures fetched <==> LoadMoreFetches(hasNext, isFetchingNext)
    {
      fetched := hasNext && !isFetchingNext;
    }

    /** `handleSearch(term)`: the term becomes the search state at once, and the URL
        carries exactly that term, or nothing when the term is blank. */
    method HandleSearch(term: string)
      modifies this
      ensures searchTerm == term
      ensures Js.Trim(term) != "" ==> urlParams == map[SEARCH_KEY := term]
      ensures Js.Trim(term) == "" ==> urlParams == map[]
      ensures autoLoadedPages == old(autoLoadedPages) && pauseAutoLoading == old(pauseAutoLoading)
      ensures initialLoading == old(initialLoading) && locationKey == old(locationKey)
    {
      searchTerm := term;
      if Js.Trim(term) != "" {
        urlParams := map[SEARCH_KEY := term];
      } else {
        urlParams := map[];
      }
    }
  }

  /** A search then a navigation to the URL it wrote: a non-blank term survives the
      location effect; a blank one is replaced by "". */
  method SearchThenNavigate(view: ListView, term: string, newLocation: string)
    requires view.Valid() && newLocation != view.locationKey
    modifies view
    ensures view.Valid()
    ensures Js.Trim(term) != "" ==> view.searchTerm == term
    ensures Js.Trim(term) == "" ==> view.searchTerm == ""
    ensures view.autoLoadedPages == 0
  {
    view.HandleSearch(term);
    view.OnLocationChange(newLocation, view.urlParams);
  }
}
