# Exercise guide: favorites, detail rules, list paging and search

This project is a Dafny model of the sequential logic inside the React front end
`egzersiz-rehberi-uygulamasi`, an exercise catalogue over a third-party REST API. The
model covers six pieces. Each has its own module, and the properties the code promises
are proved about the model.

- `Favorites` (`src/hooks/useFavorites.ts`) models the favorites store that every
  component calling `useFavorites()` shares.
  - The module-level shared list and the list of registered setters are the fields of
    class `Store`. Browser storage is a third field.
  - Each mounted component is a `Binding` object holding its own copy of the list.
  - `notifyAllComponents` is a loop over the setters.
  - Add, remove and clear are methods that broadcast through it. The subscribe effect
    pushes a setter and the cleanup splices it out.
  - The first-load initializer, including the migration from the legacy `favorites`
    key, is a function over storage.
  - The persist effect writes after each change of a component's list.
- `ExerciseDetail` (`src/pages/ExerciseDetailPage.tsx`) models the pure rules of the
  detail page: the difficulty classifier, the starting-position and movement-text
  lookups, the tip list, the target-muscle list, the related-exercise selection and the
  favorite toggle.
- `ExerciseList` (`src/components/exercise/ExerciseList.tsx`) models the list view.
  - Its pure parts are functions: filter derivation, the fetch dispatch, the next-page
    cursor, the flattened list and the title.
  - The state that effects and handlers update is class `ListView`: the auto-load
    counter, the pause flag, the initial-loading flag, the search term and the URL.
- `ExerciseApi` (`src/services/exerciseApi.ts`) models the client-side search, a
  case-insensitive substring filter over four fields followed by a slice, and the
  rethrow in `handleApiError`.
- `Footer` (`src/components/layout/Footer.tsx`) models `capitalize` (split on spaces,
  upper-case each word's first character, join) and the six-entry previews.
- `HomePage` (`src/pages/HomePage.tsx`) models the four popular exercises.

Two modules are shared by the others:

- `Exercises` defines the `Exercise` record and the `Option` and `Result` wrappers.
  A rejected promise is a `Failure`.
- `Js` models the JavaScript built-ins the code relies on, with their edge cases:
  - `slice` clamps its bounds;
  - `filter` keeps order;
  - `flat` and `indexOf`;
  - `trim`, with the whitespace set of the ECMAScript standard (ECMA-262 sections 12.2
    and 12.3: tab, vertical tab, form feed, space, no-break space, the byte order mark,
    the Unicode space separators and the line terminators);
  - `includes` with an empty needle;
  - `charAt(0).toUpperCase() + slice(1)`;
  - `||` over a missing table entry.

A missing prop or URL parameter (`undefined` or `null`) is modelled as the empty string,
because every use in the code goes through `||` or a truthiness test, which treat the
two alike.

Where the code and the written design of the application disagree, the model follows
the code:

- The design says a failed first load returns an empty list. The code returns the
  shared in-memory list (`useFavorites.ts:36`). That list starts empty. Every broadcast
  (add, remove, clear) replaces it, and so does every load of a stored array under
  `exercise_favorites`; a load through the legacy migration branch leaves it as it was.
  It is therefore empty only while no broadcast or such load has given it entries, for
  instance after `clearFavorites` or after loading a stored `[]`.
- The design says favorites are persisted after every mutation. The code writes from
  each mounted component's effect, so a broadcast with no component mounted writes
  nothing.

## Model

Source paths are under `egzersiz-rehberi-uygulamasi/src/`; the table gives them in full.

| member | source | states |
|---|---|---|
| Favorites.SomeHasId | egzersiz-rehberi-uygulamasi/src/hooks/useFavorites.ts:64 | `favorites.some(fav => fav.id === id)` is true exactly when some entry has that id |
| Favorites.IsFavorite | egzersiz-rehberi-uygulamasi/src/hooks/useFavorites.ts:83-86 | true iff the id is non-empty and some entry of the binding's list has it |
| Favorites.Added | egzersiz-rehberi-uygulamasi/src/hooks/useFavorites.ts:58-71 | no change iff the id is empty or already in the binding's own list; otherwise the list grows by one, the exercise is appended at the end, earlier entries are unchanged, the exercise is then a favorite, and unique ids stay unique |
| Favorites.Removed | egzersiz-rehberi-uygulamasi/src/hooks/useFavorites.ts:73-81 | no change iff the id is empty; otherwise no entry keeps the id, the result is an in-order subsequence of the list, every entry with another id keeps its number of copies, an absent id gives an equal list, and unique ids stay unique |
| Favorites.FilterKeepsUniqueIds | egzersiz-rehberi-uygulamasi/src/hooks/useFavorites.ts:79 | filtering a list with unique ids leaves a list with unique ids |
| Favorites.RemoveUndoesAdd | egzersiz-rehberi-uygulamasi/src/hooks/useFavorites.ts:58-81 | removing the id of an exercise just added gives back the list before the add |
| Favorites.InitialLoadAsWritten | egzersiz-rehberi-uygulamasi/src/hooks/useFavorites.ts:15-37 | the initializer as written: a migration copy that throws leaves storage unchanged and returns the shared list; otherwise migration copies the legacy value to `exercise_favorites`, deletes `favorites` and leaves the shared list unassigned, returning the legacy list, the shared list for an unparsable value, and a non-array exactly when the legacy value parses to one; otherwise a stored array becomes both the shared list and the result, and anything else returns the shared list with storage unchanged |
| Favorites.LegacyNonArrayBecomesState | egzersiz-rehberi-uygulamasi/src/hooks/useFavorites.ts:19-24 | a legacy value that parses to a non-array becomes the component's initial state |
| Favorites.InitialLoad | egzersiz-rehberi-uygulamasi/src/hooks/useFavorites.ts:15-37 | a migration copy that throws leaves storage unchanged and returns the shared list; a successful migration copies the legacy value to `exercise_favorites`, deletes `favorites`, keeps the shared list and returns the legacy list (or the shared list when it is not an array); otherwise a stored array becomes both the shared list and the result; otherwise the shared list is returned and storage is unchanged; it agrees with the as-written initializer wherever that one yields an array |
| Favorites.MigrationHappensOnce | egzersiz-rehberi-uygulamasi/src/hooks/useFavorites.ts:19-24 | after a successful migration the next load does not migrate again; after a failed copy the next load migrates again |
| Favorites.Persisted | egzersiz-rehberi-uygulamasi/src/hooks/useFavorites.ts:50-56 | a successful write stores the list under `exercise_favorites`; every other key is kept, no key is added, and a failed write leaves storage unchanged |
| Favorites.LoadAfterSave | egzersiz-rehberi-uygulamasi/src/hooks/useFavorites.ts:15-56 | a load after a successful write returns the written list and makes it the shared list, whether or not a migration copy would succeed |
| Favorites.Binding.constructor | egzersiz-rehberi-uygulamasi/src/hooks/useFavorites.ts:15 | a component's state starts as the initializer's value |
| Favorites.Store.constructor | egzersiz-rehberi-uygulamasi/src/hooks/useFavorites.ts:6-7 | the module starts with an empty shared list and no setters |
| Favorites.Store.NotifyAllComponents | egzersiz-rehberi-uygulamasi/src/hooks/useFavorites.ts:9-12 | the shared list becomes the new value, every registered setter is called once, in registration order, with that value, and the setter list and storage are unchanged |
| Favorites.Store.Commit | egzersiz-rehberi-uygulamasi/src/hooks/useFavorites.ts:9-12 | a broadcast followed by the mounted components' persist effect |
| Favorites.Store.AddFavorite | egzersiz-rehberi-uygulamasi/src/hooks/useFavorites.ts:58-71 | an empty or duplicate id changes nothing and calls no setter; otherwise the appended list is broadcast and persisted |
| Favorites.Store.RemoveFavorite | egzersiz-rehberi-uygulamasi/src/hooks/useFavorites.ts:73-81 | an empty id changes nothing and calls no setter; otherwise the filtered list is broadcast, even when the id was absent |
| Favorites.Store.ClearFavorites | egzersiz-rehberi-uygulamasi/src/hooks/useFavorites.ts:88-90 | the empty list is broadcast and persisted |
| Favorites.Store.Mount | egzersiz-rehberi-uygulamasi/src/hooks/useFavorites.ts:15-56 | a new binding whose state is the initializer's result, appended to the setters; storage is migrated (unless the copy throws) and then written by the persist effect |
| Favorites.Store.Unmount | egzersiz-rehberi-uygulamasi/src/hooks/useFavorites.ts:42-47 | the setter list becomes the list with the setter's first occurrence spliced out |
| Favorites.Unsubscribed | egzersiz-rehberi-uygulamasi/src/hooks/useFavorites.ts:43-46 | an absent setter leaves the list as it is; otherwise its first occurrence is spliced out and the others keep their order |
| ExerciseDetail.GetDifficulty | egzersiz-rehberi-uygulamasi/src/pages/ExerciseDetailPage.tsx:8-15 | expert iff delts, barbell or upper arms; intermediate iff not expert and abs, cable or back; beginner iff neither |
| ExerciseDetail.DifficultyIsHardestCalledFor | egzersiz-rehberi-uygulamasi/src/pages/ExerciseDetailPage.tsx:8-15 | the level returned is one the exercise's fields call for, and no level they call for is harder |
| ExerciseDetail.GetStartingPosition | egzersiz-rehberi-uygulamasi/src/pages/ExerciseDetailPage.tsx:17-33 | the table entry for the body part when there is one, otherwise the default sentence; never empty |
| ExerciseDetail.GetMovementDescription | egzersiz-rehberi-uygulamasi/src/pages/ExerciseDetailPage.tsx:35-59 | the body-part entry if present, else the equipment entry if present, else the template naming the exercise and its target |
| ExerciseDetail.BodyPartMovementsHaveNoBlankEntry | egzersiz-rehberi-uygulamasi/src/pages/ExerciseDetailPage.tsx:36-46 | no body-part movement text is empty, so `||` never falls through a present entry |
| ExerciseDetail.EquipmentMovementsHaveNoBlankEntry | egzersiz-rehberi-uygulamasi/src/pages/ExerciseDetailPage.tsx:48-54 | no equipment movement text is empty |
| ExerciseDetail.ChestBarbellWordingNeverShown | egzersiz-rehberi-uygulamasi/src/pages/ExerciseDetailPage.tsx:40-58 | the chest-specific barbell wording is never returned, because chest is in the body-part table |
| ExerciseDetail.GetTips | egzersiz-rehberi-uygulamasi/src/pages/ExerciseDetailPage.tsx:61-114 | the three standard tips first, then the two body-part tips if any, then the two equipment tips if any; the length is 3, 5 or 7 |
| ExerciseDetail.GetTargetMuscles | egzersiz-rehberi-uygulamasi/src/pages/ExerciseDetailPage.tsx:116-142 | no table entry gives `[target, 'İlgili destek kasları']`; a listed muscle containing the target case-insensitively gives the table list; otherwise the capitalised target followed by the first at most three table entries; length 2 to 4 |
| ExerciseDetail.EmptyTargetKeepsTable | egzersiz-rehberi-uygulamasi/src/pages/ExerciseDetailPage.tsx:137-138 | an empty target is contained in every muscle name, so the table list is returned |
| ExerciseDetail.RelatedExercises | egzersiz-rehberi-uygulamasi/src/pages/ExerciseDetailPage.tsx:163-172 | nothing when the target is empty (the query is disabled); otherwise the first four exercises whose id differs from the current one, in source order |
| ExerciseDetail.LookupList | egzersiz-rehberi-uygulamasi/src/pages/ExerciseDetailPage.tsx:110-111 | `table[key] || []`: the entry when the key is present, else the empty list |
| ExerciseDetail.Toggled | egzersiz-rehberi-uygulamasi/src/pages/ExerciseDetailPage.tsx:176-184 | nothing happens iff the id is empty; otherwise the toggle flips `isFavorite`, adding appends the exercise, and removing keeps an in-order subsequence with every entry of another id kept in full |
| ExerciseDetail.ToggleTwiceRestores | egzersiz-rehberi-uygulamasi/src/pages/ExerciseDetailPage.tsx:176-184 | toggling an absent exercise twice gives back the original list |
| ExerciseDetail.HandleToggleFavorite | egzersiz-rehberi-uygulamasi/src/pages/ExerciseDetailPage.tsx:176-184 | no exercise loaded changes nothing; a favorite is removed and any other exercise is added, through the store |
| ExerciseList.EffectiveFilter | egzersiz-rehberi-uygulamasi/src/components/exercise/ExerciseList.tsx:43-45 | the prop when non-empty, else the URL parameter; empty iff both are |
| ExerciseList.FiltersOf | egzersiz-rehberi-uygulamasi/src/components/exercise/ExerciseList.tsx:36-46 | body part, equipment and target each come from the prop or the URL; the search is the search-term state |
| ExerciseList.FirstSet | egzersiz-rehberi-uygulamasi/src/components/exercise/ExerciseList.tsx:75-89 | none iff every field in the order is empty; otherwise a set field with every earlier field empty |
| ExerciseList.FetchExercises | egzersiz-rehberi-uygulamasi/src/components/exercise/ExerciseList.tsx:75-89 | the query is on the first set field in the order search, body part, target, equipment, or unfiltered; page size 12; offset the page parameter |
| ExerciseList.TitleFor | egzersiz-rehberi-uygulamasi/src/components/exercise/ExerciseList.tsx:184-198 | a search title is the term in double quotes followed by more text; any other title starts with the capitalised value |
| ExerciseList.GenerateTitle | egzersiz-rehberi-uygulamasi/src/components/exercise/ExerciseList.tsx:179-201 | a non-default title is kept; otherwise the title for the first set field in the order search, equipment, target, body part, or the default |
| ExerciseList.TitleAndQueryDisagree | egzersiz-rehberi-uygulamasi/src/components/exercise/ExerciseList.tsx:75-89 | with body part and equipment both set and no search, the list is fetched by body part but titled by equipment |
| ExerciseList.SearchWinsBoth | egzersiz-rehberi-uygulamasi/src/components/exercise/ExerciseList.tsx:179-201 | a search term decides both the query and the title |
| ExerciseList.NextPageParam | egzersiz-rehberi-uygulamasi/src/components/exercise/ExerciseList.tsx:105-107 | no next page iff the last page is empty; otherwise pages loaded times 12 |
| ExerciseList.AllExercises | egzersiz-rehberi-uygulamasi/src/components/exercise/ExerciseList.tsx:124-127 | the external list when given, otherwise the pages concatenated in order, or empty |
| ExerciseList.SearchPagesByCursor | egzersiz-rehberi-uygulamasi/src/components/exercise/ExerciseList.tsx:75-107 | following the cursor, page k is the search at offset 12k, and after a non-empty page the cursor asks for exactly that offset |
| ExerciseList.CursorShowsPrefixOfMatches | egzersiz-rehberi-uygulamasi/src/components/exercise/ExerciseList.tsx:105-127 | n pages shown by cursor are exactly the first 12n matches, without gap or overlap |
| ExerciseList.ShortPageCostsOneEmptyRequest | egzersiz-rehberi-uygulamasi/src/components/exercise/ExerciseList.tsx:105-107 | after a short non-empty page the cursor still asks for one more page, and that page is empty |
| ExerciseList.NoDeadEnd | egzersiz-rehberi-uygulamasi/src/components/exercise/ExerciseList.tsx:131-167 | with a next page and no fetch in flight, exactly one of auto-load and the button is available, and the button fetches |
| ExerciseList.ListView.CurrentFilters | egzersiz-rehberi-uygulamasi/src/components/exercise/ExerciseList.tsx:43-46 | the search filter is the search-term state |
| ExerciseList.ListView.DisplayTitle | egzersiz-rehberi-uygulamasi/src/components/exercise/ExerciseList.tsx:179-203 | the rendered heading: a non-default title prop as given; with the default title and a search term, the quoted search title |
| ExerciseList.ListView.constructor | egzersiz-rehberi-uygulamasi/src/components/exercise/ExerciseList.tsx:41-51 | the counter is 0, not paused, initially loading, and the search term is read from the URL |
| ExerciseList.ListView.OnLocationChange | egzersiz-rehberi-uygulamasi/src/components/exercise/ExerciseList.tsx:58-73 | a new query string resets the counter to 0, unpauses, sets initial loading and re-reads the search term; the same query string changes nothing |
| ExerciseList.ListView.OnQuerySettled | egzersiz-rehberi-uygulamasi/src/components/exercise/ExerciseList.tsx:112-116 | initial loading ends on a successful, settled query and on nothing else |
| ExerciseList.ListView.AutoLoad | egzersiz-rehberi-uygulamasi/src/components/exercise/ExerciseList.tsx:129-161 | a fetch happens iff the sentinel intersects, a next page exists, none is in flight, loading is not paused and fewer than 3 auto-loads happened; each fetch adds exactly 1, so the counter stays at most 3 |
| ExerciseList.ListView.HandleLoadMore | egzersiz-rehberi-uygulamasi/src/components/exercise/ExerciseList.tsx:163-167 | fetches iff a next page exists and none is in flight |
| ExerciseList.ListView.HandleSearch | egzersiz-rehberi-uygulamasi/src/components/exercise/ExerciseList.tsx:169-177 | the term is stored; the URL parameters become exactly `{search: term}` when the trimmed term is non-empty, else empty |
| ExerciseList.SearchThenNavigate | egzersiz-rehberi-uygulamasi/src/components/exercise/ExerciseList.tsx:58-73 | a search followed by the navigation it causes keeps the term (or clears a blank one) and restarts auto-loading at 0 |
| ExerciseApi.Matching | egzersiz-rehberi-uygulamasi/src/services/exerciseApi.ts:124-132 | every kept exercise matches the lower-cased query in one of its four lower-cased fields (`Matches`), in catalogue order; `MatchesIff` characterises `Matches` |
| ExerciseApi.HandleApiError | egzersiz-rehberi-uygulamasi/src/services/exerciseApi.ts:12-15 | the error is rethrown unchanged, never turned into a value |
| ExerciseApi.SearchExercises | egzersiz-rehberi-uygulamasi/src/services/exerciseApi.ts:122-137 | fails iff loading the catalogue fails, with the same error; otherwise the matches at positions offset to offset+limit, at most `limit` of them, each matching the query, in catalogue order |
| ExerciseApi.MatchesIff | egzersiz-rehberi-uygulamasi/src/services/exerciseApi.ts:127-132 | an exercise matches iff the lower-cased query occurs in the lower-cased name, body part, target or equipment |
| ExerciseApi.EmptyQueryPagesCatalogue | egzersiz-rehberi-uygulamasi/src/services/exerciseApi.ts:125-134 | an empty query gives the plain slice of the catalogue |
| ExerciseApi.SearchPages | egzersiz-rehberi-uygulamasi/src/services/exerciseApi.ts:122 | n consecutive pages of the search |
| ExerciseApi.SearchPageAt | egzersiz-rehberi-uygulamasi/src/services/exerciseApi.ts:134 | page k of the consecutive pages is the search at offset k times the limit |
| ExerciseApi.SearchPagesTile | egzersiz-rehberi-uygulamasi/src/services/exerciseApi.ts:134 | calls at offsets 0, limit, 2·limit, … tile the matches with no gap or overlap |
| Footer.Split | egzersiz-rehberi-uygulamasi/src/components/layout/Footer.tsx:42 | `split(' ')` always yields at least one word |
| Footer.Join | egzersiz-rehberi-uygulamasi/src/components/layout/Footer.tsx:44 | `join(' ')` of no words is empty; otherwise it starts with the first word, followed by a space when more words follow |
| Footer.Capitalize | egzersiz-rehberi-uygulamasi/src/components/layout/Footer.tsx:40-45 | splitting the result gives the capitalised words of the input |
| Footer.SplitHasNoSpace | egzersiz-rehberi-uygulamasi/src/components/layout/Footer.tsx:42 | no word produced by `split(' ')` contains a space |
| Footer.JoinSplit | egzersiz-rehberi-uygulamasi/src/components/layout/Footer.tsx:42-44 | joining the split words with single spaces gives back the string, empty words included |
| Footer.SplitJoin | egzersiz-rehberi-uygulamasi/src/components/layout/Footer.tsx:42-44 | splitting words without spaces after joining them gives back the words |
| Footer.CapitalizeWords | egzersiz-rehberi-uygulamasi/src/components/layout/Footer.tsx:43 | one output word per input word, word k being `CapitalizeFirst` of input word k |
| Footer.CapitalizeAt | egzersiz-rehberi-uygulamasi/src/components/layout/Footer.tsx:40-45 | same length; a character is upper-cased iff it starts a word, and every other character is unchanged |
| Footer.CapitalizeKeepsSpaces | egzersiz-rehberi-uygulamasi/src/components/layout/Footer.tsx:40-45 | same length and the same space positions |
| Footer.CapitalizeIdempotent | egzersiz-rehberi-uygulamasi/src/components/layout/Footer.tsx:40-45 | capitalising twice equals capitalising once |
| Footer.Preview | egzersiz-rehberi-uygulamasi/src/components/layout/Footer.tsx:27-29 | a prefix of the list with min(6, length) entries |
| Footer.TaxonomyLists | egzersiz-rehberi-uygulamasi/src/components/layout/Footer.tsx:18-38 | each list is a prefix of its download with min(6, length) entries; any failed download leaves all three empty |
| HomePage.PopularExercises | egzersiz-rehberi-uygulamasi/src/pages/HomePage.tsx:97-100 | at most 4 entries, exactly min(4, chest + waist), each from one of the two lists |
| HomePage.PopularIsChestThenWaist | egzersiz-rehberi-uygulamasi/src/pages/HomePage.tsx:98-99 | the first min(4, chest) chest exercises followed by waist exercises, in order |
| HomePage.EnoughChestMeansOnlyChest | egzersiz-rehberi-uygulamasi/src/pages/HomePage.tsx:98-99 | with at least 4 chest exercises the result is the first four of them |
| Js.Slice | egzersiz-rehberi-uygulamasi/src/services/exerciseApi.ts:134 | `slice` clamps the end to the length and yields the elements from `start` on, or nothing |
| Js.SliceAdjacent | egzersiz-rehberi-uygulamasi/src/services/exerciseApi.ts:134 | adjacent slices concatenate to the combined slice |
| Js.Filter | egzersiz-rehberi-uygulamasi/src/services/exerciseApi.ts:127-132 | `filter` keeps only elements satisfying the predicate, every element that does, in order |
| Js.FilterCounts | egzersiz-rehberi-uygulamasi/src/services/exerciseApi.ts:127-132 | `filter` keeps every copy of an element that passes and no copy of one that fails |
| Js.Flat | egzersiz-rehberi-uygulamasi/src/components/exercise/ExerciseList.tsx:126 | `flat()` of no pages is empty, and otherwise starts with the first page |
| Js.Pages | egzersiz-rehberi-uygulamasi/src/services/exerciseApi.ts:134 | n consecutive pages of one width |
| Js.PageAt | egzersiz-rehberi-uygulamasi/src/services/exerciseApi.ts:134 | page k is the slice from k·width to (k+1)·width |
| Js.PagesTile | egzersiz-rehberi-uygulamasi/src/components/exercise/ExerciseList.tsx:126 | n consecutive pages of one width flatten to the first n·width elements |
| Js.IndexOf | egzersiz-rehberi-uygulamasi/src/hooks/useFavorites.ts:43 | `indexOf` is -1 iff absent, else the first position holding the element |
| Js.CapitalizeFirst | egzersiz-rehberi-uygulamasi/src/components/layout/Footer.tsx:43 | `charAt(0).toUpperCase() + slice(1)`: same length, only the first character upper-cased; empty stays empty |
| Js.Lower | egzersiz-rehberi-uygulamasi/src/services/exerciseApi.ts:125-131 | `toLowerCase()`: same length, each character lower-cased, no upper-case ASCII letter left |
| Js.Includes | egzersiz-rehberi-uygulamasi/src/services/exerciseApi.ts:128-131 | a needle that is a prefix is included, and an included needle is no longer than the string |
| Js.IncludesIff | egzersiz-rehberi-uygulamasi/src/services/exerciseApi.ts:128-131 | `includes` holds iff the needle occurs at some position |
| Js.IncludesEmpty | egzersiz-rehberi-uygulamasi/src/pages/ExerciseDetailPage.tsx:137 | every string includes the empty string |
| Js.Trim | egzersiz-rehberi-uygulamasi/src/components/exercise/ExerciseList.tsx:172 | `trim()` is a segment of the string with only whitespace before and after it; it is empty iff the string is all whitespace, and otherwise starts and ends with non-whitespace |
| Js.Lookup | egzersiz-rehberi-uygulamasi/src/pages/ExerciseDetailPage.tsx:32 | `table[key]`: the entry when present, else the empty string that stands for `undefined` |
| Js.Or | egzersiz-rehberi-uygulamasi/src/pages/ExerciseDetailPage.tsx:32 | `value || fallback` on strings: the value when non-empty, else the fallback |

## Left out

- Network calls: the axios requests and the react-query wrappers are not modelled. The catalogue reaches ExerciseApi.SearchExercises as a parameter, and a failed request is a `Failure`.
- Server-side paging of the body-part, target and equipment endpoints: `ExerciseList.FetchExercises` says which request is made, not what the server answers.
- JSON: `JSON.stringify` and `JSON.parse` are abstracted to what parsing yields (an array, a non-array, a parse error, or the empty string). Their round trip is assumed, not proved.
- Browser storage exceptions: a failed persist write is the `writeOk` flag and a failed migration copy the `copyOk` flag. `removeItem` is taken never to throw. A failed read is not separate from an unparsable value, since both end in the initializer's `catch`.
- React scheduling: effects run at the points where the methods are called. Each broadcast persists once on behalf of all components that re-render, since they all write the same list. Batching and render order are not modelled.
- The subscribe effect's double run under React strict mode is not modelled.
- `IntersectionObserver` mechanics: `ExerciseList.ListView.AutoLoad` is one observer callback seeing the current state. Observers created on earlier renders are never disconnected, so they can fire with an older counter. That asynchronous interleaving is not modelled.
- ExerciseList.ListView.AutoLoad: bumps the counter when the fetch is issued. The code bumps it in the `.then` of `fetchNextPage` (`ExerciseList.tsx:144-146`). The model assumes that promise settles for every fetch, as TanStack Query v5 does unless `throwOnError` is set, so the two differ only in timing.
- Favorites.Store.Mount: runs the corrected initializer. For storage holding a legacy `favorites` value that parses to a non-array and no `exercise_favorites`, the code gives the component the parsed object and its persist effect writes that object back; the model gives the binding the shared list and persists it. The as-written behaviour is `Favorites.InitialLoadAsWritten` (see Findings).
- `pauseAutoLoading` is kept as a field, but nothing in the code sets it to true. Only the reset to false is modelled.
- The refetch effect (`ExerciseList.tsx:118-122`) only asks react-query to reload and changes no modelled state.
- `window.scrollTo`, `window.location.reload` and the rest of the markup are not modelled.
- URL encoding between `location.search` and the parsed parameters: the query string is an opaque key and the parameters are a map.
- `SearchBar.tsx` validation is not part of this model.
- Case mapping is ASCII only. `toLowerCase` and `toUpperCase` on other characters, such as Turkish `İ`, leave them unchanged.
- Record lookups see only the table's own keys, not inherited object properties such as `constructor`.
- Negative `slice` arguments never occur in the modelled calls; offsets and limits are natural numbers.
- A `null` exercise passed to `addFavorite` behaves like an empty id and is not modelled separately.
- The title for a search keeps the garbled bytes the file has in place of `için`.

## Findings

| source | as written | input that shows it | evidently intended | confidence | as-written member | corrected member |
|---|---|---|---|---|---|---|
| egzersiz-rehberi-uygulamasi/src/hooks/useFavorites.ts:19-24 | the migration branch returns `JSON.parse` of the legacy value without the `Array.isArray` check the current-key branch applies (lines 27-31) | storage holding `favorites` = `{}` (valid JSON, not an array) and no `exercise_favorites` key: the component's state becomes an object, and the next `favorites.some` throws | a non-array legacy payload falls back to the shared list as a non-array current payload does | not executed | Favorites.LegacyNonArrayBecomesState | Favorites.InitialLoad |
