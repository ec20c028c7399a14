/** `hooks/useFavorites.ts`: a favorites list shared by every component that calls
    `useFavorites()`. The module keeps one shared list (`globalFavorites`) and the state
    setters of the mounted components (`globalSetters`). A mutation goes through
    `notifyAllComponents`, which replaces the shared list and hands the new list to every
    setter in registration order; each component that receives it writes it to browser
    storage. Storage is a map from key to stored text, with the JSON text abstracted to
    what `JSON.parse` would make of it. */
module Favorites {
  import opened Exercises
  import Js

  const FAVORITES_KEY := "exercise_favorites"
  const LEGACY_KEY := "favorites"

  /** What is stored under a key, described by what `JSON.parse` makes of it. */
  datatype StoredValue =
    | Items(items: seq<Exercise>)  // an array of exercises
    | NonArrayJson                 // valid JSON that is not an array
    | Unparsable                   // text that `JSON.parse` rejects
    | Blank                        // the empty string, which is falsy

  type Storage = map<string, StoredValue>

  /** `localStorage.getItem(key)` tested for truthiness: present and not the empty string. */
  predicate Truthy(storage: Storage, key: string)
  {
    key in storage && !storage[key].Blank?
  }

  // ---------------------------------------------------------------------------
  // The list operations, as functions of a component's list

  predicate HasId(list: seq<Exercise>, id: string)
  {
    exists k :: 0 <= k < |list| && list[k].id == id
  }

  /** No two entries share an id. */
  predicate UniqueIds(list: seq<Exercise>)
  {
    forall i, j :: 0 <= i < j < |list| ==> list[i].id != list[j].id
  }

  /** `list.some(exercise => exercise.id === id)`. */
  function SomeHasId(list: seq<Exercise>, id: string): (b: bool)
    ensures b <==> HasId(list, id)
  {
    if list == [] then false
    else if list[0].id == id then true
    else
      var rest := SomeHasId(list[1..], id);
      assert HasId(list, id) <==> HasId(list[1..], id) by {
        if HasId(list, id) {
          var k :| 0 <= k < |list| && list[k].id == id;
          assert k > 0 && list[1..][k - 1].id == id;
        }
        if HasId(list[1..], id) {
          var k :| 0 <= k < |list[1..]| && list[1..][k].id == id;
          assert list[k + 1].id == id;
        }
      }
      rest
  }

  /** `isFavorite(id)` over a component's list. */
  function IsFavorite(list: seq<Exercise>, id: string): (b: bool)
    ensures b <==> id != "" && HasId(list, id)
  {
    if id == "" then false else SomeHasId(list, id)
  }

  /** What `addFavorite(exercise)` broadcasts, computed from the calling component's own
      list: `None` when it returns early (no id, or an entry with that id already there),
      else the list with the exercise appended. */
  function Added(list: seq<Exercise>, exercise: Exercise): (r: Option<seq<Exercise>>)
    ensures r.None? <==> exercise.id == "" || HasId(list, exercise.id)
    ensures r.Some? ==> |r.value| == |list| + 1 && r.value[..|list|] == list && r.value[|list|] == exercise
    ensures r.Some? ==> IsFavorite(r.value, exercise.id)
    ensures r.Some? && UniqueIds(list) ==> UniqueIds(r.value)
  {
    if exercise.id == "" then None
    else if SomeHasId(list, exercise.id) then None
    else
      var added := list + [exercise];
      assert added[|list|].id == exercise.id;
      Some(added)
  }

  function KeepOthers(id: string): Exercise -> bool
  {
    (e: Exercise) => e.id != id
  }

  lemma {:induction false} FilterKeepsUniqueIds(list: seq<Exercise>, p: Exercise -> bool)
    requires UniqueIds(list)
    ensures UniqueIds(Js.Filter(list, p))
    decreases |list|
  {
    if list != [] {
      FilterKeepsUniqueIds(list[1..], p);
      var rest := Js.Filter(list[1..], p);
      forall k | 0 <= k < |rest|
        ensures rest[k].id != list[0].id
      {
        Js.SubsequenceMember(rest, list[1..], k);
        var j :| 0 <= j < |list[1..]| && list[1..][j] == rest[k];
        assert list[j + 1] == rest[k];
      }
    }
  }

  /** What `removeFavorite(id)` broadcasts: `None` when it returns early on an empty id,
      else the list without any entry of that id. An id that is not there still gives a
      broadcast, of an equal list. */
  function Removed(list: seq<Exercise>, id: string): (r: Option<seq<Exercise>>)
    ensures r.None? <==> id == ""
    ensures r.Some? ==> !HasId(r.value, id) && !IsFavorite(r.value, id)
    ensures r.Some? ==> Js.IsSubsequence(r.value, list)
    ensures r.Some? ==> forall k :: 0 <= k < |list| && list[k].id != id ==> list[k] in r.value
    ensures r.Some? ==> forall x :: multiset(r.value)[x] == if x.id == id then 0 else multiset(list)[x]
    ensures r.Some? && !HasId(list, id) ==> r.value == list
    ensures r.Some? && UniqueIds(list) ==> UniqueIds(r.value)
  {
    if id == "" then None
    else
      var kept := Js.Filter(list, KeepOthers(id));
      assert !HasId(list, id) ==> kept == list by {
        if !HasId(list, id) {
          Js.FilterKeepsAll(list, KeepOthers(id));
        }
      }
      Js.FilterCounts(list, KeepOthers(id));
      assert UniqueIds(list) ==> UniqueIds(kept) by {
        if UniqueIds(list) {
          FilterKeepsUniqueIds(list, KeepOthers(id));
        }
      }
      Some(kept)
  }

  /** Removing what was just added gives back the list it was added to. */
  lemma {:induction false} RemoveUndoesAdd(list: seq<Exercise>, exercise: Exercise)
    requires Added(list, exercise).Some?
    ensures Removed(Added(list, exercise).value, exercise.id) == Some(list)
  {
    var p := KeepOthers(exercise.id);
    assert Added(list, exercise).value == list + [exercise];
    assert forall k :: 0 <= k < |list| ==> p(list[k]);
    Js.FilterAppend(list, [exercise], p);
    Js.FilterKeepsAll(list, p);
    assert !p(exercise);
    assert [exercise][1..] == [];
    assert Js.Filter([exercise], p) == Js.Filter([], p) == [];
    assert list + [] == list;
    assert Js.Filter(list + [exercise], p) == list;
    assert Removed(list + [exercise], exercise.id) == Some(Js.Filter(list + [exercise], p));
  }

  // ---------------------------------------------------------------------------
  // First load (the `useState` initializer)

  /** What `JSON.parse` returned: an array or some other value. */
  datatype Parsed = List(items: seq<Exercise>) | NonList

  datatype LoadOutcome<R> = LoadOutcome(storage: Storage, shared: seq<Exercise>, result: R)

  /** The legacy-migration branch is taken: something under the legacy key and nothing
      under the current one. */
  predicate Migrates(storage: Storage)
  {
    Truthy(storage, LEGACY_KEY) && !Truthy(storage, FAVORITES_KEY)
  }

  /** The initializer as written: the storage after it, the shared list after it, and the
      value it returns as the component's initial state. In the migration branch the legacy
      text is parsed and returned without checking that it is an array; a parse failure
      there, as everywhere, ends in the `catch` and the shared list is returned. `copyOk`
      false is a migration copy (`setItem` of the legacy text) that throws: the `catch`
      is reached before anything was written or removed. */
  function InitialLoadAsWritten(storage: Storage, shared: seq<Exercise>, copyOk: bool): (o: LoadOutcome<Parsed>)
    ensures Migrates(storage) && copyOk ==>
      && o.storage == storage[FAVORITES_KEY := storage[LEGACY_KEY]] - {LEGACY_KEY}
      && LEGACY_KEY !in o.storage && o.shared == shared
    ensures Migrates(storage) && copyOk && storage[LEGACY_KEY].Items? ==> o.result == List(storage[LEGACY_KEY].items)
    ensures Migrates(storage) && copyOk && storage[LEGACY_KEY].Unparsable? ==> o.result == List(shared)
    ensures Migrates(storage) && !copyOk ==> o == LoadOutcome(storage, shared, List(shared))
    ensures o.result.NonList? <==> Migrates(storage) && copyOk && storage[LEGACY_KEY] == NonArrayJson
    ensures !Migrates(storage) && Truthy(storage, FAVORITES_KEY) && storage[FAVORITES_KEY].Items? ==>
      o == LoadOutcome(storage, storage[FAVORITES_KEY].items, List(storage[FAVORITES_KEY].items))
    ensures !Migrates(storage) && !(Truthy(storage, FAVORITES_KEY) && storage[FAVORITES_KEY].Items?) ==>
      o == LoadOutcome(storage, shared, List(shared))
  {
    if Migrates(storage) && !copyOk then
      LoadOutcome(storage, shared, List(shared))
    else if Migrates(storage) then
      var migrated := storage[FAVORITES_KEY := storage[LEGACY_KEY]] - {LEGACY_KEY};
      match storage[LEGACY_KEY]
      case Items(xs) => LoadOutcome(migrated, shared, List(xs))
      case NonArrayJson => LoadOutcome(migrated, shared, NonList)
      case _ => LoadOutcome(migrated, shared, List(shared))
    else if Truthy(storage, FAVORITES_KEY) && storage[FAVORITES_KEY].Items? then
      var xs := storage[FAVORITES_KEY].items;
      LoadOutcome(storage, xs, List(xs))
    else
      LoadOutcome(storage, shared, List(shared))
  }

  /** A legacy value that is valid JSON but not an array becomes a component's state. */
  lemma {:induction false} LegacyNonArrayBecomesState(shared: seq<Exercise>)
    ensures InitialLoadAsWritten(map[LEGACY_KEY := NonArrayJson], shared, true).result == NonList
  {
    assert Migrates(map[LEGACY_KEY := NonArrayJson]);
  }

  /** The initializer with the array check applied to the legacy value as it is to the
      current one: a non-array falls back to the shared list. Everything else is as
      written, including that the migration branch does not assign the shared list. */
  function InitialLoad(storage: Storage, shared: seq<Exercise>, copyOk: bool): (o: LoadOutcome<seq<Exercise>>)
    ensures Migrates(storage) && copyOk ==>
      && o.storage == storage[FAVORITES_KEY := storage[LEGACY_KEY]] - {LEGACY_KEY}
      && o.shared == shared
      && o.result == (if storage[LEGACY_KEY].Items? then storage[LEGACY_KEY].items else shared)
    ensures Migrates(storage) && !copyOk ==> o == LoadOutcome(storage, shared, shared)
    ensures !Migrates(storage) && Truthy(storage, FAVORITES_KEY) && storage[FAVORITES_KEY].Items? ==>
      o == LoadOutcome(storage, storage[FAVORITES_KEY].items, storage[FAVORITES_KEY].items)
    ensures !Migrates(storage) && !(Truthy(storage, FAVORITES_KEY) && storage[FAVORITES_KEY].Items?) ==>
      o == LoadOutcome(storage, shared, shared)
    ensures var w := InitialLoadAsWritten(storage, shared, copyOk);
      o.storage == w.storage && o.shared == w.shared && (w.result.List? ==> o.result == w.result.items)
  {
    var w := InitialLoadAsWritten(storage, shared, copyOk);
    LoadOutcome(w.storage, w.shared, if w.result.List? then w.result.items else w.shared)
  }

  /** The migration happens once: after a successful copy the legacy key is gone and the
      current key holds its old value; after a failed copy storage is as it was, so the
      next load tries again. */
  lemma {:induction false} MigrationHappensOnce(storage: Storage, shared: seq<Exercise>)
    requires Migrates(storage)
    ensures var o := InitialLoad(storage, shared, true);
      LEGACY_KEY !in o.storage && o.storage[FAVORITES_KEY] == storage[LEGACY_KEY] && !Migrates(o.storage)
    ensures Migrates(InitialLoad(storage, shared, false).storage)
  {
  }

  /** The persist effect: `localStorage.setItem(FAVORITES_KEY, JSON.stringify(list))`;
      a failed write (`writeOk` false) is logged and skipped. */
  function Persisted(storage: Storage, list: seq<Exercise>, writeOk: bool): (s: Storage)
    ensures writeOk ==> FAVORITES_KEY in s && s[FAVORITES_KEY] == Items(list)
    ensures forall key :: key in storage && key != FAVORITES_KEY ==> key in s && s[key] == storage[key]
    ensures s.Keys <= storage.Keys + {FAVORITES_KEY}
    ensures !writeOk ==> s == storage
  {
    if writeOk then storage[FAVORITES_KEY := Items(list)] else storage
  }

  /** A list that was saved is what the next load returns and makes shared. */
  lemma {:induction false} LoadAfterSave(storage: Storage, list: seq<Exercise>, shared: seq<Exercise>, copyOk: bool)
    ensures InitialLoad(Persisted(storage, list, true), shared, copyOk).result == list
    ensures InitialLoad(Persisted(storage, list, true), shared, copyOk).shared == list
  {
    var s := Persisted(storage, list, true);
    assert !Migrates(s);
  }

  // ---------------------------------------------------------------------------
  // The state

  /** One component's binding: its own copy of the list (its `useState` value). The object
      stands for the component's `setFavorites` as well. */
  class Binding {
    var favorites: seq<Exercise>

    constructor (initial: seq<Exercise>)
      ensures favorites == initial
    {
      favorites := initial;
    }
  }

  /** The module-level state of `useFavorites.ts` together with browser storage. */
  class Store {
    var globalFavorites: seq<Exercise>
    var globalSetters: seq<Binding>
    var storage: Storage
    /** Every setter call made so far, in order (an observation, not program state). */
    ghost var notified: seq<Binding>

    /** The module as first evaluated: an empty shared list and no setters. */
    constructor (initialStorage: Storage)
      ensures globalFavorites == [] && globalSetters == [] && storage == initialStorage && notified == []
    {
      globalFavorites := [];
      globalSetters := [];
      storage := initialStorage;
      notified := [];
    }

    /** The mutation broadcast `newValue`: the shared list is replaced, every registered
        setter was called once, in order, with `newValue`, and each component that received
        it persisted it. */
    twostate predicate Committed(newValue: seq<Exercise>, writeOk: bool)
      reads this, globalSetters
    {
      && globalFavorites == newValue
      && globalSetters == old(globalSetters)
      && (forall k :: 0 <= k < |globalSetters| ==> globalSetters[k].favorites == newValue)
      && notified == old(notified) + globalSetters
      && storage == (if |globalSetters| > 0 then Persisted(old(storage), newValue, writeOk) else old(storage))
    }

    /** The call returned early: nothing changed and no setter was called. */
    twostate predicate Untouched()
      reads this, globalSetters
    {
      && globalFavorites == old(globalFavorites)
      && globalSetters == old(globalSetters)
      && storage == old(storage)
      && notified == old(notified)
      && (forall k :: 0 <= k < |globalSetters| ==> globalSetters[k].favorites == old(globalSetters[k].favorites))
    }

    /** `notifyAllComponents(newValue)`. */
    method NotifyAllComponents(newValue: seq<Exercise>)
      modifies this, globalSetters
      ensures globalFavorites == newValue
      ensures globalSetters == old(globalSetters) && storage == old(storage)
      ensures forall k :: 0 <= k < |globalSetters| ==> globalSetters[k].favorites == newValue
      ensures notified == old(notified) + globalSetters
    {
      globalFavorites := newValue;
      var i := 0;
      while i < |globalSetters|
        invariant 0 <= i <= |globalSetters|
        invariant globalFavorites == newValue
        invariant globalSetters == old(globalSetters) && storage == old(storage)
        invariant forall k :: 0 <= k < i ==> globalSetters[k].favorites == newValue
        invariant notified == old(notified) + globalSetters[..i]
      {
        globalSetters[i].favorites := newValue;
        notified := notified + [globalSetters[i]];
        i := i + 1;
      }
    }

    /** A broadcast followed by the persist effects of the components it re-rendered; they
        all write the same list, so one write stands for them. */
    method Commit(newValue: seq<Exercise>, writeOk: bool)
      modifies this, globalSetters
      ensures Committed(newValue, writeOk)
    {
      NotifyAllComponents(newValue);
      if |globalSetters| > 0 {
        storage := Persisted(storage, newValue, writeOk);
      }
    }

    /** `addFavorite(exercise)` called through binding `b`. */
    method AddFavorite(b: Binding, exercise: Exercise, writeOk: bool)
      modifies this, globalSetters
      ensures var r := Added(old(b.favorites), exercise);
        if r.None? then Untouched() else Committed(r.value, writeOk)
    {
      if exercise.id == "" {
        return;
      }
      if SomeHasId(b.favorites, exercise.id) {
        return;
      }
      Commit(b.favorites + [exercise], writeOk);
    }

    /** `removeFavorite(id)` called through binding `b`. */
    method RemoveFavorite(b: Binding, id: string, writeOk: bool)
      modifies this, globalSetters
      ensures var r := Removed(old(b.favorites), id);
        if r.None? then Untouched() else Committed(r.value, writeOk)
    {
      if id == "" {
        return;
      }
      Commit(Js.Filter(b.favorites, KeepOthers(id)), writeOk);
    }

    /** `clearFavorites()`. */
    method ClearFavorites(writeOk: bool)
      modifies this, globalSetters
      ensures Committed([], writeOk)
    {
      Commit([], writeOk);
    }

    /** A component calls `useFavorites()` and mounts: the initializer computes its first
        list, the subscribe effect appends its setter, and the persist effect writes the
        first list. Every mount runs the initializer, not only the first. `copyOk` says
        whether the initializer's migration copy succeeds, `writeOk` whether the persist
        effect's write does. */
    method Mount(copyOk: bool, writeOk: bool) returns (b: Binding)
      modifies this
      ensures fresh(b)
      ensures var o := InitialLoad(old(storage), old(globalFavorites), copyOk);
        && b.favorites == o.result
        && globalFavorites == o.shared
        && globalSetters == old(globalSetters) + [b]
        && storage == Persisted(o.storage, o.result, writeOk)
        && notified == old(notified)
    {
      var o := InitialLoad(storage, globalFavorites, copyOk);
      storage := o.storage;
      globalFavorites := o.shared;
      b := new Binding(o.result);
      globalSetters := globalSetters + [b];
      storage := Persisted(storage, b.favorites, writeOk);
    }

    /** The subscribe effect's cleanup: the first occurrence of the setter is spliced out;
        a setter that is not registered leaves the list as it is. */
    method Unmount(b: Binding)
      modifies this`globalSetters
      ensures globalSetters == Unsubscribed(old(globalSetters), b)
    {
      var index := Js.IndexOf(globalSetters, b);
      if index > -1 {
        globalSetters := globalSetters[..index] + globalSetters[index + 1..];
      }
    }
  }

  /** The setters after `b` unsubscribes: one occurrence of `b` fewer, the others in order. */
  function Unsubscribed(setters: seq<Binding>, b: Binding): (r: seq<Binding>)
    ensures b !in setters ==> r == setters
    ensures b in setters ==> |r| == |setters| - 1 && multiset(r) == multiset(setters) - multiset{b}
    ensures b in setters ==>
      exists i :: 0 <= i < |setters| && setters[i] == b && b !in setters[..i] && r == setters[..i] + setters[i + 1..]
    ensures Js.IsSubsequence(r, setters)
  {
    var index := Js.IndexOf(setters, b);
    if index > -1 then
      var r := setters[..index] + setters[index + 1..];
      assert setters == setters[..index] + [b] + setters[index + 1..];
      Js.SegmentIsSubsequence(setters, 0, index);
      SplicedIsSubsequence(setters, index);
      r
    else
      Js.SubsequenceOfSelf(setters);
      setters
  }

  lemma {:induction false} SplicedIsSubsequence<T>(s: seq<T>, i: nat)
    requires i < |s|
    ensures Js.IsSubsequence(s[..i] + s[i + 1..], s)
    decreases i
  {
    if i == 0 {
      assert s[..0] + s[1..] == s[1..];
      Js.SubsequenceOfSelf(s[1..]);
    } else {
      SplicedIsSubsequence(s[1..], i - 1);
      var r := s[..i] + s[i + 1..];
      assert r[0] == s[0];
      assert r[1..] == s[1..][..i - 1] + s[1..][i..];
    }
  }

  /** Two components mounted on empty storage; adding through one is seen by both before
      the call returns, and a second add of the same id changes nothing. */
  method AddScenario()
  {
    var store := new Store(map[]);
    var a := store.Mount(true, true);
    var c := store.Mount(true, true);
    assert store.globalSetters == [a, c];
    var pushUp := Exercise("0001", "Push-up", "chest", "pectorals", "body weight", "");
    assert Added([], pushUp) == Some([pushUp]);
    store.AddFavorite(a, pushUp, true);
    assert store.globalSetters[0].favorites == [pushUp];
    assert store.globalSetters[1].favorites == [pushUp];
    assert store.storage[FAVORITES_KEY] == Items([pushUp]);
    assert HasId(c.favorites, "0001");
    store.AddFavorite(c, pushUp, true);
    assert a.favorites == [pushUp] && c.favorites == [pushUp];
  }

  /** Removing an id that is not there leaves the list, and what is stored, as it was. */
  method RemoveAbsentScenario(pushUp: Exercise)
    requires pushUp.id == "0001"
  {
    var store := new Store(map[FAVORITES_KEY := Items([pushUp])]);
    var a := store.Mount(true, true);
    assert a.favorites == [pushUp];
    assert !HasId([pushUp], "0002");
    store.RemoveFavorite(a, "0002", true);
    assert a.favorites == [pushUp];
    assert store.storage[FAVORITES_KEY] == Items([pushUp]);
  }

  /** A component that has unmounted is not called by the next broadcast. */
  method UnmountScenario()
  {
    var store := new Store(map[]);
    var a := store.Mount(true, true);
    var c := store.Mount(true, true);
    assert store.globalSetters == [a, c];
    store.Unmount(c);
    assert store.globalSetters == [a];
    store.ClearFavorites(true);
    assert a.favorites == [];
    assert store.notified[|store.notified| - 1..] == [a];
  }
}
