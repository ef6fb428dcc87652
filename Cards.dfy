/** The list-card load state machine that the Ad Type, Promotion Power, Duration and
    Ad Show cards each implement identically: `isLoading`, `error` and the displayed list,
    re-fetched on mount and whenever the card's `refreshKey` prop changes. */
module Cards {
  import opened Wrappers
  import opened Storage

  /** The JSX test `error && ...` / `!error`: null and the empty string are falsy. */
  predicate ErrorShown(error: Option<string>) {
    error.Some? && error.value != ""
  }

  class ListCard<T> {
    /** What the card's placeholder fetch returns when its key is absent. */
    const defaults: seq<T>
    /** The message the card shows when the fetch rejects. */
    const loadError: string

    var items: seq<T>
    var isLoading: bool
    var error: Option<string>
    /** The `refreshKey` the load effect last ran for (React's dependency memory);
        `None` before the first commit. */
    var lastKey: Option<int>

    /** Initial state: an empty list, loading, no error, not yet committed. */
    constructor (defaults: seq<T>, loadError: string)
      ensures this.defaults == defaults && this.loadError == loadError
      ensures items == [] && isLoading && error == None && lastKey == None
    {
      this.defaults := defaults;
      this.loadError := loadError;
      items := [];
      isLoading := true;
      error := None;
      lastKey := None;
    }

    /** The synchronous start of `loadData`, before the fetch is awaited. */
    method BeginLoad()
      modifies this
      ensures isLoading && error == None
      ensures items == old(items) && lastKey == old(lastKey)
    {
      isLoading := true;
      error := None;
    }

    /** The rest of `loadData` once the fetch settles. On success the fetched list is shown
        and written back to the card's key; on failure the list and the key are untouched
        and the card's message is shown. Loading ends in both cases. */
    method CompleteLoad(store: Store<T>, fetchFails: bool)
      modifies this, store
      ensures !isLoading && lastKey == old(lastKey)
      ensures fetchFails ==>
        error == Some(loadError) && items == old(items) && store.stored == old(store.stored)
      ensures !fetchFails ==>
        error == old(error) && items == FetchOrDefault(old(store.stored), defaults) &&
        store.stored == Some(items)
    {
      if fetchFails {
        error := Some(loadError);
      } else {
        var data := FetchOrDefault(store.stored, defaults);
        items := data;
        store.Write(data);
      }
      isLoading := false;
    }

    /** `loadData` as a whole. */
    method Load(store: Store<T>, fetchFails: bool)
      modifies this, store
      ensures !isLoading && lastKey == old(lastKey)
      ensures fetchFails ==>
        error == Some(loadError) && items == old(items) && store.stored == old(store.stored)
      ensures !fetchFails ==>
        error == None && items == FetchOrDefault(old(store.stored), defaults) &&
        store.stored == Some(items)
    {
      BeginLoad();
      CompleteLoad(store, fetchFails);
    }

    /** A render commit with the given `refreshKey`: the effect runs `loadData` on mount
        and whenever the key differs from the one it last ran for, and not otherwise. */
    method Commit(refreshKey: int, store: Store<T>, fetchFails: bool) returns (loaded: bool)
      modifies this, store
      ensures loaded <==> old(lastKey) != Some(refreshKey)
      ensures lastKey == Some(refreshKey)
      ensures !loaded ==>
        items == old(items) && isLoading == old(isLoading) && error == old(error) &&
        store.stored == old(store.stored)
      ensures loaded ==> !isLoading
      ensures loaded && fetchFails ==>
        error == Some(loadError) && items == old(items) && store.stored == old(store.stored)
      ensures loaded && !fetchFails ==>
        error == None && items == FetchOrDefault(old(store.stored), defaults) &&
        store.stored == Some(items)
    {
      loaded := lastKey != Some(refreshKey);
      lastKey := Some(refreshKey);
      if loaded {
        Load(store, fetchFails);
      }
    }

    /** The "No ... defined yet." line: only when not loading, no error is shown and the
        list is empty. */
    predicate EmptyMessageShown()
      reads this
    {
      !isLoading && !ErrorShown(error) && items == []
    }
  }

  /** After a successful load the empty message can only appear when the key held an
      empty list: defaults are never empty, so an absent key never shows it. */
  lemma {:induction false} EmptyMessageOnlyForStoredEmptyList<T>(stored: Option<seq<T>>, defaults: seq<T>)
    requires defaults != []
    ensures FetchOrDefault(stored, defaults) == [] <==> stored == Some([])
  {
  }
}
