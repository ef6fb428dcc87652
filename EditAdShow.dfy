/** The Ad Show edit panel: its placeholder save API (new ids carry the prefix "as_"),
    the effect that seeds the form when the panel opens, and the submit handler. */
module EditAdShow {
  import opened Wrappers
  import opened Text
  import opened Storage
  import opened AdShows
  import Advertisement

  const SaveError: string := "Simulated save error for Ad Show Option!"
  const NameEmpty: string := "Name cannot be empty."
  const SaveFallback: string := "Failed to save. Please try again."

  /** The arguments of one `saveAdShowOptionApi` call. */
  datatype SaveRequest = SaveRequest(mode: Mode, name: string, id: Option<Id>)

  /** `saveAdShowOptionApi` throws exactly for a name that lower-cases to "fail"; unlike
      the other panels, "error" is accepted. */
  predicate RejectedName(name: string) {
    ToLower(name) == "fail"
  }

  /** The id of a new ad show option: `as_${Date.now()}`. */
  function GeneratedId(now: nat): Id {
    Str("as_" + Decimal(now))
  }

  /** Options generated at different times get different ids. */
  lemma GeneratedIdInjective(a: nat, b: nat)
    ensures GeneratedId(a) == GeneratedId(b) <==> a == b
  {
    if GeneratedId(a) == GeneratedId(b) {
      assert Decimal(a) == GeneratedId(a).s[3..];
      assert Decimal(b) == GeneratedId(b).s[3..];
      DecimalInjective(a, b);
    }
  }

  /** A generated id is a string that starts with "as_", so it never equals a numeric id
      or one of the built-in ids `as1`, `as2`, `as3`. */
  lemma GeneratedIdIsFresh(now: nat)
    ensures GeneratedId(now).Str? && GeneratedId(now).s[..3] == "as_"
    ensures forall i | 0 <= i < |DefaultAdShowOptions| :: GeneratedId(now) != DefaultAdShowOptions[i].id
  {
    var g := GeneratedId(now).s;
    assert g[2] == '_';
    forall i | 0 <= i < |DefaultAdShowOptions|
      ensures GeneratedId(now) != DefaultAdShowOptions[i].id
    {
      assert DefaultAdShowOptions[i].id.s[2] != '_';
    }
  }

  /** The record the save API stores: `{ ...data, id: id ?? ("as_" + Date.now()) }`. */
  function NewItem(name: string, id: Option<Id>, now: nat): (a: AdShowOption)
    ensures a.name == name
    ensures a.id == (if id.Some? then id.value else GeneratedId(now))
  {
    AdShowOption(id.GetOr(GeneratedId(now)), name)
  }

  /** `saveAdShowOptionApi`. A rejected name throws before the key is touched; otherwise
      the item is appended (add) or replaces every item with the same id (edit), and the
      list is written back. */
  method SaveAdShowOptionApi(store: Store<AdShowOption>, mode: Mode, name: string, id: Option<Id>, now: nat)
    returns (r: Result<AdShowOption>)
    modifies store
    ensures RejectedName(name) ==> r == Failure(SaveError) && store.stored == old(store.stored)
    ensures !RejectedName(name) ==>
      r == Success(NewItem(name, id, now)) &&
      store.stored == Some(Upsert(mode, old(store.Current()), AdShowId, id, r.value))
  {
    if RejectedName(name) {
      return Failure(SaveError);
    }
    var item := NewItem(name, id, now);
    store.Write(Upsert(mode, store.Current(), AdShowId, id, item));
    r := Success(item);
  }

  /** The only check of `handleSubmit`: the name must not be blank. */
  function Validate(name: string): Option<string> {
    BlankCheck(name, NameEmpty)
  }

  class AdShowPanel {
    var name: string
    var isSaving: bool
    var error: Option<string>

    constructor ()
      ensures name == "" && !isSaving && error == None
    {
      name, isSaving, error := "", false, None;
    }

    /** The effect on `[isOpen, mode, initialData]`: while closed nothing changes; when
        open, the name is seeded in edit mode with an item and cleared otherwise, and the
        error and saving flag are reset. */
    method Sync(page: Advertisement.AdvertisementPage)
      modifies this
      ensures !page.IsOpen(Advertisement.AdShowKind) ==>
        name == old(name) && isSaving == old(isSaving) && error == old(error)
      ensures page.IsOpen(Advertisement.AdShowKind) ==>
        error == None && !isSaving &&
        name == (if page.ModeFor(Advertisement.AdShowKind) == Edit && page.AdShowInitialData().Some?
                 then page.AdShowInitialData().value.name else "")
    {
      if page.IsOpen(Advertisement.AdShowKind) {
        var initial := page.AdShowInitialData();
        if page.ModeFor(Advertisement.AdShowKind) == Edit && initial.Some? {
          name := initial.value.name;
        } else {
          name := "";
        }
        error := None;
        isSaving := false;
      }
    }

    /** `handleSubmit`. A blank name sets its message, clears the saving flag and returns
        before any save call. Otherwise the untrimmed name is saved with the edited item's
        id (none when adding); success bumps the page's Ad Show key and closes the panel,
        failure shows the thrown message and closes nothing. */
    method Submit(page: Advertisement.AdvertisementPage, store: Store<AdShowOption>, now: nat)
      returns (request: Option<SaveRequest>)
      modifies this, page, store
      ensures name == old(name) && !isSaving
      ensures Validate(old(name)).Some? ==>
        request == None && error == Some(NameEmpty) &&
        store.stored == old(store.stored) && unchanged(page)
      ensures Validate(old(name)).None? ==>
        request == Some(SaveRequest(
          old(page.ModeFor(Advertisement.AdShowKind)), old(name),
          if old(page.ModeFor(Advertisement.AdShowKind)) == Edit && old(page.AdShowInitialData()).Some?
          then Some(old(page.AdShowInitialData()).value.id) else None))
      ensures request.Some? && RejectedName(request.value.name) ==>
        error == Some(SaveError) && store.stored == old(store.stored) && unchanged(page)
      ensures request.Some? && !RejectedName(request.value.name) ==>
        error == None &&
        store.stored == Some(Upsert(request.value.mode, old(store.Current()), AdShowId, request.value.id,
                                    NewItem(request.value.name, request.value.id, now))) &&
        page.activePanel == None &&
        forall t :: page.RefreshKey(t) == old(page.RefreshKey(t)) + (if t == Advertisement.AdShowKind then 1 else 0)
    {
      var mode := page.ModeFor(Advertisement.AdShowKind);
      var initial := page.AdShowInitialData();
      error := None;
      isSaving := true;
      var check := Validate(name);
      if check.Some? {
        error := check;
        isSaving := false;
        return None;
      }
      var itemId := if mode == Edit && initial.Some? then Some(initial.value.id) else None;
      request := Some(SaveRequest(mode, name, itemId));
      Save(page, store, request.value, now);
    }

    /** The part of `handleSubmit` after the checks: the save call, then on success the
        page's Ad Show key goes up by one and the panel is closed, in that order; on failure
        the thrown message (or the fallback for an empty one) is shown and the page is left
        alone. Saving is over either way. */
    method Save(page: Advertisement.AdvertisementPage, store: Store<AdShowOption>, request: SaveRequest, now: nat)
      modifies this, page, store
      ensures !isSaving && name == old(name)
      ensures RejectedName(request.name) ==>
        error == Some(SaveError) && store.stored == old(store.stored) && unchanged(page)
      ensures !RejectedName(request.name) ==>
        error == old(error) &&
        store.stored == Some(Upsert(request.mode, old(store.Current()), AdShowId, request.id,
                                    NewItem(request.name, request.id, now))) &&
        page.activePanel == None &&
        forall t :: page.RefreshKey(t) == old(page.RefreshKey(t)) + (if t == Advertisement.AdShowKind then 1 else 0)
    {
      var r := SaveAdShowOptionApi(store, request.mode, request.name, request.id, now);
      if r.Success? {
        page.SaveSuccess(Advertisement.AdShowKind);
        page.ClosePanel();
      } else {
        error := Some(MessageOr(r.message, SaveFallback));
      }
      isSaving := false;
    }
  }
}
