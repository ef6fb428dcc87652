/** The Promotion Power edit panel: its placeholder save API, the effect that seeds the
    form when the panel opens, and the submit handler. */
module EditPromotionPower {
  import opened Wrappers
  import opened Text
  import opened Storage
  import opened PromotionPowers
  import Advertisement

  const SaveError: string := "Simulated save error for Promo Power!"
  const NameEmpty: string := "Name (Options) cannot be empty."
  const SaveFallback: string := "Failed to save. Please try again."

  /** The arguments of one `savePromotionPowerApi` call. */
  datatype SaveRequest = SaveRequest(mode: Mode, name: string, id: Option<Id>)

  /** `savePromotionPowerApi` throws exactly for a name that lower-cases to "error". */
  predicate RejectedName(name: string) {
    ToLower(name) == "error"
  }

  /** The record the save API stores: `{ ...data, id: id ?? Date.now() }`. */
  function NewItem(name: string, id: Option<Id>, now: int): (p: PromotionPower)
    ensures p.name == name
    ensures p.id == (if id.Some? then id.value else Num(now))
  {
    PromotionPower(id.GetOr(Num(now)), name)
  }

  /** `savePromotionPowerApi`. A rejected name throws before the key is touched; otherwise
      the item is appended (add) or replaces every item with the same id (edit), and the
      list is written back. */
  method SavePromotionPowerApi(store: Store<PromotionPower>, mode: Mode, name: string, id: Option<Id>, now: int)
    returns (r: Result<PromotionPower>)
    modifies store
    ensures RejectedName(name) ==> r == Failure(SaveError) && store.stored == old(store.stored)
    ensures !RejectedName(name) ==>
      r == Success(NewItem(name, id, now)) &&
      store.stored == Some(Upsert(mode, old(store.Current()), PromotionPowerId, id, r.value))
  {
    if RejectedName(name) {
      return Failure(SaveError);
    }
    var item := NewItem(name, id, now);
    store.Write(Upsert(mode, store.Current(), PromotionPowerId, id, item));
    r := Success(item);
  }

  /** The only check of `handleSubmit`: the name must not be blank. */
  function Validate(name: string): Option<string> {
    BlankCheck(name, NameEmpty)
  }

  class PromotionPowerPanel {
    var name: string
    var isSaving: bool
    var error: Option<string>

    constructor ()
      ensures name == "" && !isSaving && error == None
    {
      name, isSaving, error := "", false, None;
    }

    /** The effect on `[isOpen, mode, initialData]`: while closed nothing changes; when
        open, the name is seeded in edit mode with an item and cleared otherwise, and the
        error and saving flag are reset. */
    method Sync(page: Advertisement.AdvertisementPage)
      modifies this
      ensures !page.IsOpen(Advertisement.PromoPowerKind) ==>
        name == old(name) && isSaving == old(isSaving) && error == old(error)
      ensures page.IsOpen(Advertisement.PromoPowerKind) ==>
        error == None && !isSaving &&
        name == (if page.ModeFor(Advertisement.PromoPowerKind) == Edit && page.PromoPowerInitialData().Some?
                 then page.PromoPowerInitialData().value.name else "")
    {
      if page.IsOpen(Advertisement.PromoPowerKind) {
        var initial := page.PromoPowerInitialData();
        if page.ModeFor(Advertisement.PromoPowerKind) == Edit && initial.Some? {
          name := initial.value.name;
        } else {
          name := "";
        }
        error := None;
        isSaving := false;
      }
    }

    /** `handleSubmit`. A blank name sets its message, clears the saving flag and returns
        before any save call. Otherwise the untrimmed name is saved with the edited item's
        id (none when adding); success bumps the page's Promotion Power key and closes the
        panel, failure shows the thrown message and leaves the page alone. */
    method Submit(page: Advertisement.AdvertisementPage, store: Store<PromotionPower>, now: int)
      returns (request: Option<SaveRequest>)
      modifies this, page, store
      ensures name == old(name) && !isSaving
      ensures Validate(old(name)).Some? ==>
        request == None && error == Some(NameEmpty) &&
        store.stored == old(store.stored) && unchanged(page)
      ensures Validate(old(name)).None? ==>
        request == Some(SaveRequest(
          old(page.ModeFor(Advertisement.PromoPowerKind)), old(name),
          if old(page.ModeFor(Advertisement.PromoPowerKind)) == Edit && old(page.PromoPowerInitialData()).Some?
          then Some(old(page.PromoPowerInitialData()).value.id) else None))
      ensures request.Some? && RejectedName(request.value.name) ==>
        error == Some(SaveError) && store.stored == old(store.stored) && unchanged(page)
      ensures request.Some? && !RejectedName(request.value.name) ==>
        error == None &&
        store.stored == Some(Upsert(request.value.mode, old(store.Current()), PromotionPowerId, request.value.id,
                                    NewItem(request.value.name, request.value.id, now))) &&
        page.activePanel == None &&
        forall t :: page.RefreshKey(t) == old(page.RefreshKey(t)) + (if t == Advertisement.PromoPowerKind then 1 else 0)
    {
      var mode := page.ModeFor(Advertisement.PromoPowerKind);
      var initial := page.PromoPowerInitialData();
      error := None;
      isSaving := true;
      var check := Validate(name);
      if check.Some? {
        error := check;
        isSaving := false;
        return None;
      }
      var itemId := if mode == Edit && initial.Some? then Some(initial.value.id) else None;
      request := Some(SaveRequest(mode, name, itemId));
      Save(page, store, request.value, now);
    }

    /** The part of `handleSubmit` after the checks: the save call, then on success the
        page's Promotion Power key goes up by one and the panel is closed, in that order; on failure
        the thrown message (or the fallback for an empty one) is shown and the page is left
        alone. Saving is over either way. */
    method Save(page: Advertisement.AdvertisementPage, store: Store<PromotionPower>, request: SaveRequest, now: int)
      modifies this, page, store
      ensures !isSaving && name == old(name)
      ensures RejectedName(request.name) ==>
        error == Some(SaveError) && store.stored == old(store.stored) && unchanged(page)
      ensures !RejectedName(request.name) ==>
        error == old(error) &&
        store.stored == Some(Upsert(request.mode, old(store.Current()), PromotionPowerId, request.id,
                                    NewItem(request.name, request.id, now))) &&
        page.activePanel == None &&
        forall t :: page.RefreshKey(t) == old(page.RefreshKey(t)) + (if t == Advertisement.PromoPowerKind then 1 else 0)
    {
      var r := SavePromotionPowerApi(store, request.mode, request.name, request.id, now);
      if r.Success? {
        page.SaveSuccess(Advertisement.PromoPowerKind);
        page.ClosePanel();
      } else {
        error := Some(MessageOr(r.message, SaveFallback));
      }
      isSaving := false;
    }
  }
}
