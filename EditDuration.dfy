/** The Duration edit panel: its placeholder save API, the effect that seeds the form
    when the panel opens, and the submit handler. */
module EditDuration {
  import opened Wrappers
  import opened Text
  import opened Storage
  import opened JsNumbers
  import opened Durations
  import Advertisement

  const SaveError: string := "Simulated save error for Duration!"
  const LabelEmpty: string := "Label cannot be empty."
  const DaysInvalid: string := "Please enter a valid number of days (greater than 0)."
  const SaveFallback: string := "Failed to save. Please try again."

  /** The arguments of one `saveDurationApi` call. */
  datatype SaveRequest = SaveRequest(mode: Mode, labelText: string, valueDays: real, id: Option<Id>)

  /** `saveDurationApi` throws exactly for a label that lower-cases to "error". */
  predicate RejectedLabel(labelText: string) {
    ToLower(labelText) == "error"
  }

  /** The record the save API stores: `{ ...data, id: id ?? Date.now() }`. */
  function NewItem(labelText: string, valueDays: real, id: Option<Id>, now: int): (d: DurationOption)
    ensures d.labelText == labelText && d.valueDays == valueDays
    ensures d.id == (if id.Some? then id.value else Num(now))
  {
    DurationOption(id.GetOr(Num(now)), labelText, valueDays)
  }

  /** `saveDurationApi`. A rejected label throws before the key is read or written.
      Otherwise the item is appended (add) or replaces every item with the same id (edit),
      and the resulting list is written back, even when nothing matched. */
  method SaveDurationApi(store: Store<DurationOption>, mode: Mode, labelText: string, valueDays: real,
                         id: Option<Id>, now: int)
    returns (r: Result<DurationOption>)
    modifies store
    ensures RejectedLabel(labelText) ==>
      r == Failure(SaveError) && store.stored == old(store.stored)
    ensures !RejectedLabel(labelText) ==>
      r == Success(NewItem(labelText, valueDays, id, now)) &&
      store.stored == Some(Upsert(mode, old(store.Current()), DurationId, id, r.value))
  {
    if RejectedLabel(labelText) {
      return Failure(SaveError);
    }
    var item := NewItem(labelText, valueDays, id, now);
    store.Write(Upsert(mode, store.Current(), DurationId, id, item));
    r := Success(item);
  }

  /** The ordered checks of `handleSubmit`, on the label as typed and the parsed day
      count: a blank label is reported first; then a NaN or non-positive day count. */
  function Validate(labelText: string, days: Option<real>): (err: Option<string>)
    ensures IsBlank(labelText) ==> err == Some(LabelEmpty)
    ensures !IsBlank(labelText) && (days.None? || days.value <= 0.0) ==> err == Some(DaysInvalid)
    ensures err == None <==> !IsBlank(labelText) && days.Some? && days.value > 0.0
  {
    if Trim(labelText) == [] then Some(LabelEmpty)
    else if days.None? || days.value <= 0.0 then Some(DaysInvalid)
    else None
  }

  /** Under the laws of `Number`, an empty day field reads as 0 and is always rejected. */
  lemma EmptyDaysRejected(labelText: string, parse: Parse, show: Show)
    requires NumberLaws(parse, show)
    ensures Validate(labelText, parse("")).Some?
  {
  }

  /** Opening an item for edit and submitting it unchanged asks to save exactly that
      item's label and day count, provided the item itself passes the checks. */
  lemma {:induction false} SeededItemResubmits(item: DurationOption, parse: Parse, show: Show)
    requires NumberLaws(parse, show)
    requires !IsBlank(item.labelText) && item.valueDays > 0.0
    ensures parse(show(item.valueDays)) == Some(item.valueDays)
    ensures Validate(item.labelText, parse(show(item.valueDays))) == None
  {
    assert parse(show(item.valueDays)) == Some(item.valueDays);
  }

  class DurationPanel {
    var labelText: string
    var valueDays: string
    var isSaving: bool
    var error: Option<string>

    constructor ()
      ensures labelText == "" && valueDays == "" && !isSaving && error == None
    {
      labelText, valueDays, isSaving, error := "", "", false, None;
    }

    /** The effect on `[isOpen, mode, initialData]`, with the props the page derives.
        While closed nothing changes. When open in edit mode with an item, the label and the
        printed day count are seeded; otherwise both fields are cleared. The error and
        the saving flag are reset either way. */
    method Sync(page: Advertisement.AdvertisementPage, show: Show)
      modifies this
      ensures !page.IsOpen(Advertisement.DurationKind) ==>
        labelText == old(labelText) && valueDays == old(valueDays) &&
        isSaving == old(isSaving) && error == old(error)
      ensures page.IsOpen(Advertisement.DurationKind) ==> error == None && !isSaving
      ensures page.IsOpen(Advertisement.DurationKind) &&
              page.ModeFor(Advertisement.DurationKind) == Edit && page.DurationInitialData().Some? ==>
        labelText == page.DurationInitialData().value.labelText &&
        valueDays == show(page.DurationInitialData().value.valueDays)
      ensures page.IsOpen(Advertisement.DurationKind) &&
              !(page.ModeFor(Advertisement.DurationKind) == Edit && page.DurationInitialData().Some?) ==>
        labelText == "" && valueDays == ""
    {
      if page.IsOpen(Advertisement.DurationKind) {
        var initial := page.DurationInitialData();
        if page.ModeFor(Advertisement.DurationKind) == Edit && initial.Some? {
          labelText := initial.value.labelText;
          valueDays := show(initial.value.valueDays);
        } else {
          labelText := "";
          valueDays := "";
        }
        error := None;
        isSaving := false;
      }
    }

    /** `handleSubmit`. A failed check sets its message and returns before any save call:
        nothing else changes. Otherwise the save API is called with the panel's mode, the
        label as typed (untrimmed), the parsed day count and the edited item's id (none when
        adding). On success the page's Duration refresh key goes up by one and the panel is
        closed, in that order; on failure the thrown message is shown and the page is left
        as it was. Saving is over in every case that reached the save call. */
    method Submit(page: Advertisement.AdvertisementPage, store: Store<DurationOption>, now: int, parse: Parse)
      returns (request: Option<SaveRequest>)
      modifies this, page, store
      ensures labelText == old(labelText) && valueDays == old(valueDays)
      ensures var check := Validate(old(labelText), parse(old(valueDays)));
        check.Some? ==>
          request == None && error == check && isSaving == old(isSaving) &&
          store.stored == old(store.stored) && unchanged(page)
      ensures var check := Validate(old(labelText), parse(old(valueDays)));
        check.None? ==>
          !isSaving &&
          request == Some(SaveRequest(
            old(page.ModeFor(Advertisement.DurationKind)), old(labelText), parse(old(valueDays)).value,
            if old(page.ModeFor(Advertisement.DurationKind)) == Edit && old(page.DurationInitialData()).Some?
            then Some(old(page.DurationInitialData()).value.id) else None))
      ensures request.Some? && RejectedLabel(request.value.labelText) ==>
        error == Some(SaveError) && store.stored == old(store.stored) && unchanged(page)
      ensures request.Some? && !RejectedLabel(request.value.labelText) ==>
        error == None &&
        store.stored == Some(Upsert(request.value.mode, old(store.Current()), DurationId, request.value.id,
                                    NewItem(request.value.labelText, request.value.valueDays, request.value.id, now))) &&
        page.activePanel == None &&
        forall t :: page.RefreshKey(t) == old(page.RefreshKey(t)) + (if t == Advertisement.DurationKind then 1 else 0)
    {
      var mode := page.ModeFor(Advertisement.DurationKind);
      var initial := page.DurationInitialData();
      error := None;
      var days := parse(valueDays);
      var check := Validate(labelText, days);
      if check.Some? {
        error := check;
        return None;
      }
      isSaving := true;
      var itemId := if mode == Edit && initial.Some? then Some(initial.value.id) else None;
      request := Some(SaveRequest(mode, labelText, days.value, itemId));
      Save(page, store, request.value, now);
    }

    /** The part of `handleSubmit` after the checks: the save call, then on success the
        page's Duration key goes up by one and the panel is closed, in that order; on failure
        the thrown message (or the fallback for an empty one) is shown and the page is left
        alone. Saving is over either way. */
    method Save(page: Advertisement.AdvertisementPage, store: Store<DurationOption>, request: SaveRequest, now: int)
      modifies this, page, store
      ensures !isSaving && labelText == old(labelText) && valueDays == old(valueDays)
      ensures RejectedLabel(request.labelText) ==>
        error == Some(SaveError) && store.stored == old(store.stored) && unchanged(page)
      ensures !RejectedLabel(request.labelText) ==>
        error == old(error) &&
        store.stored == Some(Upsert(request.mode, old(store.Current()), DurationId, request.id,
                                    NewItem(request.labelText, request.valueDays, request.id, now))) &&
        page.activePanel == None &&
        forall t :: page.RefreshKey(t) == old(page.RefreshKey(t)) + (if t == Advertisement.DurationKind then 1 else 0)
    {
      var r := SaveDurationApi(store, request.mode, request.labelText, request.valueDays, request.id, now);
      if r.Success? {
        page.SaveSuccess(Advertisement.DurationKind);
        page.ClosePanel();
      } else {
        error := Some(MessageOr(r.message, SaveFallback));
      }
      isSaving := false;
    }
  }
}
