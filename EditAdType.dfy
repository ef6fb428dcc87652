/** The Ad Type edit panel: the effect that seeds the form when the panel opens and the
    submit handler. The body of its save API is elided in the program, so whether the
    call resolves or rejects is an input, and what it stores is not modelled. */
module EditAdType {
  import opened Wrappers
  import opened Text
  import opened Storage
  import opened JsNumbers
  import opened AdTypes
  import Advertisement

  const PriceInvalid: string := "Please enter a valid positive price."
  const SaveFallback: string := "Failed to save. Please try again."
  /** Every saved ad type is priced in naira. */
  const Currency: string := "NGN"

  /** The arguments of one `saveAdTypeApi` call. */
  datatype SaveRequest = SaveRequest(mode: Mode, name: string, price: real, currency: string, id: Option<Id>)

  /** The only check of `handleSubmit`: the parsed price must be a number and not
      negative. Zero passes, and the name is not checked at all. */
  function Validate(price: Option<real>): (err: Option<string>)
    ensures err == None <==> price.Some? && price.value >= 0.0
    ensures err.Some? ==> err == Some(PriceInvalid)
  {
    if price.None? || price.value < 0.0 then Some(PriceInvalid) else None
  }

  /** Under the laws of `Number`, an empty price field reads as 0 and is accepted. */
  lemma EmptyPriceAccepted(parse: Parse, show: Show)
    requires NumberLaws(parse, show)
    ensures Validate(parse("")) == None
    ensures parse("").value == 0.0
  {
  }

  /** Opening a stored ad type for edit and submitting it unchanged passes the check and
      asks to save its own price, provided that price is not negative. */
  lemma {:induction false} SeededPriceResubmits(item: AdType, parse: Parse, show: Show)
    requires NumberLaws(parse, show)
    requires item.price >= 0.0
    ensures Validate(parse(show(item.price))) == None
    ensures parse(show(item.price)).value == item.price
  {
    assert parse(show(item.price)) == Some(item.price);
  }

  class AdTypePanel {
    var name: string
    var price: string
    var isSaving: bool
    var error: Option<string>

    constructor ()
      ensures name == "" && price == "" && !isSaving && error == None
    {
      name, price, isSaving, error := "", "", false, None;
    }

    /** The effect on `[isOpen, mode, initialData]`: while closed nothing changes; when
        open in edit mode with an item, the name and the printed price are seeded, and
        otherwise both fields are cleared; the error and saving flag are reset either way. */
    method Sync(page: Advertisement.AdvertisementPage, show: Show)
      modifies this
      ensures !page.IsOpen(Advertisement.AdTypeKind) ==>
        name == old(name) && price == old(price) && isSaving == old(isSaving) && error == old(error)
      ensures page.IsOpen(Advertisement.AdTypeKind) ==> error == None && !isSaving
      ensures page.IsOpen(Advertisement.AdTypeKind) &&
              page.ModeFor(Advertisement.AdTypeKind) == Edit && page.AdTypeInitialData().Some? ==>
        name == page.AdTypeInitialData().value.name &&
        price == show(page.AdTypeInitialData().value.price)
      ensures page.IsOpen(Advertisement.AdTypeKind) &&
              !(page.ModeFor(Advertisement.AdTypeKind) == Edit && page.AdTypeInitialData().Some?) ==>
        name == "" && price == ""
    {
      if page.IsOpen(Advertisement.AdTypeKind) {
        var initial := page.AdTypeInitialData();
        if page.ModeFor(Advertisement.AdTypeKind) == Edit && initial.Some? {
          name := initial.value.name;
          price := show(initial.value.price);
        } else {
          name := "";
          price := "";
        }
        error := None;
        isSaving := false;
      }
    }

    /** `handleSubmit`, given how the awaited `saveAdTypeApi` call settles. A NaN or
        negative price sets its message, clears the saving flag and returns before the save
        call; the page is untouched. Otherwise the name as typed, the parsed price and "NGN"
        are sent with the edited item's id (none when adding). When the call resolves, the
        page's Ad Type key goes up by one and the panel is closed; when it rejects, the
        thrown message (or the fallback for an empty one) is shown and the page is left
        alone. Saving is over in every case. */
    method Submit(page: Advertisement.AdvertisementPage, parse: Parse, outcome: Outcome)
      returns (request: Option<SaveRequest>)
      modifies this, page
      ensures name == old(name) && price == old(price) && !isSaving
      ensures Validate(parse(old(price))).Some? ==>
        request == None && error == Some(PriceInvalid) && unchanged(page)
      ensures Validate(parse(old(price))).None? ==>
        request == Some(SaveRequest(
          old(page.ModeFor(Advertisement.AdTypeKind)), old(name), parse(old(price)).value, Currency,
          if old(page.ModeFor(Advertisement.AdTypeKind)) == Edit && old(page.AdTypeInitialData()).Some?
          then Some(old(page.AdTypeInitialData()).value.id) else None))
      ensures request.Some? && outcome.Resolved? ==>
        error == None && page.activePanel == None &&
        forall t :: page.RefreshKey(t) == old(page.RefreshKey(t)) + (if t == Advertisement.AdTypeKind then 1 else 0)
      ensures request.Some? && outcome.Rejected? ==>
        error == Some(MessageOr(outcome.message, SaveFallback)) && unchanged(page)
    {
      var mode := page.ModeFor(Advertisement.AdTypeKind);
      var initial := page.AdTypeInitialData();
      error := None;
      isSaving := true;
      var priceNumber := parse(price);
      var check := Validate(priceNumber);
      if check.Some? {
        error := check;
        isSaving := false;
        return None;
      }
      var itemId := if mode == Edit && initial.Some? then Some(initial.value.id) else None;
      request := Some(SaveRequest(mode, name, priceNumber.value, Currency, itemId));
      if outcome.Resolved? {
        page.SaveSuccess(Advertisement.AdTypeKind);
        page.ClosePanel();
      } else {
        error := Some(MessageOr(outcome.message, SaveFallback));
      }
      isSaving := false;
    }
  }
}
