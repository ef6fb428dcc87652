/** How a save on the advertisement page reaches its card: the panel's success bumps the
    card's refresh key, and the card's next commit sees a new key and reloads the list
    the save API wrote. */
module AdvertisementFlow {
  import opened Wrappers
  import opened Storage
  import opened JsNumbers
  import opened Durations
  import Cards
  import Advertisement
  import EditDuration

  /** Submitting the Duration panel and then re-rendering the Duration card. When the
      card was up to date with its key, a successful save makes it reload and show the
      stored list: the saved item appended when adding; when editing, the saved item in
      place of every stored item with the edited id (the list unchanged when none has it).
      A failed check or a rejected save leaves the key alone,
      so the card does not reload. */
  method SubmitDurationAndRender(page: Advertisement.AdvertisementPage, panel: EditDuration.DurationPanel,
                                 card: Cards.ListCard<DurationOption>, store: Store<DurationOption>,
                                 now: int, parse: Parse)
    returns (request: Option<EditDuration.SaveRequest>, reloaded: bool)
    requires card.lastKey == Some(page.RefreshKey(Advertisement.DurationKind) as int)
    modifies page, panel, card, store
    ensures request.Some? && !EditDuration.RejectedLabel(request.value.labelText) ==>
      reloaded && page.activePanel == None &&
      store.stored == Some(Upsert(request.value.mode, old(store.Current()), DurationId, request.value.id,
                                  EditDuration.NewItem(request.value.labelText, request.value.valueDays, request.value.id, now))) &&
      card.items == store.stored.value && !card.isLoading && card.error == None
    ensures request.None? || EditDuration.RejectedLabel(request.value.labelText) ==>
      !reloaded && card.items == old(card.items) && store.stored == old(store.stored)
  {
    request := panel.Submit(page, store, now, parse);
    reloaded := card.Commit(page.RefreshKey(Advertisement.DurationKind), store, false);
  }
}
