/** The Ad Show card: its entity, its placeholder fetch and its load messages. */
module AdShows {
  import opened Wrappers
  import opened Storage
  import Cards

  datatype AdShowOption = AdShowOption(id: Id, name: string)

  function AdShowId(a: AdShowOption): Id { a.id }

  /** The three built-in ad show options. */
  const DefaultAdShowOptions: seq<AdShowOption> := [
    AdShowOption(Str("as1"), "Premium"),
    AdShowOption(Str("as2"), "High Frequency Display"),
    AdShowOption(Str("as3"), "Top Placement Priority")
  ]

  const LoadError: string := "Failed to load ad show options."

  /** `fetchAdShowOptions`: the stored list when the key is present, otherwise the
      defaults `as1`, `as2`, `as3` in that order. */
  function FetchAdShowOptions(stored: Option<seq<AdShowOption>>): (r: seq<AdShowOption>)
    ensures stored.Some? ==> r == stored.value
    ensures stored.None? ==>
      |r| == 3 && r[0].id == Str("as1") && r[1].id == Str("as2") && r[2].id == Str("as3")
  {
    FetchOrDefault(stored, DefaultAdShowOptions)
  }

  /** A freshly mounted Ad Show card. */
  method NewCard() returns (card: Cards.ListCard<AdShowOption>)
    ensures fresh(card)
    ensures card.defaults == DefaultAdShowOptions && card.loadError == LoadError
    ensures card.items == [] && card.isLoading && card.error == None && card.lastKey == None
  {
    card := new Cards.ListCard(DefaultAdShowOptions, LoadError);
  }
}
