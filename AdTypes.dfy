/** The Ad Type card: its entity, its placeholder fetch and its load messages. */
module AdTypes {
  import opened Wrappers
  import opened Storage
  import Cards

  datatype AdType = AdType(id: Id, name: string, price: real, currency: string)

  function AdTypeId(a: AdType): Id { a.id }

  /** The three built-in ad types. */
  const DefaultAdTypes: seq<AdType> := [
    AdType(Num(1), "Sponsored Post", 10000.0, "NGN"),
    AdType(Num(2), "Banner Ad", 10000.0, "NGN"),
    AdType(Num(3), "Pop-up Ad", 10000.0, "NGN")
  ]

  const LoadError: string := "Failed to load ad types."

  /** `fetchAdTypes`: the stored list when the key is present, otherwise the three
      defaults with ids 1, 2, 3, each priced 10000 NGN. */
  function FetchAdTypes(stored: Option<seq<AdType>>): (r: seq<AdType>)
    ensures stored.Some? ==> r == stored.value
    ensures stored.None? ==>
      |r| == 3 &&
      forall i | 0 <= i < 3 :: r[i].id == Num(i + 1) && r[i].price == 10000.0 && r[i].currency == "NGN"
  {
    FetchOrDefault(stored, DefaultAdTypes)
  }

  /** A freshly mounted Ad Type card. */
  method NewCard() returns (card: Cards.ListCard<AdType>)
    ensures fresh(card)
    ensures card.defaults == DefaultAdTypes && card.loadError == LoadError
    ensures card.items == [] && card.isLoading && card.error == None && card.lastKey == None
  {
    card := new Cards.ListCard(DefaultAdTypes, LoadError);
  }
}
