/** The Promotion Power card: its entity, its placeholder fetch and its load messages. */
module PromotionPowers {
  import opened Wrappers
  import opened Storage
  import Cards

  datatype PromotionPower = PromotionPower(id: Id, name: string)

  function PromotionPowerId(p: PromotionPower): Id { p.id }

  /** The two built-in promotion powers. */
  const DefaultPromotionPowers: seq<PromotionPower> := [
    PromotionPower(Num(1), "Standard (Basic reach)"),
    PromotionPower(Num(2), "Premium (Wider reach)")
  ]

  const LoadError: string := "Failed to load promotion powers."

  /** `fetchPromotionPowers`: the stored list when the key is present, otherwise the two
      defaults with ids 1 and 2. */
  function FetchPromotionPowers(stored: Option<seq<PromotionPower>>): (r: seq<PromotionPower>)
    ensures stored.Some? ==> r == stored.value
    ensures stored.None? ==> |r| == 2 && r[0].id == Num(1) && r[1].id == Num(2)
  {
    FetchOrDefault(stored, DefaultPromotionPowers)
  }

  /** A freshly mounted Promotion Power card. */
  method NewCard() returns (card: Cards.ListCard<PromotionPower>)
    ensures fresh(card)
    ensures card.defaults == DefaultPromotionPowers && card.loadError == LoadError
    ensures card.items == [] && card.isLoading && card.error == None && card.lastKey == None
  {
    card := new Cards.ListCard(DefaultPromotionPowers, LoadError);
  }
}
