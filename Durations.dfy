/** The Duration card: its entity, its placeholder fetch and its load messages. */
module Durations {
  import opened Wrappers
  import opened Storage
  import Cards

  /** `valueDays` is a JavaScript number; it is modelled as a real. */
  datatype DurationOption = DurationOption(id: Id, labelText: string, valueDays: real)

  function DurationId(d: DurationOption): Id { d.id }

  /** The three built-in durations. */
  const DefaultDurations: seq<DurationOption> := [
    DurationOption(Num(1), "7 Days", 7.0),
    DurationOption(Num(2), "14 Days", 14.0),
    DurationOption(Num(3), "1 Month", 30.0)
  ]

  const LoadError: string := "Failed to load durations."

  /** `fetchDurations`: the stored list when the key is present, otherwise 7, 14 and 30
      days with ids 1, 2, 3. */
  function FetchDurations(stored: Option<seq<DurationOption>>): (r: seq<DurationOption>)
    ensures stored.Some? ==> r == stored.value
    ensures stored.None? ==>
      |r| == 3 && r[0].valueDays == 7.0 && r[1].valueDays == 14.0 && r[2].valueDays == 30.0 &&
      forall i | 0 <= i < 3 :: r[i].id == Num(i + 1)
  {
    FetchOrDefault(stored, DefaultDurations)
  }

  /** A freshly mounted Duration card. */
  method NewCard() returns (card: Cards.ListCard<DurationOption>)
    ensures fresh(card)
    ensures card.defaults == DefaultDurations && card.loadError == LoadError
    ensures card.items == [] && card.isLoading && card.error == None && card.lastKey == None
  {
    card := new Cards.ListCard(DefaultDurations, LoadError);
  }
}
