/**
 * The game store of the card board: three named zones, each an ordered list
 * of card ids, the card library, and the two players' names. Cards move
 * between zones by removing the id from one list and appending it to another.
 */
module Game {
  import opened Seqs

  /** `ZoneName`: the three zones of the board. */
  datatype ZoneName = Players | Battlefield | Info

  /** A library entry, `{ id, name }`. */
  datatype Card = Card(id: string, name: string)

  /** `players: { main, opponent }`. */
  datatype PlayerNames = PlayerNames(main: string, opponent: string)

  /** `zones: Record<ZoneName, { cardIds: string[] }>`, with the record wrapper dropped. */
  type Zones = map<ZoneName, seq<string>>

  /** A `Record<ZoneName, …>` has an entry for every zone. */
  predicate HasEveryZone(zones: Zones) {
    forall z: ZoneName :: z in zones
  }

  /** Every id placed in a zone names a card of the library. */
  ghost predicate CardsKnown(zones: Zones, cards: map<string, Card>) {
    forall z, id :: z in zones && id in zones[z] ==> id in cards
  }

  /** The ids on the whole board, counted with multiplicity. */
  function AllCards(zones: Zones): multiset<string>
    requires HasEveryZone(zones)
  {
    multiset(zones[Players]) + multiset(zones[Battlefield]) + multiset(zones[Info])
  }

  /** How many ids the three zones hold together. */
  function Total(zones: Zones): nat
    requires HasEveryZone(zones)
  {
    |zones[Players]| + |zones[Battlefield]| + |zones[Info]|
  }

  /** The library the board starts with. */
  const TestCards: map<string, Card> :=
    map["one" := Card("one", "Lightning Bolt"), "two" := Card("two", "Mountain")]

  /** The zones the board starts with. */
  const InitialZones: Zones :=
    map[Players := [], Battlefield := ["one", "two"], Info := []]

  /** The zones after `addCard(cardId, toZone)`. */
  function AddedTo(zones: Zones, cardId: string, toZone: ZoneName): (r: Zones)
    requires HasEveryZone(zones)
    ensures HasEveryZone(r)
    ensures |r[toZone]| == |zones[toZone]| + 1 && r[toZone][|zones[toZone]|] == cardId
    ensures r[toZone][..|zones[toZone]|] == zones[toZone]
    ensures forall z :: z != toZone ==> r[z] == zones[z]
  {
    zones[toZone := zones[toZone] + [cardId]]
  }

  /** The zones after `removeCard(cardId, fromZone)`. */
  function RemovedFrom(zones: Zones, cardId: string, fromZone: ZoneName): (r: Zones)
    requires HasEveryZone(zones)
    ensures HasEveryZone(r)
    ensures cardId !in r[fromZone]
    ensures forall id :: id != cardId ==> (id in r[fromZone] <==> id in zones[fromZone])
    ensures forall z :: z != fromZone ==> r[z] == zones[z]
  {
    zones[fromZone := Without(zones[fromZone], cardId)]
  }

  /** The zones after `moveCard(cardId, fromZone, toZone)`: a removal, then an append. */
  function Moved(zones: Zones, cardId: string, fromZone: ZoneName, toZone: ZoneName): (r: Zones)
    requires HasEveryZone(zones)
    ensures HasEveryZone(r)
    ensures |r[toZone]| > 0 && r[toZone][|r[toZone]| - 1] == cardId
    ensures fromZone != toZone ==> cardId !in r[fromZone]
    ensures forall z :: z != fromZone && z != toZone ==> r[z] == zones[z]
  {
    AddedTo(RemovedFrom(zones, cardId, fromZone), cardId, toZone)
  }

  /**
   * Removal keeps the other ids of the zone in their order, and drops every
   * copy of the removed id and nothing else.
   */
  lemma RemovalKeepsOthers(zones: Zones, cardId: string, fromZone: ZoneName)
    requires HasEveryZone(zones)
    ensures IsSubsequence(RemovedFrom(zones, cardId, fromZone)[fromZone], zones[fromZone])
    ensures multiset(RemovedFrom(zones, cardId, fromZone)[fromZone]) == multiset(zones[fromZone])[cardId := 0]
  {
    FilterIsSubsequence(Other(cardId), zones[fromZone]);
    WithoutCounts(zones[fromZone], cardId);
  }

  /** Removing an id the zone does not hold changes nothing. */
  lemma RemovingAbsentCard(zones: Zones, cardId: string, fromZone: ZoneName)
    requires HasEveryZone(zones)
    requires cardId !in zones[fromZone]
    ensures RemovedFrom(zones, cardId, fromZone) == zones
  {
    WithoutAbsent(zones[fromZone], cardId);
  }

  /**
   * A move within one zone leaves the card there, as the last id and exactly
   * once, and keeps the order of the others; a card that was not in the zone
   * is added to it.
   */
  lemma MoveWithinZone(zones: Zones, cardId: string, zone: ZoneName)
    requires HasEveryZone(zones)
    ensures Moved(zones, cardId, zone, zone)[zone] == Without(zones[zone], cardId) + [cardId]
    ensures multiset(Moved(zones, cardId, zone, zone)[zone])[cardId] == 1
    ensures Moved(zones, cardId, zone, zone) == zones[zone := Without(zones[zone], cardId) + [cardId]]
  {
    var rest := Without(zones[zone], cardId);
    assert multiset(rest + [cardId])[cardId] == multiset(rest)[cardId] + 1;
  }

  /**
   * A move does not check that the card is in `fromZone`: a card that is not
   * there still lands in `toZone`, and `fromZone` is left as it was.
   */
  lemma MoveOfAbsentCard(zones: Zones, cardId: string, fromZone: ZoneName, toZone: ZoneName)
    requires HasEveryZone(zones)
    requires fromZone != toZone && cardId !in zones[fromZone]
    ensures Moved(zones, cardId, fromZone, toZone) == zones[toZone := zones[toZone] + [cardId]]
  {
    RemovingAbsentCard(zones, cardId, fromZone);
  }

  /**
   * Moving a card that occurs once in `fromZone` keeps the ids on the board:
   * the same multiset, hence the same total.
   */
  lemma MoveKeepsBoard(zones: Zones, cardId: string, fromZone: ZoneName, toZone: ZoneName)
    requires HasEveryZone(zones)
    requires multiset(zones[fromZone])[cardId] == 1
    ensures AllCards(Moved(zones, cardId, fromZone, toZone)) == AllCards(zones)
    ensures Total(Moved(zones, cardId, fromZone, toZone)) == Total(zones)
  {
    var removed := RemovedFrom(zones, cardId, fromZone);
    RemovalTakesOneCopy(zones, cardId, fromZone);
    AppendingAddsOneCopy(removed, cardId, toZone);
    var r := Moved(zones, cardId, fromZone, toZone);
    assert AllCards(r) == AllCards(zones);
    BoardSize(r);
    BoardSize(zones);
  }

  /** Removing an id that occurs once takes exactly that copy off the board. */
  lemma RemovalTakesOneCopy(zones: Zones, cardId: string, fromZone: ZoneName)
    requires HasEveryZone(zones)
    requires multiset(zones[fromZone])[cardId] == 1
    ensures AllCards(RemovedFrom(zones, cardId, fromZone)) + multiset{cardId} == AllCards(zones)
  {
    var rest := Without(zones[fromZone], cardId);
    WithoutCounts(zones[fromZone], cardId);
    assert multiset(rest) + multiset{cardId} == multiset(zones[fromZone]);
    ReplacingZone(zones, fromZone, rest);
  }

  /** Appending an id puts one more copy of it on the board. */
  lemma AppendingAddsOneCopy(zones: Zones, cardId: string, toZone: ZoneName)
    requires HasEveryZone(zones)
    ensures AllCards(AddedTo(zones, cardId, toZone)) == AllCards(zones) + multiset{cardId}
  {
    ReplacingZone(zones, toZone, zones[toZone] + [cardId]);
    assert multiset(zones[toZone] + [cardId]) == multiset(zones[toZone]) + multiset{cardId};
  }

  /** Replacing one zone's list swaps its ids for the new list's in the board's multiset. */
  lemma ReplacingZone(zones: Zones, zone: ZoneName, ids: seq<string>)
    requires HasEveryZone(zones)
    ensures HasEveryZone(zones[zone := ids])
    ensures AllCards(zones[zone := ids]) + multiset(zones[zone]) == AllCards(zones) + multiset(ids)
  {
    var r := zones[zone := ids];
    assert forall z: ZoneName :: z in r;
  }

  /** The board's multiset has one element per placed id. */
  lemma BoardSize(zones: Zones)
    requires HasEveryZone(zones)
    ensures |AllCards(zones)| == Total(zones)
  {
  }

  /** Moving a card of the library keeps every placed id a card of the library. */
  lemma MoveKeepsCardsKnown(zones: Zones, cards: map<string, Card>, cardId: string, fromZone: ZoneName, toZone: ZoneName)
    requires HasEveryZone(zones) && CardsKnown(zones, cards)
    requires cardId in cards
    ensures CardsKnown(Moved(zones, cardId, fromZone, toZone), cards)
  {
  }

  /** The initial record has every zone. */
  lemma InitialZonesComplete()
    ensures HasEveryZone(InitialZones)
  {
    forall z: ZoneName ensures z in InitialZones {
      match z
      case Players =>
      case Battlefield =>
      case Info =>
    }
  }

  /** `GameRoot`'s store: the state record and the three zone operations. */
  class GameRoot {
    var zones: Zones
    var cards: map<string, Card>
    var players: PlayerNames

    /** The zones record has all three entries. */
    ghost predicate Valid()
      reads this
    {
      HasEveryZone(zones)
    }

    /** The initial `GameState`: two cards on the battlefield, the other zones empty. */
    constructor ()
      ensures Valid()
      ensures zones[Battlefield] == ["one", "two"] && zones[Players] == [] && zones[Info] == []
      ensures cards.Keys == {"one", "two"}
      ensures cards["one"] == Card("one", "Lightning Bolt") && cards["two"] == Card("two", "Mountain")
      ensures players == PlayerNames("jesseb34r", "kactuus")
      ensures CardsKnown(zones, cards)
    {
      zones := InitialZones;
      InitialZonesComplete();
      cards := TestCards;
      players := PlayerNames("jesseb34r", "kactuus");
    }

    /** `addCard`: append `cardId` to `toZone`. */
    method AddCard(cardId: string, toZone: ZoneName)
      requires Valid()
      modifies this
      ensures Valid()
      ensures zones == AddedTo(old(zones), cardId, toZone)
      ensures cards == old(cards) && players == old(players)
    {
      zones := zones[toZone := zones[toZone] + [cardId]];
    }

    /** `removeCard`: filter every copy of `cardId` out of `fromZone`. */
    method RemoveCard(cardId: string, fromZone: ZoneName)
      requires Valid()
      modifies this
      ensures Valid()
      ensures zones == RemovedFrom(old(zones), cardId, fromZone)
      ensures cards == old(cards) && players == old(players)
    {
      zones := zones[fromZone := Without(zones[fromZone], cardId)];
    }

    /** `moveCard`: `removeCard` then `addCard`. */
    method MoveCard(cardId: string, fromZone: ZoneName, toZone: ZoneName)
      requires Valid()
      modifies this
      ensures Valid()
      ensures zones == Moved(old(zones), cardId, fromZone, toZone)
      ensures cards == old(cards) && players == old(players)
    {
      RemoveCard(cardId, fromZone);
      AddCard(cardId, toZone);
    }
  }
}
