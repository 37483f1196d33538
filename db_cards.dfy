// The older card store: a key-value store holding each card as a JSON value under "card:" + id
// (db/db.go). The JSON encoding is taken to round-trip, so a stored value is the card itself.
module DbCards {
  import opened Wrappers
  import opened Cards
  import Sorting

  const CardPrefix: string := "card:"

  /** A key of the store, given a card id. */
  function CardKey(id: string): (k: string)
    ensures |k| == |CardPrefix| + |id| && k[..|CardPrefix|] == CardPrefix && k[|CardPrefix|..] == id
  {
    CardPrefix + id
  }

  /** Distinct ids never share a key. */
  lemma CardKeyInjective(a: string, b: string)
    ensures CardKey(a) == CardKey(b) ==> a == b
  {
    if CardKey(a) == CardKey(b) {
      assert a == CardKey(a)[|CardPrefix|..];
    }
  }

  datatype StoreError = ErrNotFound

  class CardStore {
    /** The cards by id; the key prefix is left implicit. */
    var cards: map<string, Card>

    /** SaveCard stores each card under its own id. */
    ghost predicate Valid()
      reads this
    {
      forall id | id in cards :: cards[id].id == id
    }

    constructor ()
      ensures cards == map[] && Valid()
    {
      cards := map[];
    }

    /** Cards: every stored card once, in some order. */
    method AllCards() returns (r: seq<Card>)
      ensures multiset(r) == multiset(cards.Values)
    {
      r := Sorting.Enumerate(cards.Values);
    }

    /** FindCard: the card stored under the id, or ErrNotFound. */
    method FindCard(cardId: string) returns (r: Result<Card, StoreError>)
      requires Valid()
      ensures r == if cardId in cards then Ok(cards[cardId]) else Err(ErrNotFound)
      ensures r.Ok? ==> r.value.id == cardId
    {
      if cardId !in cards {
        return Err(ErrNotFound);
      }
      return Ok(cards[cardId]);
    }

    /** SaveCard: sets the value under the card's key, replacing any earlier one. */
    method SaveCard(card: Card)
      requires Valid()
      modifies this
      ensures Valid()
      ensures cards == old(cards)[card.id := card]
    {
      cards := cards[card.id := card];
    }

    /** DeleteAllCards: deletes every key with the card prefix. */
    method DeleteAllCards()
      modifies this
      ensures Valid() && cards == map[]
    {
      cards := map[];
    }
  }
}
