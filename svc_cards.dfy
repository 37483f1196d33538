// The older card service over the key-value card store: the listing with its in-memory filter and
// sort, and update, save and flip (services/cardsService.go).
module CardsService {
  import opened Wrappers
  import opened Strconv
  import opened Clock
  import opened Cards
  import opened Settings
  import opened Sorting
  import opened DbCards

  predicate Incomplete(c: Card) { !IsCompleted(c) }

  /** The cards the listing holds: every stored card, completed ones dropped when filtering. */
  function ListedCards(filterCompleted: bool, cards: map<string, Card>): set<Card> {
    set c | c in cards.Values && (!filterCompleted || Incomplete(c))
  }

  /** The comparator of FindCards as a sort key, the same rule as for tasks. */
  function CardSortValue(sort: GoInt, dir: GoInt, c: Card): real {
    var v: int :=
      if sort == ColumnCompleted then c.completed
      else if sort == ColumnCreated then c.created
      else if sort == ColumnPriority then c.priority
      else c.created;
    var descending := (sort in {ColumnCompleted, ColumnCreated, ColumnPriority} && dir == Desc)
      || sort !in {ColumnCompleted, ColumnCreated, ColumnPriority};
    if descending then -(v as real) else v as real
  }

  function CardOrderKey(sort: GoInt, dir: GoInt): Card -> real {
    c => CardSortValue(sort, dir, c)
  }

  /** What being in CardOrderKey order means for each column and direction. */
  lemma CardOrderMeaning(s: seq<Card>, sort: GoInt, dir: GoInt, i: int, j: int)
    requires SortedBy(s, CardOrderKey(sort, dir)) && 0 <= i < j < |s|
    ensures sort == ColumnCompleted && dir == Desc ==> s[i].completed >= s[j].completed
    ensures sort == ColumnCompleted && dir != Desc ==> s[i].completed <= s[j].completed
    ensures sort == ColumnCreated && dir == Desc ==> s[i].created >= s[j].created
    ensures sort == ColumnCreated && dir != Desc ==> s[i].created <= s[j].created
    ensures sort == ColumnPriority && dir == Desc ==> s[i].priority >= s[j].priority
    ensures sort == ColumnPriority && dir != Desc ==> s[i].priority <= s[j].priority
    ensures sort !in {ColumnCompleted, ColumnCreated, ColumnPriority} ==> s[i].created >= s[j].created
  {
    assert CardOrderKey(sort, dir)(s[i]) <= CardOrderKey(sort, dir)(s[j]);
  }

  function KeptCards(cards: seq<Card>, filterCompleted: bool): seq<Card> {
    if filterCompleted then Filter(cards, Incomplete) else cards
  }

  /** Filtering a list of all stored cards gives, as a multiset, exactly the listed set. */
  lemma ListedCardsExactly(all: seq<Card>, cards: map<string, Card>, filterCompleted: bool)
    requires multiset(all) == multiset(cards.Values)
    ensures multiset(KeptCards(all, filterCompleted)) == multiset(ListedCards(filterCompleted, cards))
  {
    if filterCompleted {
      FilterMultiset(all, Incomplete);
      forall c ensures multiset(KeptCards(all, filterCompleted))[c] == multiset(ListedCards(filterCompleted, cards))[c] {
        if Incomplete(c) {
          assert multiset(all)[c] == multiset(cards.Values)[c];
        }
      }
    } else {
      assert ListedCards(filterCompleted, cards) == cards.Values;
    }
  }

  /** FindCards: all cards, completed ones dropped in place when filtering, then sorted in place. */
  method FindCards(store: CardStore, filterCompleted: bool, sort: GoInt, dir: GoInt) returns (r: seq<Card>)
    ensures multiset(r) == multiset(ListedCards(filterCompleted, store.cards))
    ensures SortedBy(r, CardOrderKey(sort, dir))
  {
    var cards := store.AllCards();
    var a := new Card[|cards|](i requires 0 <= i < |cards| => cards[i]);
    assert a[..] == cards;
    var n := a.Length;
    if filterCompleted {
      n := FilterInPlace(a, Incomplete);
    }
    assert a[..n] == KeptCards(cards, filterCompleted);
    SortInPlace(a, n, CardOrderKey(sort, dir));
    ListedCardsExactly(cards, store.cards, filterCompleted);
    return a[..n];
  }

  /** The same change applied twice gives what it gives once. */
  lemma CardUpdateIdempotent(c: Card, change: Card, now: Time)
    ensures Update(Update(c, change, now), change, now) == Update(c, change, now)
  {
  }

  /** UpdateCard: an unknown id is reported and nothing is saved; otherwise the found card, updated, is. */
  method UpdateCard(store: CardStore, c: Card, now: Time) returns (r: Outcome<StoreError>)
    requires store.Valid()
    modifies store
    ensures store.Valid()
    ensures r == if c.id in old(store.cards) then Pass else Fail(ErrNotFound)
    ensures store.cards == if r.Pass? then old(store.cards)[c.id := Update(old(store.cards)[c.id], c, now)] else old(store.cards)
  {
    var found := store.FindCard(c.id);
    if found.Err? {
      return Fail(found.error);
    }
    var card := Update(found.value, c, now);
    store.SaveCard(card);
    return Pass;
  }

  /** SaveCard: the store's set. */
  method SaveCard(store: CardStore, c: Card)
    requires store.Valid()
    modifies store
    ensures store.Valid()
    ensures store.cards == old(store.cards)[c.id := c]
  {
    store.SaveCard(c);
  }

  /** The card FlipCard saves: completed now when it was not completed, not completed otherwise. */
  function FlippedCard(c: Card, now: Time): (r: Card)
    ensures now != NotCompleted ==> (IsCompleted(r) <==> !IsCompleted(c))
    ensures IsCompleted(c) ==> r.completed == NotCompleted
    ensures r.updated == now && r.(completed := c.completed, updated := c.updated) == c
  {
    if c.completed == NotCompleted then Complete(c, now) else Uncomplete(c, now)
  }

  /** Flipping a not completed card twice gives it back, touched at the second time. */
  lemma FlipCardTwice(c: Card, now: Time, later: Time)
    requires !IsCompleted(c) && now != NotCompleted
    ensures FlippedCard(FlippedCard(c, now), later) == c.(updated := later)
  {
  }

  /** FlipCard: saves the card with its completion toggled. */
  method FlipCard(store: CardStore, card: Card, now: Time)
    requires store.Valid()
    modifies store
    ensures store.Valid()
    ensures store.cards == old(store.cards)[card.id := FlippedCard(card, now)]
  {
    var flipped := if card.completed == NotCompleted then Complete(card, now) else Uncomplete(card, now);
    store.SaveCard(flipped);
  }
}
