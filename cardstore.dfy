/**
 * The deck store of the card-sorting app: an ordered queue of unreviewed
 * cards and an ordered list of saved cards, with the two operations that
 * replace them (append a saved card; remove every card with a given id).
 */
module CardStore {

  /** A card record; ids are integers (the store never makes other numbers). */
  datatype Card = Card(id: int, title: string, description: string)

  /** Number of cards the store is created with. */
  const InitialCount: nat := 50

  /** The description every generated card carries. */
  const Description: string :=
    "Swipe left to keep, right to trash. Try to keep only the most important cards."

  // ---------------------------------------------------------------------
  // Card generation

  function DigitChar(d: nat): (ch: char)
    requires d < 10
    ensures '0' <= ch <= '9'
    ensures ch as int - '0' as int == d
  {
    "0123456789"[d]
  }

  /** The decimal rendering of `n`, as a template literal prints a number. */
  function Decimal(n: nat): (r: string)
    ensures |r| >= 1
    ensures forall k :: 0 <= k < |r| ==> '0' <= r[k] <= '9'
    ensures (r[0] == '0') == (n == 0)
    ensures n < 10 <==> |r| == 1
    decreases n
  {
    if n < 10 then [DigitChar(n)] else Decimal(n / 10) + [DigitChar(n % 10)]
  }

  /** The number a string of decimal digits denotes, most significant digit first. */
  function DigitsValue(s: string): nat
    requires forall k :: 0 <= k < |s| ==> '0' <= s[k] <= '9'
    decreases |s|
  {
    if s == [] then 0
    else DigitsValue(s[..|s| - 1]) * 10 + (s[|s| - 1] as int - '0' as int)
  }

  /** Reading the rendered digits back gives the number that was rendered. */
  lemma {:induction false} DecimalValue(n: nat)
    ensures DigitsValue(Decimal(n)) == n
    decreases n
  {
    if n >= 10 {
      var r := Decimal(n);
      assert r[..|r| - 1] == Decimal(n / 10);
      DecimalValue(n / 10);
    }
  }

  /** Different numbers render differently, so the generated titles are distinct. */
  lemma InitialTitlesUnique(i: nat, j: nat)
    requires i < j < InitialCount
    ensures InitialCards()[i].title != InitialCards()[j].title
  {
    var a, b := InitialCards()[i].title, InitialCards()[j].title;
    if a == b {
      assert a[5..] == Decimal(i + 1) && b[5..] == Decimal(j + 1);
      DecimalValue(i + 1);
      DecimalValue(j + 1);
    }
  }

  /** The card generated at position `i` of the initial queue. */
  function GeneratedCard(i: nat): Card
  {
    Card(i + 1, "Card " + Decimal(i + 1), Description)
  }

  // ---------------------------------------------------------------------
  // Properties of card lists

  /** Ids strictly increase from front to back. */
  ghost predicate IdsIncreasing(s: seq<Card>)
  {
    forall i, j :: 0 <= i < j < |s| ==> s[i].id < s[j].id
  }

  /** No two cards of `s` share an id. */
  ghost predicate UniqueIds(s: seq<Card>)
  {
    forall i, j :: 0 <= i < j < |s| ==> s[i].id != s[j].id
  }

  /** Some card of `s` has id `id`. */
  ghost predicate HasId(s: seq<Card>, id: int)
  {
    exists k :: 0 <= k < |s| && s[k].id == id
  }

  /** `a` is obtained from `b` by deleting elements, keeping the order of the rest. */
  ghost predicate IsSubsequence(a: seq<Card>, b: seq<Card>)
    decreases |b|
  {
    || a == []
    || (b != [] && ((a[0] == b[0] && IsSubsequence(a[1..], b[1..])) || IsSubsequence(a, b[1..])))
  }

  // ---------------------------------------------------------------------
  // The new values computed by the two operations

  /** The initial queue: 50 cards with ids 1..50 in ascending order. */
  function InitialCards(): (r: seq<Card>)
    ensures |r| == InitialCount
    ensures forall i :: 0 <= i < |r| ==> r[i].id == i + 1
    ensures forall i :: 0 <= i < |r| ==> r[i].title == "Card " + Decimal(i + 1)
    ensures forall i :: 0 <= i < |r| ==> r[i].description == Description
    ensures IdsIncreasing(r) && UniqueIds(r)
  {
    seq(InitialCount, (i: int) requires 0 <= i => GeneratedCard(i))
  }

  /** `[...saved, card]`: the saved list with `card` at its end. */
  function Append(saved: seq<Card>, card: Card): (r: seq<Card>)
    ensures |r| == |saved| + 1
    ensures r[..|saved|] == saved
    ensures r[|saved|] == card
    ensures forall c :: c in r <==> c in saved || c == card
  {
    saved + [card]
  }

  /** `cards.filter(card => card.id !== id)`. */
  function RemoveById(cards: seq<Card>, id: int): (r: seq<Card>)
    ensures |r| <= |cards|
    ensures forall k :: 0 <= k < |r| ==> r[k].id != id
    ensures forall c :: c in r ==> c in cards
    ensures forall c :: c in cards && c.id != id ==> c in r
    decreases |cards|
  {
    if cards == [] then []
    else if cards[0].id != id then [cards[0]] + RemoveById(cards[1..], id)
    else RemoveById(cards[1..], id)
  }

  // ---------------------------------------------------------------------
  // Lemmas about removal

  /** The cards that remain keep their relative order: they form a subsequence of the old list. */
  lemma {:induction false} RemoveIsSubsequence(cards: seq<Card>, id: int)
    ensures IsSubsequence(RemoveById(cards, id), cards)
    decreases |cards|
  {
    if cards != [] {
      var tail := cards[1..];
      var rest := RemoveById(tail, id);
      RemoveIsSubsequence(tail, id);
      if cards[0].id != id {
        var r := [cards[0]] + rest;
        assert RemoveById(cards, id) == r && r[1..] == rest;
      } else {
        assert RemoveById(cards, id) == rest;
        assert rest != [] ==> rest[0] != cards[0];
      }
    }
  }

  /** Every card keeps its multiplicity unless its id is the removed one. */
  lemma {:induction false} RemoveMultiplicity(cards: seq<Card>, id: int, c: Card)
    ensures multiset(RemoveById(cards, id))[c] == if c.id == id then 0 else multiset(cards)[c]
    decreases |cards|
  {
    if cards != [] {
      var tail := cards[1..];
      RemoveMultiplicity(tail, id, c);
      assert cards == [cards[0]] + tail;
      assert multiset(cards) == multiset([cards[0]]) + multiset(tail);
      if cards[0].id != id {
        assert RemoveById(cards, id) == [cards[0]] + RemoveById(tail, id);
        assert multiset(RemoveById(cards, id)) == multiset([cards[0]]) + multiset(RemoveById(tail, id));
      } else {
        assert RemoveById(cards, id) == RemoveById(tail, id);
      }
    }
  }

  /** Filtering a concatenation filters each part: relative order is kept. */
  lemma {:induction false} RemoveConcat(a: seq<Card>, b: seq<Card>, id: int)
    ensures RemoveById(a + b, id) == RemoveById(a, id) + RemoveById(b, id)
    decreases |a|
  {
    if a != [] {
      assert (a + b)[1..] == a[1..] + b;
      RemoveConcat(a[1..], b, id);
    } else {
      assert a + b == b;
    }
  }

  /** Removing an id that no card has leaves the list as it was. */
  lemma {:induction false} RemoveAbsent(cards: seq<Card>, id: int)
    requires !HasId(cards, id)
    ensures RemoveById(cards, id) == cards
    decreases |cards|
  {
    if cards != [] {
      assert cards[0].id != id;
      assert !HasId(cards[1..], id) by {
        forall k | 0 <= k < |cards[1..]| ensures cards[1..][k].id != id {
          assert cards[1..][k] == cards[k + 1];
        }
      }
      RemoveAbsent(cards[1..], id);
      assert cards == [cards[0]] + cards[1..];
    }
  }

  /** Removing the same id twice is the same as removing it once. */
  lemma {:induction false} RemoveIdempotent(cards: seq<Card>, id: int)
    ensures RemoveById(RemoveById(cards, id), id) == RemoveById(cards, id)
  {
    RemoveAbsent(RemoveById(cards, id), id);
  }

  /** Removal keeps a strict lower bound on the ids. */
  lemma {:induction false} RemoveKeepsLowerBound(cards: seq<Card>, id: int, bound: int)
    requires forall k :: 0 <= k < |cards| ==> bound < cards[k].id
    ensures forall k :: 0 <= k < |RemoveById(cards, id)| ==> bound < RemoveById(cards, id)[k].id
    decreases |cards|
  {
    if cards != [] {
      RemoveKeepsLowerBound(cards[1..], id, bound);
    }
  }

  lemma TailIncreasing(cards: seq<Card>)
    requires cards != [] && IdsIncreasing(cards)
    ensures IdsIncreasing(cards[1..])
  {
    forall i, j | 0 <= i < j < |cards| - 1 ensures cards[1..][i].id < cards[1..][j].id {
      assert cards[1..][i] == cards[i + 1] && cards[1..][j] == cards[j + 1];
    }
  }

  lemma ConsIncreasing(c: Card, rest: seq<Card>)
    requires IdsIncreasing(rest)
    requires forall k :: 0 <= k < |rest| ==> c.id < rest[k].id
    ensures IdsIncreasing([c] + rest)
  {
    var r := [c] + rest;
    forall i, j | 0 <= i < j < |r| ensures r[i].id < r[j].id {
      assert r[j] == rest[j - 1];
      if i > 0 {
        assert r[i] == rest[i - 1];
      }
    }
  }

  /** Removal keeps ids strictly increasing. */
  lemma {:induction false} RemovePreservesIncreasing(cards: seq<Card>, id: int)
    requires IdsIncreasing(cards)
    ensures IdsIncreasing(RemoveById(cards, id))
    decreases |cards|
  {
    if cards != [] {
      var tail := cards[1..];
      TailIncreasing(cards);
      RemovePreservesIncreasing(tail, id);
      if cards[0].id != id {
        RemoveKeepsLowerBound(tail, id, cards[0].id);
        ConsIncreasing(cards[0], RemoveById(tail, id));
      }
    }
  }

  /** Removal keeps ids unique. */
  lemma {:induction false} RemovePreservesUnique(cards: seq<Card>, id: int)
    requires UniqueIds(cards)
    ensures UniqueIds(RemoveById(cards, id))
    decreases |cards|
  {
    if cards != [] {
      var rest := RemoveById(cards[1..], id);
      assert UniqueIds(cards[1..]) by {
        forall i, j | 0 <= i < j < |cards[1..]| ensures cards[1..][i].id != cards[1..][j].id {
          assert cards[1..][i] == cards[i + 1] && cards[1..][j] == cards[j + 1];
        }
      }
      RemovePreservesUnique(cards[1..], id);
      forall k | 0 <= k < |rest| ensures cards[0].id != rest[k].id {
        assert rest[k] in cards[1..];
        var m :| 0 <= m < |cards[1..]| && cards[1..][m] == rest[k];
        assert cards[1..][m] == cards[m + 1];
      }
    }
  }

  /** With unique ids, removing a present id deletes exactly one card. */
  lemma {:induction false} RemovePresentUnique(cards: seq<Card>, id: int)
    requires UniqueIds(cards) && HasId(cards, id)
    ensures |RemoveById(cards, id)| == |cards| - 1
    ensures UniqueIds(RemoveById(cards, id))
    decreases |cards|
  {
    RemovePreservesUnique(cards, id);
    if cards[0].id == id {
      assert !HasId(cards[1..], id) by {
        forall k | 0 <= k < |cards[1..]| ensures cards[1..][k].id != id {
          assert cards[1..][k] == cards[k + 1];
        }
      }
      RemoveAbsent(cards[1..], id);
    } else {
      assert UniqueIds(cards[1..]) by {
        forall i, j | 0 <= i < j < |cards[1..]| ensures cards[1..][i].id != cards[1..][j].id {
          assert cards[1..][i] == cards[i + 1] && cards[1..][j] == cards[j + 1];
        }
      }
      var k :| 0 <= k < |cards| && cards[k].id == id;
      assert cards[1..][k - 1] == cards[k];
      RemovePresentUnique(cards[1..], id);
    }
  }

  /** With unique ids, removing the front card's id drops just the front card. */
  lemma RemoveFront(cards: seq<Card>)
    requires UniqueIds(cards) && cards != []
    ensures RemoveById(cards, cards[0].id) == cards[1..]
  {
    assert !HasId(cards[1..], cards[0].id) by {
      forall k | 0 <= k < |cards[1..]| ensures cards[1..][k].id != cards[0].id {
        assert cards[1..][k] == cards[k + 1];
      }
    }
    RemoveAbsent(cards[1..], cards[0].id);
  }

  // ---------------------------------------------------------------------
  // Subsequences

  lemma {:induction false} SubsequenceReflexive(s: seq<Card>)
    ensures IsSubsequence(s, s)
    decreases |s|
  {
    if s != [] {
      SubsequenceReflexive(s[1..]);
    }
  }

  lemma {:induction false} SubsequenceTransitive(a: seq<Card>, b: seq<Card>, c: seq<Card>)
    requires IsSubsequence(a, b) && IsSubsequence(b, c)
    ensures IsSubsequence(a, c)
    decreases |c|
  {
    if a != [] {
      assert b != [] && c != [];
      if IsSubsequence(b, c[1..]) {
        SubsequenceTransitive(a, b, c[1..]);
      } else if IsSubsequence(a, b[1..]) {
        SubsequenceTransitive(a, b[1..], c[1..]);
      } else {
        SubsequenceTransitive(a[1..], b[1..], c[1..]);
      }
    }
  }

  // ---------------------------------------------------------------------
  // Runs of store operations

  /** The two data fields of the store. */
  datatype CardState = CardState(cards: seq<Card>, savedCards: seq<Card>)

  /** A call of one of the store's two operations. */
  datatype Action = AddSavedCard(card: Card) | RemoveCard(cardId: int)

  /** One operation: replace the field it names, keep the other. */
  function Step(st: CardState, a: Action): CardState
  {
    match a
    case AddSavedCard(card) => st.(savedCards := Append(st.savedCards, card))
    case RemoveCard(cardId) => st.(cards := RemoveById(st.cards, cardId))
  }

  /** The operations of `actions`, one after another. */
  function Run(st: CardState, actions: seq<Action>): CardState
    decreases |actions|
  {
    if actions == [] then st else Run(Step(st, actions[0]), actions[1..])
  }

  /** The cards the `AddSavedCard` calls of `actions` pass, in call order. */
  function AddedCards(actions: seq<Action>): seq<Card>
    decreases |actions|
  {
    if actions == [] then []
    else (if actions[0].AddSavedCard? then [actions[0].card] else []) + AddedCards(actions[1..])
  }

  /** No run of operations grows or reorders the queue, whatever the queue was. */
  lemma {:induction false} RunQueue(st: CardState, actions: seq<Action>)
    ensures IsSubsequence(Run(st, actions).cards, st.cards)
    ensures |Run(st, actions).cards| <= |st.cards|
    decreases |actions|
  {
    if actions == [] {
      SubsequenceReflexive(st.cards);
    } else {
      var next := Step(st, actions[0]);
      if actions[0].AddSavedCard? {
        SubsequenceReflexive(st.cards);
      } else {
        RemoveIsSubsequence(st.cards, actions[0].cardId);
      }
      RunQueue(next, actions[1..]);
      SubsequenceTransitive(Run(next, actions[1..]).cards, next.cards, st.cards);
    }
  }

  /** No run of operations breaks the increasing order of the queue's ids. */
  lemma {:induction false} RunQueueIds(st: CardState, actions: seq<Action>)
    requires IdsIncreasing(st.cards)
    ensures IdsIncreasing(Run(st, actions).cards)
    decreases |actions|
  {
    if actions != [] {
      if actions[0].RemoveCard? {
        RemovePreservesIncreasing(st.cards, actions[0].cardId);
      }
      RunQueueIds(Step(st, actions[0]), actions[1..]);
    }
  }

  /** The saved list gains exactly the added cards, in call order. */
  lemma {:induction false} RunSaved(st: CardState, actions: seq<Action>)
    ensures Run(st, actions).savedCards == st.savedCards + AddedCards(actions)
    decreases |actions|
  {
    if actions != [] {
      var next, rest := Step(st, actions[0]), actions[1..];
      var added := if actions[0].AddSavedCard? then [actions[0].card] else [];
      assert next.savedCards == st.savedCards + added;
      RunSaved(next, rest);
      assert st.savedCards + added + AddedCards(rest) == st.savedCards + (added + AddedCards(rest));
    }
  }

  /** From the initial state, the queue stays an ordered selection of the 50 generated cards. */
  lemma {:induction false} RunFromInitial(actions: seq<Action>)
    ensures IsSubsequence(Run(CardState(InitialCards(), []), actions).cards, InitialCards())
    ensures IdsIncreasing(Run(CardState(InitialCards(), []), actions).cards)
    ensures Run(CardState(InitialCards(), []), actions).savedCards == AddedCards(actions)
  {
    RunQueue(CardState(InitialCards(), []), actions);
    RunQueueIds(CardState(InitialCards(), []), actions);
    RunSaved(CardState(InitialCards(), []), actions);
  }

  // ---------------------------------------------------------------------
  // The store

  /**
   * The store object. Each operation replaces exactly one field, the way
   * the state library's `set` merges a partial state into the old one.
   */
  class Store {
    var cards: seq<Card>
    var savedCards: seq<Card>

    /** The queue's ids are strictly increasing (hence unique). */
    ghost predicate Valid()
      reads this
    {
      IdsIncreasing(cards)
    }

    constructor ()
      ensures cards == InitialCards() && savedCards == []
      ensures Valid()
    {
      cards := InitialCards();
      savedCards := [];
    }

    /** `addSavedCard(card)`: append `card` to the saved list. */
    method AddSavedCard(card: Card)
      modifies this`savedCards
      ensures savedCards == Append(old(savedCards), card)
      ensures cards == old(cards)
      ensures Valid() == old(Valid())
    {
      savedCards := Append(savedCards, card);
    }

    /** `removeCard(cardId)`: drop every card of the queue whose id is `cardId`. */
    method RemoveCard(cardId: int)
      modifies this`cards
      ensures cards == RemoveById(old(cards), cardId)
      ensures savedCards == old(savedCards)
      ensures old(Valid()) ==> Valid()
      ensures old(Valid()) && HasId(old(cards), cardId) ==> |cards| == |old(cards)| - 1
      ensures !HasId(old(cards), cardId) ==> cards == old(cards)
    {
      if Valid() {
        RemovePreservesIncreasing(cards, cardId);
        if HasId(cards, cardId) {
          RemovePresentUnique(cards, cardId);
        }
      }
      if !HasId(cards, cardId) {
        RemoveAbsent(cards, cardId);
      }
      cards := RemoveById(cards, cardId);
    }

    /** One store call of either kind: the state afterwards is the one `Step` gives. */
    method Apply(a: Action)
      modifies this`cards, this`savedCards
      ensures CardState(cards, savedCards) == Step(old(CardState(cards, savedCards)), a)
    {
      match a
      case AddSavedCard(card) => AddSavedCard(card);
      case RemoveCard(cardId) => RemoveCard(cardId);
    }
  }
}
