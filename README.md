# Deck store of the card-sorting app

This project models the state store of a swipeable card-sorting app. The store holds two
ordered lists of `Card` records (`id`, `title`, `description`):

- `cards` is the queue of unreviewed cards. It starts as 50 generated cards with ids 1..50 in ascending order,
  titled `Card 1` … `Card 50`.
- `savedCards` is the list of kept cards. It starts empty.

The store has two operations. Each one replaces exactly one of the two lists:

- `addSavedCard(card)` appends `card` to `savedCards`. There is no capacity check.
- `removeCard(cardId)` keeps only the cards of `cards` whose id differs from `cardId`, in their old order.
  The id does not have to be the front card's.

Everything is in `cardstore.dfy`, module `CardStore`:

- The store itself is the class `Store`. Its two fields are `seq<Card>` values, and its methods assign one field each.
- The methods compute the new values with two pure functions: `Append` and `RemoveById`.
- Lemmas about `RemoveById` state the properties of filtering by id.
- `Step` and `Run` apply the same two functions to a `CardState` value. `Step` is the value-level twin of the two
  methods, and the method `Store.Apply` proves that each method call matches it. `Run` is used to state what holds
  after any sequence of operations. `Valid()` is the class invariant: the ids in the queue strictly increase.

## Model

| member | source | states |
|---|---|---|
| CardStore.InitialCards | store/cardStore.ts:17-21 | the initial queue has 50 cards; the card at position i has id i+1, title `Card ` followed by i+1 in decimal, and the fixed description; its ids are strictly increasing and unique |
| CardStore.Decimal | store/cardStore.ts:19 | the rendering of a number inside the title is a non-empty string of decimal digits; it starts with `0` only for zero, and it is one digit long exactly for numbers below 10 |
| CardStore.DecimalValue | store/cardStore.ts:19 | reading the rendered digits back gives the number rendered, so the rendering is exact |
| CardStore.InitialTitlesUnique | store/cardStore.ts:19 | no two of the 50 generated cards share a title |
| CardStore.Store.constructor | store/cardStore.ts:16-22 | a new store has the 50 generated cards in the queue and an empty saved list, and its queue ids are increasing |
| CardStore.Append | store/cardStore.ts:25 | the new saved list is one longer, keeps the old list as its prefix, ends with the given card, and has exactly the old cards plus that card as members |
| CardStore.Store.AddSavedCard | store/cardStore.ts:23-26 | `savedCards` becomes the old list with the card appended; `cards` is unchanged; the queue invariant is unaffected |
| CardStore.RemoveById | store/cardStore.ts:29 | no remaining card has the removed id; every remaining card was in the old list; every old card with another id remains; the result is no longer than the old list |
| CardStore.RemoveIsSubsequence | store/cardStore.ts:29 | the remaining cards form an order-preserving subsequence of the old list |
| CardStore.Store.RemoveCard | store/cardStore.ts:27-30 | `cards` becomes the old queue filtered by id; `savedCards` is unchanged; increasing ids stay increasing; with the invariant and the id present the queue shrinks by exactly one; with the id absent the queue is unchanged |
| CardStore.Store.Apply | store/cardStore.ts:23-30 | one call of either operation leaves the store in the state `Step` gives, which ties the methods to the value-level runs |
| CardStore.RemoveMultiplicity | store/cardStore.ts:29 | each card occurs in the result as often as in the old list if its id differs from the removed one, and never otherwise |
| CardStore.RemoveConcat | store/cardStore.ts:29 | filtering a concatenation is the concatenation of the filtered parts, so relative order is kept |
| CardStore.RemoveAbsent | store/cardStore.ts:29 | removing an id that no card has leaves the list unchanged |
| CardStore.RemoveIdempotent | store/cardStore.ts:29 | removing the same id twice gives the same list as removing it once |
| CardStore.RemovePreservesIncreasing | store/cardStore.ts:29 | if the ids strictly increase before removal, they strictly increase after it |
| CardStore.RemovePreservesUnique | store/cardStore.ts:29 | if ids are unique before removal, they are unique after it |
| CardStore.RemovePresentUnique | store/cardStore.ts:29 | with unique ids and the id present, removal shortens the list by exactly one and keeps ids unique |
| CardStore.RemoveFront | store/cardStore.ts:29 | with unique ids, removing the front card's id leaves exactly the rest of the queue |
| CardStore.RunQueue | store/cardStore.ts:23-30 | from any starting queue, after any sequence of the two operations the queue is an order-preserving subsequence of the starting queue and no longer than it |
| CardStore.RunQueueIds | store/cardStore.ts:23-30 | if the starting queue's ids strictly increase, they still do after any sequence of the two operations |
| CardStore.RunSaved | store/cardStore.ts:23-30 | after any sequence of the two operations the saved list is the starting saved list followed by the added cards in call order |
| CardStore.RunFromInitial | store/cardStore.ts:16-30 | from the initial store, every reachable queue is an ordered selection of the 50 generated cards with increasing ids, and the saved list is exactly the added cards in order |

## Left out

- The state library's `create`, hooks and subscriptions are left out: they are library internals. Its merging `set` is modelled as replacing the one named field and keeping the other.
- `Card.id` is a JavaScript number (a float). It is modelled as an unbounded integer, because the store only ever makes and compares integer ids. NaN and fractional ids are not modelled.
- The swipe release decision (the ±100 thresholds), the saved-list limit of 10 and the navigation to the saved view are left out. They belong to the screen component `app/(tabs)/index.tsx`, not to the store, and the store enforces none of them.
- The card component `components/Card.tsx` is left out: it is rendering, floating-point animation interpolation and spring physics done by a foreign library.
- The saved-list screen, the tab layout and the `cards.slice(0, 3)` preview are left out: they are presentation only.
