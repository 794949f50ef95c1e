/** The shop page (src/pages/ShopGame/index.jsx): a fixed catalogue of twelve
    cards, a type filter with a case-insensitive search, and a wallet of coins
    from which cards are bought once each. */
module Shop {
  import opened Base
  import opened Text

  datatype ShopCard = ShopCard(id: nat, name: string, price: nat, cardType: string, rarity: string, power: nat, img: string, desc: string)

  const CardCount := 12
  const CardTypes := ["attack", "defense", "magic", "special"]
  const CardRarities := ["common", "rare", "legendary"]

  /** Entry `i` of the catalogue, as built by `Array.from({ length: 12 }, …)`. */
  function ShopCardAt(i: nat): (c: ShopCard)
    ensures c.id == i + 1 && c.price == 50 * (i + 1) && c.power == 40 + 10 * i
    ensures c.cardType == CardTypes[i % 4] && c.rarity == CardRarities[i % 3]
    ensures c.name == "Card " + NatToString(i + 1)
    ensures c.desc == "Description for card " + NatToString(i + 1)
  {
    var n := NatToString(i + 1);
    ShopCard(i + 1, "Card " + n, (i + 1) * 50, CardTypes[i % 4], CardRarities[i % 3], 40 + i * 10,
             "/images/shop/Shop" + n + ".jpg", "Description for card " + n)
  }

  /** The `cards` constant. */
  function Catalogue(): (cards: seq<ShopCard>)
    ensures |cards| == CardCount
    ensures forall i :: 0 <= i < |cards| ==> cards[i] == ShopCardAt(i)
    ensures forall i, j :: 0 <= i < j < |cards| ==> cards[i].id < cards[j].id
  {
    seq(CardCount, i requires 0 <= i => ShopCardAt(i))
  }

  /** A card passes the type buttons and the search box. */
  predicate Matches(c: ShopCard, filter: string, search: string) {
    && (filter == "all" || c.cardType == filter)
    && (Contains(Lower(c.name), Lower(search)) || Contains(Lower(c.desc), Lower(search)))
  }

  /** The `filtered` list. */
  function Filtered(cards: seq<ShopCard>, filter: string, search: string): (r: seq<ShopCard>)
    ensures forall c :: c in r <==> c in cards && Matches(c, filter, search)
    ensures forall c :: multiset(r)[c] == (if Matches(c, filter, search) then multiset(cards)[c] else 0)
    ensures IsSubsequence(r, cards)
    ensures filter != "all" ==> forall c :: c in r ==> c.cardType == filter
  {
    Filter(cards, c => Matches(c, filter, search))
  }

  /** With "all" selected and an empty search box every card is listed, in order. */
  lemma EmptySearchKeepsAll(cards: seq<ShopCard>)
    ensures Filtered(cards, "all", "") == cards
  {
    forall i | 0 <= i < |cards|
      ensures Matches(cards[i], "all", "")
    {
      ContainsEmpty(Lower(cards[i].name));
    }
  }

  /** With an empty search box the type buttons alone decide. */
  lemma EmptySearchKeepsType(cards: seq<ShopCard>, filter: string)
    ensures forall c :: c in Filtered(cards, filter, "") <==> c in cards && (filter == "all" || c.cardType == filter)
  {
    forall c | c in cards
      ensures Contains(Lower(c.name), Lower(""))
    {
      ContainsEmpty(Lower(c.name));
    }
  }

  datatype BuyOutcome = AlreadyOwned | NotEnoughCoins | Bought

  /** The two guards of `handleBuy`, ownership first. */
  function BuyCheck(owned: seq<nat>, coins: int, card: ShopCard): (o: BuyOutcome)
    ensures o == Bought <==> card.id !in owned && card.price <= coins
    ensures o == AlreadyOwned <==> card.id in owned
  {
    if card.id in owned then AlreadyOwned
    else if coins < card.price then NotEnoughCoins
    else Bought
  }

  /** The alert a refused purchase raises. */
  function AlertText(o: BuyOutcome): (a: Option<string>)
    ensures a.None? <==> o == Bought
  {
    match o
    case AlreadyOwned => Some("Bạn đã mua thẻ này rồi!")
    case NotEnoughCoins => Some("Bạn không đủ xu!")
    case Bought => None
  }

  datatype BuyButton = BuyButton(disabled: bool, text: string)

  /** The buy button of a card: disabled when owned or too expensive, labelled
      Owned before "Thiếu xu" before Buy. */
  function ButtonFor(owned: seq<nat>, coins: int, card: ShopCard): (b: BuyButton)
    ensures b.disabled <==> card.id in owned || coins < card.price
    ensures b.text == (if card.id in owned then "Owned" else if coins < card.price then "Thiếu xu" else "Buy")
  {
    BuyButton(card.id in owned || coins < card.price,
              if card.id in owned then "Owned" else if coins < card.price then "Thiếu xu" else "Buy")
  }

  /** A button is enabled exactly when clicking it buys the card, and its
      label names the reason a purchase would be refused. */
  lemma ButtonMatchesHandler(owned: seq<nat>, coins: int, card: ShopCard)
    ensures !ButtonFor(owned, coins, card).disabled <==> BuyCheck(owned, coins, card) == Bought
    ensures ButtonFor(owned, coins, card).text ==
            (match BuyCheck(owned, coins, card)
             case AlreadyOwned => "Owned"
             case NotEnoughCoins => "Thiếu xu"
             case Bought => "Buy")
  {
  }

  predicate NoDuplicates(s: seq<nat>) {
    forall i, j :: 0 <= i < j < |s| ==> s[i] != s[j]
  }

  /** The page state: `coins` and `owned`. */
  class ShopPage {
    var coins: int
    var owned: seq<nat>

    ghost predicate Valid()
      reads this
    {
      coins >= 0 && NoDuplicates(owned)
    }

    constructor()
      ensures Valid() && coins == 1000 && owned == []
    {
      coins := 1000;
      owned := [];
    }

    /** `handleBuy(card)`: a refused purchase changes nothing; a purchase
        pays exactly the price and records exactly that id. */
    method HandleBuy(card: ShopCard) returns (outcome: BuyOutcome, alert: Option<string>)
      requires Valid()
      modifies this
      ensures Valid()
      ensures outcome == BuyCheck(old(owned), old(coins), card) && alert == AlertText(outcome)
      ensures outcome != Bought ==> coins == old(coins) && owned == old(owned)
      ensures outcome == Bought ==> coins == old(coins) - card.price && owned == old(owned) + [card.id]
    {
      outcome := BuyCheck(owned, coins, card);
      alert := AlertText(outcome);
      if outcome == Bought {
        coins := coins - card.price;
        owned := owned + [card.id];
      }
    }
  }
}
