/** The collection page (src/pages/Collection/index.jsx): twenty generated
    cards, a rarity filter and an optional A–Z sort of the filtered list. The
    two `Math.random()` stats per card are passed in as
    `Math.floor(Math.random() * 10)`, an integer roll in [0, 10). */
module Collection {
  import opened Base
  import opened Text

  const CardTypes := ["Common", "Uncommon", "Rare", "Mythic", "Legend"]
  const Variants := ["monster", "spell", "trap"]
  const InitialCount := 20

  /** `rarityLevelFixed`. */
  function RarityLevel(rarity: string): (level: nat)
    requires rarity in CardTypes
    ensures level in {2, 4, 6, 8, 10}
    ensures forall k :: 0 <= k < |CardTypes| && CardTypes[k] == rarity ==> level == 2 * (k + 1)
  {
    if rarity == "Common" then 2
    else if rarity == "Uncommon" then 4
    else if rarity == "Rare" then 6
    else if rarity == "Mythic" then 8
    else 10
  }

  datatype CollectionCard = CollectionCard(
    id: nat, name: string, imageUrl: string, typeLine: string,
    atk: int, def: int, abilities: seq<string>, variant: string, rarity: string, level: nat)

  predicate IsStatRoll(roll: int) {
    0 <= roll < 10
  }

  /** Entry `i` of `initialCards`. */
  function InitialCardAt(i: nat, atkRoll: int, defRoll: int): (c: CollectionCard)
    requires IsStatRoll(atkRoll) && IsStatRoll(defRoll)
    ensures c.id == i + 1 && c.name == "Card " + NatToString(i + 1)
    ensures c.rarity == CardTypes[i % 5] && c.level == 2 * (i % 5 + 1) && c.level in {2, 4, 6, 8, 10}
    ensures c.typeLine == c.rarity + " Creature"
    ensures c.variant == Variants[i % 3]
    ensures 1 <= c.atk <= 10 && 1 <= c.def <= 10
  {
    var n := NatToString(i + 1);
    var rarity := CardTypes[i % 5];
    CollectionCard(i + 1, "Card " + n, "https://placehold.co/300x200", rarity + " Creature",
                   atkRoll + 1, defRoll + 1, ["Ability 1 for Card " + n, "Ability 2 for Card " + n],
                   Variants[i % 3], rarity, RarityLevel(rarity))
  }

  predicate ValidStatRolls(rolls: seq<int>) {
    |rolls| == InitialCount && forall i :: 0 <= i < |rolls| ==> IsStatRoll(rolls[i])
  }

  /** `initialCards`. */
  function InitialCards(atkRolls: seq<int>, defRolls: seq<int>): (cards: seq<CollectionCard>)
    requires ValidStatRolls(atkRolls) && ValidStatRolls(defRolls)
    ensures |cards| == InitialCount
    ensures forall i :: 0 <= i < |cards| ==> cards[i] == InitialCardAt(i, atkRolls[i], defRolls[i])
  {
    seq(InitialCount, i requires 0 <= i < InitialCount => InitialCardAt(i, atkRolls[i], defRolls[i]))
  }

  /** `cards.filter(card => filterType ? card.rarity === filterType : true)`. */
  function RarityFilter(cards: seq<CollectionCard>, filterType: string): (r: seq<CollectionCard>)
    ensures filterType == "" ==> r == cards
    ensures filterType != "" ==> forall c :: c in r <==> c in cards && c.rarity == filterType
    ensures filterType != "" ==> forall c :: multiset(r)[c] == (if c.rarity == filterType then multiset(cards)[c] else 0)
    ensures IsSubsequence(r, cards)
  {
    Filter(cards, (c: CollectionCard) => filterType == "" || c.rarity == filterType)
  }

  /** Lexicographic order on names by character code. */
  predicate NameLe(a: string, b: string)
    decreases |a|
  {
    a == [] || (b != [] && (a[0] < b[0] || (a[0] == b[0] && NameLe(a[1..], b[1..]))))
  }

  lemma {:induction false} NameLeTotal(a: string, b: string)
    ensures NameLe(a, b) || NameLe(b, a)
    decreases |a|
  {
    if a != [] && b != [] && a[0] == b[0] {
      NameLeTotal(a[1..], b[1..]);
    }
  }

  predicate SortedByName(s: seq<CollectionCard>) {
    forall i :: 0 <= i < |s| - 1 ==> NameLe(s[i].name, s[i + 1].name)
  }

  /** Places `x` before the first card whose name is not smaller, so equal
      names keep their order. */
  function InsertByName(x: CollectionCard, s: seq<CollectionCard>): (r: seq<CollectionCard>)
    requires SortedByName(s)
    ensures SortedByName(r)
    ensures multiset(r) == multiset(s) + multiset{x}
    ensures |r| == |s| + 1
    ensures r[0] == x || (s != [] && r[0] == s[0])
  {
    if s == [] then [x]
    else if NameLe(x.name, s[0].name) then [x] + s
    else
      var rest := InsertByName(x, s[1..]);
      InsertBehindHead(x, s, rest);
      [s[0]] + rest
  }

  /** The recursive case of `InsertByName`: a card that sorts after the head
      goes into the tail, and the head stays first. */
  lemma InsertBehindHead(x: CollectionCard, s: seq<CollectionCard>, rest: seq<CollectionCard>)
    requires s != [] && SortedByName(s) && !NameLe(x.name, s[0].name)
    requires SortedByName(rest) && multiset(rest) == multiset(s[1..]) + multiset{x} && |rest| == |s|
    requires rest[0] == x || (s[1..] != [] && rest[0] == s[1])
    ensures SortedByName([s[0]] + rest)
    ensures multiset([s[0]] + rest) == multiset(s) + multiset{x}
  {
    NameLeTotal(x.name, s[0].name);
    assert s == [s[0]] + s[1..];
    var r := [s[0]] + rest;
    forall i | 0 <= i < |r| - 1
      ensures NameLe(r[i].name, r[i + 1].name)
    {
      if i > 0 {
        assert r[i] == rest[i - 1] && r[i + 1] == rest[i];
      }
    }
  }

  /** `[...filtered].sort((a, b) => a.name.localeCompare(b.name))`. */
  function SortByName(s: seq<CollectionCard>): (r: seq<CollectionCard>)
    ensures SortedByName(r)
    ensures multiset(r) == multiset(s)
    ensures |r| == |s|
  {
    if s == [] then []
    else
      assert s == [s[0]] + s[1..];
      InsertByName(s[0], SortByName(s[1..]))
  }

  /** `filteredCards` as rendered. */
  function Displayed(cards: seq<CollectionCard>, filterType: string, sortAZ: bool): (r: seq<CollectionCard>)
    ensures forall c :: c in r ==> c in cards
    ensures |r| <= |cards|
    ensures multiset(r) == multiset(RarityFilter(cards, filterType))
    ensures sortAZ ==> SortedByName(r)
    ensures !sortAZ ==> r == RarityFilter(cards, filterType)
  {
    var filtered := RarityFilter(cards, filterType);
    var r := if sortAZ then SortByName(filtered) else filtered;
    assert forall c :: c in r ==> c in multiset(filtered);
    r
  }
}
