/** The fusion preview of src/components/CombinationModal.jsx: for a selected
    card, every other card is paired with it, each pair gets a simulated
    fusion result and a compatibility score, and the ten most compatible pairs
    are shown. The two `Math.random()` draws per pair are passed in as
    `Math.floor(Math.random() * 20)`, an integer roll in [0, 20). */
module Combination {
  import opened Base
  import opened Text
  import CardStyle

  const Placeholder := "https://upload.wikimedia.org/wikipedia/commons/3/3f/Placeholder_view_vector.svg"

  /** The card fields the preview reads; `dbId` is the backend's `_id`. */
  datatype Card = Card(id: Option<Json>, dbId: Option<Json>, labelText: string, power: Option<int>, rarity: Option<string>, img: Option<string>)

  /** `power || 0`. */
  function PowerOrZero(power: Option<int>): int {
    if power.Some? then power.value else 0
  }

  /** A random draw `Math.floor(Math.random() * 20)`. */
  predicate IsRoll(roll: int) {
    0 <= roll < 20
  }

  predicate ValidRolls(rolls: seq<int>) {
    forall i :: 0 <= i < |rolls| ==> IsRoll(rolls[i])
  }

  const RarityNames := ["Common", "Uncommon", "Rare", "Epic", "Legendary"]

  /** The position of a rarity in `RarityNames`; any other name ranks as Common. */
  function RarityRank(rarity: string): (k: nat)
    ensures k < |RarityNames|
    ensures k > 0 ==> RarityNames[k] == rarity
  {
    if rarity == "Legendary" then 4
    else if rarity == "Epic" then 3
    else if rarity == "Rare" then 2
    else if rarity == "Uncommon" then 1
    else 0
  }

  function Max(a: int, b: int): int {
    if a >= b then a else b
  }

  /** The rarity of a fusion: `rarity || 'Common'` for both cards, then the
      chain of checks from Legendary downwards. */
  function ResultRarity(rarity1: Option<string>, rarity2: Option<string>): (r: string)
    ensures var top := Max(RarityRank(OrElse(rarity1, "Common")), RarityRank(OrElse(rarity2, "Common")));
            r == RarityNames[if top == 0 then 0 else top - 1]
    ensures r != "Legendary"
  {
    var a, b := OrElse(rarity1, "Common"), OrElse(rarity2, "Common");
    if a == "Legendary" || b == "Legendary" then "Epic"
    else if a == "Epic" || b == "Epic" then "Rare"
    else if a == "Rare" || b == "Rare" then "Uncommon"
    else "Common"
  }

  datatype FusionResult = FusionResult(name: string, power: int, rarity: string, description: string, image: string)

  /** `generateCombinationResult(card1, card2)` with its power roll. */
  function GenerateResult(card1: Card, card2: Card, roll: int): (r: FusionResult)
    requires IsRoll(roll)
    ensures var sum := PowerOrZero(card1.power) + PowerOrZero(card2.power);
            2 * (r.power - roll) <= sum < 2 * (r.power - roll) + 2
    ensures r.rarity == ResultRarity(card1.rarity, card2.rarity)
    ensures r.name == card1.labelText + " + " + card2.labelText
    ensures r.description == "Kết hợp giữa " + card1.labelText + " và " + card2.labelText
    ensures r.image == OrElse(card1.img, OrElse(card2.img, Placeholder))
  {
    var average := (PowerOrZero(card1.power) + PowerOrZero(card2.power)) / 2;
    FusionResult(
      card1.labelText + " + " + card2.labelText,
      average + roll,
      ResultRarity(card1.rarity, card2.rarity),
      "Kết hợp giữa " + card1.labelText + " và " + card2.labelText,
      OrElse(card1.img, OrElse(card2.img, Placeholder)))
  }

  function Abs(x: int): nat {
    if x < 0 then -x else x
  }

  /** The power term of the score: +20, +10 or −10 as the powers grow apart. */
  function PowerBonus(diff: nat): (b: int)
    ensures b in {20, 10, -10}
  {
    if diff < 20 then 20 else if diff < 40 then 10 else -10
  }

  /** `calculateCompatibility(card1, card2)` with its roll: base 50, the power
      term, +15 for the same `rarity` value (missing on both sides counts as
      the same), the roll shifted to [−10, 9], clamped to [0, 100]. The clamp
      never binds: every score lies in [30, 94]. */
  function Compatibility(card1: Card, card2: Card, roll: int): (score: int)
    requires IsRoll(roll)
    ensures 0 <= score <= 100
    ensures 30 <= score <= 94
    ensures score == 40 + PowerBonus(Abs(PowerOrZero(card1.power) - PowerOrZero(card2.power)))
                        + (if card1.rarity == card2.rarity then 15 else 0) + roll
  {
    var score := 50 + PowerBonus(Abs(PowerOrZero(card1.power) - PowerOrZero(card2.power)));
    var score := if card1.rarity == card2.rarity then score + 15 else score;
    var score := score + roll - 10;
    if score > 100 then 100 else if score < 0 then 0 else score
  }

  /** The score depends on the pair, not on which card is selected. */
  lemma CompatibilitySymmetric(card1: Card, card2: Card, roll: int)
    requires IsRoll(roll)
    ensures Compatibility(card1, card2, roll) == Compatibility(card2, card1, roll)
  {
    assert Abs(PowerOrZero(card1.power) - PowerOrZero(card2.power)) == Abs(PowerOrZero(card2.power) - PowerOrZero(card1.power));
  }

  /** With the same roll and the same rarity relation, a partner closer in
      power never scores lower. */
  lemma CloserPowerScoresHigher(card: Card, near: Card, far: Card, roll: int)
    requires IsRoll(roll)
    requires Abs(PowerOrZero(card.power) - PowerOrZero(near.power)) <= Abs(PowerOrZero(card.power) - PowerOrZero(far.power))
    requires (card.rarity == near.rarity) == (card.rarity == far.rarity)
    ensures Compatibility(card, near, roll) >= Compatibility(card, far, roll)
  {
  }

  const CompatibilityThresholds := [40, 60, 80]
  const CompatibilityTexts := ["Poor", "Fair", "Good", "Excellent"]
  const CompatibilityColors := ["#f44336", "#ff5722", "#ff9800", "#4caf50"]

  /** `getCompatibilityColor(score)`. */
  function CompatibilityColor(score: int): (color: string)
    ensures color == CompatibilityColors[CardStyle.Reached(score, CompatibilityThresholds)]
  {
    ThresholdsUnfold(score);
    if score >= 80 then "#4caf50"
    else if score >= 60 then "#ff9800"
    else if score >= 40 then "#ff5722"
    else "#f44336"
  }

  /** `getCompatibilityText(score)`. */
  function CompatibilityText(score: int): (text: string)
    ensures text == CompatibilityTexts[CardStyle.Reached(score, CompatibilityThresholds)]
  {
    ThresholdsUnfold(score);
    if score >= 80 then "Excellent"
    else if score >= 60 then "Good"
    else if score >= 40 then "Fair"
    else "Poor"
  }

  lemma ThresholdsUnfold(score: int)
    ensures CardStyle.Reached(score, CompatibilityThresholds) ==
            (if score >= 40 then 1 else 0) + (if score >= 60 then 1 else 0) + (if score >= 80 then 1 else 0)
  {
    assert CardStyle.Reached(score, [80]) == (if score >= 80 then 1 else 0) by {
      assert [80][1..] == [];
    }
    assert CardStyle.Reached(score, [60, 80]) == (if score >= 60 then 1 else 0) + CardStyle.Reached(score, [80]) by {
      assert [60, 80][1..] == [80];
    }
    assert CompatibilityThresholds[1..] == [60, 80];
  }

  /** Colour and text move together and never fall as the score rises. */
  lemma CompatibilityTierMonotone(x: int, y: int)
    requires x <= y
    ensures var i, j := CardStyle.Reached(x, CompatibilityThresholds), CardStyle.Reached(y, CompatibilityThresholds);
            && i <= j
            && CompatibilityText(x) == CompatibilityTexts[i] && CompatibilityColor(x) == CompatibilityColors[i]
            && CompatibilityText(y) == CompatibilityTexts[j] && CompatibilityColor(y) == CompatibilityColors[j]
  {
    CardStyle.ReachedMonotone(x, y, CompatibilityThresholds);
  }

  datatype Combination = Combination(card1: Card, card2: Card, result: FusionResult, compatibility: int)

  /** The filter of `findCombinations`: the partner's `id` differs from both
      the selected card's `_id` and its `id`. */
  predicate Pairable(card: Card, other: Card) {
    other.id != card.dbId && other.id != card.id
  }

  function MakeCombination(card: Card, other: Card, powerRoll: int, compatRoll: int): (c: Combination)
    requires IsRoll(powerRoll) && IsRoll(compatRoll)
    ensures 30 <= c.compatibility <= 94
  {
    Combination(card, other, GenerateResult(card, other, powerRoll), Compatibility(card, other, compatRoll))
  }

  /** The combinations `possibleCombinations` holds after visiting `others`
      in order, with the rolls drawn for each position. */
  function Candidates(card: Card, others: seq<Card>, powerRolls: seq<int>, compatRolls: seq<int>): (r: seq<Combination>)
    requires |powerRolls| == |others| && |compatRolls| == |others|
    requires ValidRolls(powerRolls) && ValidRolls(compatRolls)
    ensures |r| <= |others|
    ensures forall k :: 0 <= k < |others| && Pairable(card, others[k]) ==>
              MakeCombination(card, others[k], powerRolls[k], compatRolls[k]) in r
    ensures forall c :: c in r ==> exists k :: 0 <= k < |others| && Pairable(card, others[k])
                                      && c == MakeCombination(card, others[k], powerRolls[k], compatRolls[k])
  {
    if others == [] then []
    else
      var n := |others| - 1;
      var earlier := Candidates(card, others[..n], powerRolls[..n], compatRolls[..n]);
      CandidatesStep(card, others, powerRolls, compatRolls, earlier);
      if Pairable(card, others[n]) then earlier + [MakeCombination(card, others[n], powerRolls[n], compatRolls[n])] else earlier
  }

  /** The last partner of `others` adds its combination, if pairable, to
      those of the partners before it. */
  lemma CandidatesStep(card: Card, others: seq<Card>, powerRolls: seq<int>, compatRolls: seq<int>, earlier: seq<Combination>)
    requires others != [] && |powerRolls| == |others| && |compatRolls| == |others|
    requires ValidRolls(powerRolls) && ValidRolls(compatRolls)
    requires var n := |others| - 1;
      && |earlier| <= n
      && (forall k :: 0 <= k < n && Pairable(card, others[k]) ==>
            MakeCombination(card, others[k], powerRolls[k], compatRolls[k]) in earlier)
      && (forall c :: c in earlier ==> exists k :: (0 <= k < n && Pairable(card, others[k])
            && c == MakeCombination(card, others[k], powerRolls[k], compatRolls[k])))
    ensures var n := |others| - 1;
      var r := if Pairable(card, others[n]) then earlier + [MakeCombination(card, others[n], powerRolls[n], compatRolls[n])] else earlier;
      && |r| <= |others|
      && (forall k :: 0 <= k < |others| && Pairable(card, others[k]) ==>
            MakeCombination(card, others[k], powerRolls[k], compatRolls[k]) in r)
      && (forall c :: c in r ==> exists k :: (0 <= k < |others| && Pairable(card, others[k])
            && c == MakeCombination(card, others[k], powerRolls[k], compatRolls[k])))
  {
    var n := |others| - 1;
    var r := if Pairable(card, others[n]) then earlier + [MakeCombination(card, others[n], powerRolls[n], compatRolls[n])] else earlier;
    forall c | c in r
      ensures exists k :: 0 <= k < |others| && Pairable(card, others[k])
                && c == MakeCombination(card, others[k], powerRolls[k], compatRolls[k])
    {
      if c !in earlier {
        assert Pairable(card, others[n]) && c == MakeCombination(card, others[n], powerRolls[n], compatRolls[n]);
      }
    }
  }

  /** `Candidates` over one more partner of a longer list. */
  lemma CandidatesExtend(card: Card, others: seq<Card>, powerRolls: seq<int>, compatRolls: seq<int>, i: nat)
    requires i < |others| && |powerRolls| == |others| && |compatRolls| == |others|
    requires ValidRolls(powerRolls) && ValidRolls(compatRolls)
    ensures Candidates(card, others[..i + 1], powerRolls[..i + 1], compatRolls[..i + 1])
         == Candidates(card, others[..i], powerRolls[..i], compatRolls[..i])
            + (if Pairable(card, others[i]) then [MakeCombination(card, others[i], powerRolls[i], compatRolls[i])] else [])
  {
    assert others[..i + 1][..i] == others[..i];
    assert powerRolls[..i + 1][..i] == powerRolls[..i];
    assert compatRolls[..i + 1][..i] == compatRolls[..i];
  }

  predicate SortedDesc(s: seq<Combination>) {
    forall i, j :: 0 <= i < j < |s| ==> s[i].compatibility >= s[j].compatibility
  }

  /** Places `x` before the first entry that does not score higher, so equal
      scores keep their order. */
  function InsertDesc(x: Combination, s: seq<Combination>): (r: seq<Combination>)
    requires SortedDesc(s)
    ensures SortedDesc(r)
    ensures multiset(r) == multiset(s) + multiset{x}
    ensures |r| == |s| + 1
  {
    if s == [] then [x]
    else if s[0].compatibility <= x.compatibility then [x] + s
    else
      var rest := InsertDesc(x, s[1..]);
      assert s == [s[0]] + s[1..];
      InsertKeepsHead(x, s[0], s[1..], rest);
      [s[0]] + rest
  }

  /** The head of a descending list stays first when a lower-scoring entry is inserted after it. */
  lemma InsertKeepsHead(x: Combination, head: Combination, tail: seq<Combination>, rest: seq<Combination>)
    requires SortedDesc([head] + tail) && SortedDesc(rest)
    requires x.compatibility < head.compatibility
    requires multiset(rest) == multiset(tail) + multiset{x}
    ensures SortedDesc([head] + rest)
  {
    forall k | 0 <= k < |rest|
      ensures rest[k].compatibility <= head.compatibility
    {
      assert rest[k] in multiset(rest);
      if rest[k] != x {
        assert rest[k] in multiset(tail);
        var m :| 0 <= m < |tail| && tail[m] == rest[k];
        assert ([head] + tail)[0] == head && ([head] + tail)[m + 1] == tail[m];
      }
    }
    var r := [head] + rest;
    forall i, j | 0 <= i < j < |r|
      ensures r[i].compatibility >= r[j].compatibility
    {
      if i == 0 {
        assert r[j] == rest[j - 1];
      } else {
        assert r[i] == rest[i - 1] && r[j] == rest[j - 1];
      }
    }
  }

  /** `possibleCombinations.sort((a, b) => b.compatibility - a.compatibility)`:
      a stable sort by descending compatibility. */
  function SortDesc(s: seq<Combination>): (r: seq<Combination>)
    ensures SortedDesc(r)
    ensures multiset(r) == multiset(s)
    ensures |r| == |s|
  {
    if s == [] then []
    else
      assert s == [s[0]] + s[1..];
      InsertDesc(s[0], SortDesc(s[1..]))
  }

  /** The `forEach` of `findCombinations()`: each pairable partner, in order,
      pushed onto `possibleCombinations`. */
  method CollectCandidates(card: Card, allCards: seq<Card>, powerRolls: seq<int>, compatRolls: seq<int>) returns (possible: seq<Combination>)
    requires |powerRolls| == |allCards| && |compatRolls| == |allCards|
    requires ValidRolls(powerRolls) && ValidRolls(compatRolls)
    ensures possible == Candidates(card, allCards, powerRolls, compatRolls)
  {
    possible := [];
    var i := 0;
    while i < |allCards|
      invariant 0 <= i <= |allCards|
      invariant possible == Candidates(card, allCards[..i], powerRolls[..i], compatRolls[..i])
    {
      CandidatesExtend(card, allCards, powerRolls, compatRolls, i);
      if Pairable(card, allCards[i]) {
        possible := possible + [MakeCombination(card, allCards[i], powerRolls[i], compatRolls[i])];
      }
      i := i + 1;
    }
    assert allCards[..i] == allCards && powerRolls[..i] == powerRolls && compatRolls[..i] == compatRolls;
  }

  /** `findCombinations()`: collect the pairable partners in order, sort them
      by compatibility, keep the first ten. */
  method FindCombinations(card: Card, allCards: seq<Card>, powerRolls: seq<int>, compatRolls: seq<int>) returns (shown: seq<Combination>)
    requires |powerRolls| == |allCards| && |compatRolls| == |allCards|
    requires ValidRolls(powerRolls) && ValidRolls(compatRolls)
    ensures var candidates := Candidates(card, allCards, powerRolls, compatRolls);
      && |shown| == Min(10, |candidates|)
      && SortedDesc(shown)
      && multiset(shown) <= multiset(candidates)
      && (forall c, d :: c in candidates && c !in shown && d in shown ==> c.compatibility <= d.compatibility)
    ensures forall c :: c in shown ==> c.card1 == card && Pairable(card, c.card2)
  {
    var possible := CollectCandidates(card, allCards, powerRolls, compatRolls);
    var sorted := SortDesc(possible);
    shown := sorted[..Min(10, |sorted|)];
    TopPrefix(sorted, |shown|);
    forall c | c in shown
      ensures c.card1 == card && Pairable(card, c.card2)
    {
      assert c in multiset(sorted);
      assert c in possible;
    }
    forall c, d | c in possible && c !in shown && d in shown
      ensures c.compatibility <= d.compatibility
    {
      assert c in multiset(sorted);
    }
  }

  /** A prefix of a descending list holds the largest scores. */
  lemma TopPrefix(sorted: seq<Combination>, n: nat)
    requires SortedDesc(sorted) && n <= |sorted|
    ensures SortedDesc(sorted[..n])
    ensures multiset(sorted[..n]) <= multiset(sorted)
    ensures forall c, d :: c in sorted && c !in sorted[..n] && d in sorted[..n] ==> c.compatibility <= d.compatibility
  {
    assert sorted == sorted[..n] + sorted[n..];
    forall c, d | c in sorted && c !in sorted[..n] && d in sorted[..n]
      ensures c.compatibility <= d.compatibility
    {
      var j :| 0 <= j < |sorted| && sorted[j] == c;
      var i :| 0 <= i < n && sorted[..n][i] == d;
      assert j >= n;
    }
  }
}
