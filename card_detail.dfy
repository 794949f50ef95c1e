/** The tier tables and visibility rules of src/components/CardDetailModal.jsx:
    the power CSS class, the power and rarity bars, and which optional rows
    and sections the modal shows for a card. */
module CardDetail {
  import opened Base
  import opened Text
  import CardStyle

  /** The card fields the modal reads; `dbId` is the backend's `_id`. */
  datatype DetailCard = DetailCard(
    description: Option<string>,
    power: Option<int>,
    rarity: Option<string>,
    dbId: Option<Json>,
    parentIds: Option<seq<Json>>)

  const PowerThresholds := [20, 40, 60, 80]
  const PowerClasses := ["power-common", "power-uncommon", "power-rare", "power-epic", "power-legendary"]

  /** `!power`: missing or zero. */
  predicate PowerFalsy(power: Option<int>) {
    power.None? || power.value == 0
  }

  lemma PowerThresholdsUnfold(p: int)
    ensures CardStyle.Reached(p, PowerThresholds) ==
            (if p >= 20 then 1 else 0) + (if p >= 40 then 1 else 0) + (if p >= 60 then 1 else 0) + (if p >= 80 then 1 else 0)
  {
    assert CardStyle.Reached(p, [80]) == (if p >= 80 then 1 else 0) by {
      assert [80][1..] == [];
    }
    assert CardStyle.Reached(p, [60, 80]) == (if p >= 60 then 1 else 0) + CardStyle.Reached(p, [80]) by {
      assert [60, 80][1..] == [80];
    }
    assert CardStyle.Reached(p, [40, 60, 80]) == (if p >= 40 then 1 else 0) + CardStyle.Reached(p, [60, 80]) by {
      assert [40, 60, 80][1..] == [60, 80];
    }
    assert PowerThresholds[1..] == [40, 60, 80];
  }

  /** `getPowerClass(power)`: unknown for a falsy power, otherwise the class
      of the number of thresholds 20/40/60/80 reached (a negative power is
      truthy and lands in the lowest class). */
  function PowerClass(power: Option<int>): (c: string)
    ensures PowerFalsy(power) ==> c == "power-unknown"
    ensures !PowerFalsy(power) ==> c == PowerClasses[CardStyle.Reached(power.value, PowerThresholds)]
  {
    if PowerFalsy(power) then "power-unknown"
    else
      var p := power.value;
      PowerThresholdsUnfold(p);
      if p >= 80 then "power-legendary"
      else if p >= 60 then "power-epic"
      else if p >= 40 then "power-rare"
      else if p >= 20 then "power-uncommon"
      else "power-common"
  }

  /** A stronger card never gets a lower power class. */
  lemma PowerClassMonotone(p: int, q: int)
    requires p != 0 && q != 0 && p <= q
    ensures var i, j := CardStyle.Reached(p, PowerThresholds), CardStyle.Reached(q, PowerThresholds);
            i <= j && PowerClass(Some(p)) == PowerClasses[i] && PowerClass(Some(q)) == PowerClasses[j]
  {
    CardStyle.ReachedMonotone(p, q, PowerThresholds);
  }

  /** The power value shown: `card.power ?? "Unknown"`, so 0 is shown as 0. */
  function PowerText(power: Option<int>): (t: string)
    ensures power.None? ==> t == "Unknown"
    ensures power.Some? ==> t == IntToString(power.value)
    ensures power == Some(0) ==> t == "0"
  {
    if power.None? then "Unknown" else IntToString(power.value)
  }

  /** The width, in percent, of the power bar: `min(power || 0, 100)`; no
      lower clamp, so a negative power gives a negative width. */
  function PowerBarWidth(power: Option<int>): (w: int)
    ensures w <= 100
    ensures PowerFalsy(power) ==> w == 0
    ensures !PowerFalsy(power) && power.value <= 100 ==> w == power.value
    ensures !PowerFalsy(power) && power.value > 100 ==> w == 100
  {
    var p := if PowerFalsy(power) then 0 else power.value;
    if p < 100 then p else 100
  }

  /** Which optional parts of the modal are rendered. */
  datatype Sections = Sections(idRow: bool, parentList: bool, evolutionTree: bool)

  /** `card._id && …`, `card.parentIds && card.parentIds.length > 0 && …` and
      `card.parentIds && card.parentIds.length >= 2 && …`. */
  function VisibleSections(card: DetailCard): (s: Sections)
    ensures s.idRow <==> card.dbId.Some? && Truthy(card.dbId.value)
    ensures s.parentList <==> card.parentIds.Some? && |card.parentIds.value| >= 1
    ensures s.evolutionTree <==> card.parentIds.Some? && |card.parentIds.value| >= 2
    ensures s.evolutionTree ==> s.parentList
  {
    Sections(
      card.dbId.Some? && Truthy(card.dbId.value),
      card.parentIds.Some? && |card.parentIds.value| > 0,
      card.parentIds.Some? && |card.parentIds.value| >= 2)
  }

  /** The description shown: `card.description || "No description available"`. */
  function DescriptionText(card: DetailCard): (t: string)
    ensures t != ""
    ensures Present(card.description) ==> t == card.description.value
  {
    OrElse(card.description, "No description available")
  }

  /** The own entries of the `rarityMap` literal. */
  const RarityPercentages: map<string, int> :=
    map["Common" := 20, "Uncommon" := 40, "Rare" := 60, "Epic" := 80, "Legendary" := 100, "AI Generated" := 90]

  /** The members every object literal inherits from `Object.prototype`. */
  const InheritedMembers: set<string> :=
    {"constructor", "hasOwnProperty", "isPrototypeOf", "propertyIsEnumerable", "toLocaleString",
     "toString", "valueOf", "__proto__", "__defineGetter__", "__defineSetter__",
     "__lookupGetter__", "__lookupSetter__"}

  /** What `rarityMap[rarity] || 0` evaluates to. */
  datatype Lookup = Percent(n: int) | InheritedMember(name: string)

  /** `getRarityPercentage(rarity)` as written: the property lookup also finds
      members inherited from `Object.prototype`, which are truthy and so come
      out of `|| 0` unchanged. A missing rarity looks up "undefined". */
  function RarityLookupAsWritten(rarity: Option<string>): (v: Lookup)
    ensures rarity.Some? && rarity.value in RarityPercentages ==> v == Percent(RarityPercentages[rarity.value])
    ensures rarity.Some? && rarity.value in InheritedMembers ==> v == InheritedMember(rarity.value)
    ensures v.InheritedMember? <==> rarity.Some? && rarity.value in InheritedMembers
  {
    if rarity.Some? && rarity.value in RarityPercentages then Percent(RarityPercentages[rarity.value])
    else if rarity.Some? && rarity.value in InheritedMembers then InheritedMember(rarity.value)
    else Percent(0)
  }

  /** A rarity named after an inherited member yields a function, not a percentage. */
  lemma InheritedRarityIsNotAPercentage()
    ensures RarityLookupAsWritten(Some("toString")) == InheritedMember("toString")
    ensures !RarityLookupAsWritten(Some("toString")).Percent?
  {
    assert "toString" !in RarityPercentages;
    assert "toString" in InheritedMembers;
  }

  /** `getRarityPercentage(rarity)` restricted to the table's own entries:
      the table value, else 0. */
  function RarityPercentage(rarity: Option<string>): (p: int)
    ensures 0 <= p <= 100
    ensures rarity.Some? && rarity.value in RarityPercentages ==> p == RarityPercentages[rarity.value]
    ensures !(rarity.Some? && rarity.value in RarityPercentages) ==> p == 0
  {
    if rarity.Some? && rarity.value in RarityPercentages then RarityPercentages[rarity.value] else 0
  }

  /** The two agree on every rarity that is not an inherited member name. */
  lemma RarityPercentageAgrees(rarity: Option<string>)
    requires !(rarity.Some? && rarity.value in InheritedMembers)
    ensures RarityLookupAsWritten(rarity) == Percent(RarityPercentage(rarity))
  {
  }
}
