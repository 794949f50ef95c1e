/** The card library panel (src/components/CardLibrary.jsx): the cards are
    loaded once from the server, filtered by rarity, listed with a React key
    each and marked when selected. */
module CardLibrary {
  import opened Base
  import opened Text

  /** The card fields the panel reads. `id` is `None` when undefined and
      `Some(JNull)` when null. */
  datatype LibCard = LibCard(id: Option<Json>, name: Option<string>, rarity: Option<string>, power: Option<int>)

  /** The filter option values of the rarity `<select>`. */
  const FilterOptions := ["all", "common", "rare", "epic", "legendary", "fusion"]

  /** The rarity filter: "all" keeps every card; any other filter keeps the
      cards whose rarity, lower-cased, equals the lower-cased filter, and
      `card.rarity?.toLowerCase()` is undefined for a card with no rarity. */
  predicate Keeps(filter: string, card: LibCard) {
    filter == "all" || (card.rarity.Some? && Lower(card.rarity.value) == Lower(filter))
  }

  /** `filteredCards`. */
  function Filtered(cards: seq<LibCard>, filter: string): (r: seq<LibCard>)
    ensures forall c :: c in r <==> c in cards && Keeps(filter, c)
    ensures forall c :: multiset(r)[c] == (if Keeps(filter, c) then multiset(cards)[c] else 0)
    ensures IsSubsequence(r, cards)
  {
    Filter(cards, (c: LibCard) => Keeps(filter, c))
  }

  /** "all" keeps the list as it is. */
  lemma AllKeepsEverything(cards: seq<LibCard>)
    ensures Filtered(cards, "all") == cards
  {
    forall i | 0 <= i < |cards|
      ensures Keeps("all", cards[i])
    {
    }
  }

  /** Any other filter drops every card without a rarity and keeps only
      cards whose rarity matches it up to case. */
  lemma FilterDropsUnrated(cards: seq<LibCard>, filter: string)
    requires filter != "all"
    ensures forall c :: c in Filtered(cards, filter) ==> c.rarity.Some? && Lower(c.rarity.value) == Lower(filter)
    ensures forall c :: c in cards && c.rarity.None? ==> c !in Filtered(cards, filter)
  {
  }

  /** The header text's count: `filteredCards.length`, never above the cards loaded. */
  function HeaderCount(cards: seq<LibCard>, filter: string): (n: nat)
    ensures n == |Filtered(cards, filter)|
    ensures n <= |cards|
    ensures filter == "all" ==> n == |cards|
  {
    AllKeepsEverything(cards);
    |Filtered(cards, filter)|
  }

  /** The React key of a card: its id unless that is null or undefined, else
      `${card.name || 'card'}-${idx}`. */
  datatype Key = IdKey(id: Json) | FallbackKey(text: string)

  function FallbackText(name: Option<string>, idx: nat): (t: string)
    ensures t == OrElse(name, "card") + "-" + NatToString(idx)
  {
    OrElse(name, "card") + "-" + NatToString(idx)
  }

  function CardKey(card: LibCard, idx: nat): (k: Key)
    ensures card.id.Some? && card.id.value != JNull ==> k == IdKey(card.id.value)
    ensures card.id.None? || card.id == Some(JNull) ==> k == FallbackKey(FallbackText(card.name, idx))
  {
    if card.id.Some? && card.id.value != JNull then IdKey(card.id.value)
    else FallbackKey(FallbackText(card.name, idx))
  }

  /** A dash followed by a shorter number is no dash followed by a longer one. */
  lemma ShorterSuffixDiffers(n1: string, i: nat, n2: string, j: nat)
    requires |NatToString(i)| < |NatToString(j)|
    ensures n1 + "-" + NatToString(i) != n2 + "-" + NatToString(j)
  {
    var d1, d2 := NatToString(i), NatToString(j);
    var a, b := n1 + "-" + d1, n2 + "-" + d2;
    var k := |a| - |d1| - 1;
    assert a[k] == '-';
    if |a| == |b| {
      assert b[k] == d2[k - (|b| - |d2|)];
      assert a[k] != b[k];
    }
  }

  /** Two fallback keys at different positions differ, whatever the names:
      the text after the last "-" is the position. */
  lemma FallbackKeysDistinct(n1: Option<string>, i: nat, n2: Option<string>, j: nat)
    requires i != j
    ensures FallbackText(n1, i) != FallbackText(n2, j)
  {
    var d1, d2 := NatToString(i), NatToString(j);
    var a, b := FallbackText(n1, i), FallbackText(n2, j);
    if |d1| < |d2| {
      ShorterSuffixDiffers(OrElse(n1, "card"), i, OrElse(n2, "card"), j);
    } else if |d2| < |d1| {
      ShorterSuffixDiffers(OrElse(n2, "card"), j, OrElse(n1, "card"), i);
    } else if |a| == |b| {
      assert d1 == a[|a| - |d1|..] && d2 == b[|b| - |d2|..];
      if d1 == d2 {
        NatToStringInjective(i, j);
      }
    }
  }

  /** The class of a card tile: `card-item ${selectedCards.includes(card.id) ? 'selected' : ''}`.
      A card without an id is marked when `selectedCards` holds `undefined`. */
  function ItemClass(selected: seq<Option<Json>>, card: LibCard): (cls: string)
    ensures StartsWith(cls, "card-item ")
    ensures cls == "card-item selected" <==> card.id in selected
    ensures card.id !in selected ==> cls == "card-item "
  {
    var cls := "card-item " + (if card.id in selected then "selected" else "");
    assert cls[..10] == "card-item ";
    cls
  }

  /** The power shown: `card.power || '?'`, so 0 and a missing power both show "?". */
  function PowerLabel(power: Option<int>): (t: string)
    ensures power.None? || power.value == 0 ==> t == "?"
    ensures power.Some? && power.value != 0 ==> t == IntToString(power.value)
  {
    if power.None? || power.value == 0 then "?" else IntToString(power.value)
  }

  /** What `apiService.getAllCards()` produced: a list of cards, a `null`
      body (its `.length` then throws inside the `try`), or a thrown error. */
  datatype LoadOutcome = Loaded(cards: seq<LibCard>) | NullBody | Failed

  const LoadError := "Failed to load cards from server"

  /** The panel state: `cards`, `loading`, `error` and `filter`. */
  class LibraryPanel {
    var cards: seq<LibCard>
    var loading: bool
    var error: Option<string>
    var filter: string

    constructor()
      ensures cards == [] && loading && error.None? && filter == "all"
    {
      cards, loading, error, filter := [], true, None, "all";
    }

    /** The start of `loadCards`. */
    method BeginLoad()
      modifies this`loading, this`error
      ensures loading && error.None?
    {
      loading, error := true, None;
    }

    /** The end of `loadCards`: the cards on success; an empty list and the
        error message otherwise; loading over either way. */
    method FinishLoad(outcome: LoadOutcome)
      modifies this`cards, this`loading, this`error
      ensures !loading
      ensures outcome.Loaded? ==> cards == outcome.cards && error == old(error)
      ensures !outcome.Loaded? ==> cards == [] && error == Some(LoadError)
    {
      match outcome {
        case Loaded(loaded) =>
          cards := loaded;
        case _ =>
          error := Some(LoadError);
          cards := [];
      }
      loading := false;
    }

    /** The rarity `<select>`. */
    method SetFilter(value: string)
      modifies this`filter
      ensures filter == value
    {
      filter := value;
    }
  }

  /** What the panel renders. */
  datatype View = LoadingView | ErrorView(message: string) | ListView(count: nat, shown: seq<LibCard>)

  /** Loading first, then the error, then the filtered list. */
  function Render(cards: seq<LibCard>, loading: bool, error: Option<string>, filter: string): (v: View)
    ensures loading ==> v == LoadingView
    ensures !loading && error.Some? && error.value != "" ==> v == ErrorView(error.value)
    ensures !loading && (error.None? || error.value == "") ==>
              v == ListView(|Filtered(cards, filter)|, Filtered(cards, filter))
    ensures v.ListView? ==> v.count == |v.shown| && v.shown == Filtered(cards, filter) && v.count <= |cards|
  {
    if loading then LoadingView
    else if error.Some? && error.value != "" then ErrorView(error.value)
    else ListView(HeaderCount(cards, filter), Filtered(cards, filter))
  }
}
