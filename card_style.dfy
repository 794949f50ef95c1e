/** Presentation rules the card components share: the `rarity-…` CSS class
    (`getRarityClass`, defined identically in src/components/CombinationModal.jsx
    and src/components/CardDetailModal.jsx) and threshold tiers, where a score's
    tier is the number of ascending thresholds it reaches. */
module CardStyle {
  import opened Base
  import opened Text

  /** `s.replace(/\s+/g, '-')`: each maximal run of white space becomes one '-'. */
  function Hyphenate(s: string): (r: string)
    ensures SpaceFree(r)
    ensures |r| <= |s|
    decreases |s|
  {
    if s == [] then ""
    else if IsSpace(s[0]) then "-" + Hyphenate(TrimStart(s))
    else [s[0]] + Hyphenate(s[1..])
  }

  /** A run of white space between two words becomes a single hyphen. */
  lemma HyphenateJoinsWords(a: string, gap: string, b: string)
    requires SpaceFree(a) && gap != [] && IsBlank(gap) && (b == [] || !IsSpace(b[0]))
    ensures Hyphenate(a + gap + b) == a + "-" + Hyphenate(b)
  {
    assert a + gap + b == a + (gap + b);
    HyphenateKeepsPrefix(a, gap + b);
    HyphenateGap(gap, b);
  }

  /** Text without white space passes through unchanged, whatever follows it. */
  lemma {:induction false} HyphenateKeepsPrefix(a: string, t: string)
    requires SpaceFree(a)
    ensures Hyphenate(a + t) == a + Hyphenate(t)
    decreases |a|
  {
    if a == [] {
      assert a + t == t;
    } else {
      var rest := a[1..] + t;
      assert a + t == [a[0]] + rest;
      HyphenateKeepsHead(a[0], rest);
      HyphenateKeepsPrefix(a[1..], t);
      assert [a[0]] + (a[1..] + Hyphenate(t)) == a + Hyphenate(t);
    }
  }

  /** A character other than white space is kept as it is. */
  lemma HyphenateKeepsHead(c: char, t: string)
    requires !IsSpace(c)
    ensures Hyphenate([c] + t) == [c] + Hyphenate(t)
  {
    assert ([c] + t)[0] == c && ([c] + t)[1..] == t;
  }

  /** Leading white space becomes one hyphen. */
  lemma HyphenateGap(gap: string, b: string)
    requires gap != [] && IsBlank(gap) && (b == [] || !IsSpace(b[0]))
    ensures Hyphenate(gap + b) == "-" + Hyphenate(b)
  {
    assert IsSpace((gap + b)[0]);
    GapTrimmed(gap, b);
  }

  lemma {:induction false} GapTrimmed(gap: string, b: string)
    requires IsBlank(gap) && (b == [] || !IsSpace(b[0]))
    ensures TrimStart(gap + b) == b
    decreases |gap|
  {
    if gap == [] {
      assert gap + b == b;
    } else {
      assert (gap + b)[0] == gap[0];
      assert (gap + b)[1..] == gap[1..] + b;
      GapTrimmed(gap[1..], b);
    }
  }

  /** `getRarityClass(rarity)`. */
  function RarityClass(rarity: Option<string>): (c: string)
    ensures !Present(rarity) ==> c == "rarity-unknown"
    ensures StartsWith(c, "rarity-") && SpaceFree(c)
    ensures Present(rarity) ==> c == "rarity-" + Hyphenate(Lower(rarity.value))
    ensures Present(rarity) && SpaceFree(rarity.value) ==> c == "rarity-" + Lower(rarity.value)
  {
    if !Present(rarity) then
      assert SpaceFree("rarity-unknown") by { ClassName("unknown"); }
      "rarity-unknown"
    else
      var lower := Lower(rarity.value);
      var suffix := Hyphenate(lower);
      ClassName(suffix);
      if SpaceFree(rarity.value) then
        assert suffix == lower by {
          LowerKeepsSpacing(rarity.value);
          HyphenateKeepsPrefix(lower, "");
          assert lower + "" == lower;
        }
        "rarity-" + suffix
      else
        "rarity-" + suffix
  }

  /** `rarity-` followed by a suffix without white space has none either. */
  lemma ClassName(suffix: string)
    requires SpaceFree(suffix)
    ensures StartsWith("rarity-" + suffix, "rarity-") && SpaceFree("rarity-" + suffix)
  {
    var c := "rarity-" + suffix;
    assert c[..7] == "rarity-";
    forall i | 0 <= i < |c|
      ensures !IsSpace(c[i])
    {
      if i >= 7 {
        assert c[i] == suffix[i - 7];
      }
    }
  }

  /** A two-word rarity such as "AI Generated" gives the class of its
      lower-cased words joined by one hyphen (`rarity-ai-generated`). */
  lemma RarityClassJoinsWords(a: string, gap: string, b: string)
    requires a != [] && SpaceFree(a) && gap != [] && IsBlank(gap) && SpaceFree(b)
    ensures RarityClass(Some(a + gap + b)) == "rarity-" + Lower(a) + "-" + Lower(b)
  {
    var la, lg, lb := Lower(a), Lower(gap), Lower(b);
    assert Lower(a + gap + b) == la + lg + lb by {
      LowerAppend(a + gap, b);
      LowerAppend(a, gap);
    }
    assert SpaceFree(la) && lg != [] && IsBlank(lg) && SpaceFree(lb) by {
      LowerKeepsSpacing(a);
      LowerKeepsSpacing(gap);
      LowerKeepsSpacing(b);
    }
    assert Hyphenate(la + lg + lb) == la + "-" + lb by {
      HyphenateJoinsWords(la, lg, lb);
      HyphenateKeepsPrefix(lb, "");
      assert lb + "" == lb;
    }
  }

  /** How many of the ascending `thresholds` the score `x` reaches. */
  function Reached(x: int, thresholds: seq<int>): (n: nat)
    ensures n <= |thresholds|
  {
    if thresholds == [] then 0
    else (if x >= thresholds[0] then 1 else 0) + Reached(x, thresholds[1..])
  }

  /** A higher score reaches at least as many thresholds. */
  lemma {:induction false} ReachedMonotone(x: int, y: int, thresholds: seq<int>)
    requires x <= y
    ensures Reached(x, thresholds) <= Reached(y, thresholds)
    decreases |thresholds|
  {
    if thresholds != [] {
      ReachedMonotone(x, y, thresholds[1..]);
    }
  }
}
