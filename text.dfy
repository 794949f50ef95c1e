/** The JavaScript string operations the core relies on: the `\s` white-space
    class (also what `trim` removes), `toLowerCase`/`toUpperCase` restricted to
    ASCII letters, `includes`, `startsWith`, `split`/`join` on a separator, and
    the decimal rendering of integers in template strings. */
module Text {

  /** The characters matched by `\s` in a JavaScript regular expression. */
  predicate IsSpace(c: char) {
    || c == ' ' || c == '\t' || c == '\n' || c == '\r' || c == '\U{000B}' || c == '\U{000C}'
    || c == '\U{00A0}' || c == '\U{1680}' || ('\U{2000}' <= c <= '\U{200A}')
    || c == '\U{2028}' || c == '\U{2029}' || c == '\U{202F}' || c == '\U{205F}'
    || c == '\U{3000}' || c == '\U{FEFF}'
  }

  /** No white space anywhere in `s`. */
  predicate SpaceFree(s: string) {
    forall i :: 0 <= i < |s| ==> !IsSpace(s[i])
  }

  /** `s.trim().length === 0`. */
  predicate IsBlank(s: string) {
    forall i :: 0 <= i < |s| ==> IsSpace(s[i])
  }

  function LowerChar(c: char): (d: char)
    ensures 'A' <= c <= 'Z' ==> 'a' <= d <= 'z'
    ensures !('A' <= c <= 'Z') ==> d == c
  {
    if 'A' <= c <= 'Z' then (c as int + 32) as char else c
  }

  function UpperChar(c: char): (d: char)
    ensures 'a' <= c <= 'z' ==> 'A' <= d <= 'Z'
    ensures !('a' <= c <= 'z') ==> d == c
  {
    if 'a' <= c <= 'z' then (c as int - 32) as char else c
  }

  /** `s.toLowerCase()`, for ASCII letters. */
  function Lower(s: string): (r: string)
    ensures |r| == |s|
    ensures forall i :: 0 <= i < |s| ==> r[i] == LowerChar(s[i])
  {
    seq(|s|, i requires 0 <= i < |s| => LowerChar(s[i]))
  }

  /** `s.toUpperCase()`, for ASCII letters. */
  function Upper(s: string): (r: string)
    ensures |r| == |s|
    ensures forall i :: 0 <= i < |s| ==> r[i] == UpperChar(s[i])
  {
    seq(|s|, i requires 0 <= i < |s| => UpperChar(s[i]))
  }

  /** Lower-casing neither makes nor removes white space. */
  lemma LowerKeepsSpacing(s: string)
    ensures forall i :: 0 <= i < |s| ==> (IsSpace(Lower(s)[i]) <==> IsSpace(s[i]))
    ensures SpaceFree(s) <==> SpaceFree(Lower(s))
    ensures IsBlank(s) <==> IsBlank(Lower(s))
  {
    forall i | 0 <= i < |s|
      ensures IsSpace(Lower(s)[i]) <==> IsSpace(s[i])
    {
      if 'A' <= s[i] <= 'Z' {
        assert 'a' <= Lower(s)[i] <= 'z';
      }
    }
  }

  lemma LowerAppend(a: string, b: string)
    ensures Lower(a + b) == Lower(a) + Lower(b)
  {
  }

  predicate StartsWith(s: string, prefix: string) {
    |prefix| <= |s| && s[..|prefix|] == prefix
  }

  /** `${baseUrl}${path}`: a request target on the API server. */
  function Endpoint(baseUrl: string, path: string): (t: string)
    ensures StartsWith(t, baseUrl)
    ensures t[|baseUrl|..] == path
  {
    var t := baseUrl + path;
    assert t[..|baseUrl|] == baseUrl;
    t
  }

  /** `p` occurs in `s` starting at index `i`. */
  predicate OccursAt(s: string, p: string, i: int) {
    0 <= i <= |s| - |p| && s[i..i + |p|] == p
  }

  /** `s.includes(p)`. */
  predicate Contains(s: string, p: string) {
    exists i | 0 <= i <= |s| - |p| :: OccursAt(s, p, i)
  }

  lemma ContainsEmpty(s: string)
    ensures Contains(s, "")
  {
    assert OccursAt(s, "", 0);
  }

  /** Every character of a contained string occurs in the container; used to
      show that a literal does not contain a word by naming one missing letter. */
  lemma ContainsOnlyOwnChars(s: string, p: string, k: int)
    requires 0 <= k < |p|
    requires p[k] !in s
    ensures !Contains(s, p)
  {
    forall i | 0 <= i <= |s| - |p|
      ensures !OccursAt(s, p, i)
    {
      assert s[i + k] in s;
      assert s[i..i + |p|][k] == s[i + k];
    }
  }

  /** Text around a contained string keeps it contained. */
  lemma ContainsWithin(s: string, p: string, before: string, after: string)
    requires Contains(s, p)
    ensures Contains(before + s + after, p)
  {
    var i :| 0 <= i <= |s| - |p| && OccursAt(s, p, i);
    var t := before + s + after;
    var j := |before| + i;
    assert t[j..j + |p|] == s[i..i + |p|];
    assert OccursAt(t, p, j);
  }

  /** `s.replace(/\s+/g, "")`: every white-space character removed. */
  function RemoveSpaces(s: string): (r: string)
    ensures SpaceFree(r)
    ensures |r| <= |s|
    ensures SpaceFree(s) ==> r == s
  {
    if s == [] then ""
    else if IsSpace(s[0]) then RemoveSpaces(s[1..])
    else [s[0]] + RemoveSpaces(s[1..])
  }

  lemma {:induction false} RemoveSpacesAppend(a: string, b: string)
    ensures RemoveSpaces(a + b) == RemoveSpaces(a) + RemoveSpaces(b)
    decreases |a|
  {
    if a == [] {
      assert a + b == b;
    } else {
      assert (a + b)[0] == a[0];
      assert (a + b)[1..] == a[1..] + b;
      RemoveSpacesAppend(a[1..], b);
      if IsSpace(a[0]) {
        assert RemoveSpaces(a + b) == RemoveSpaces(a[1..] + b);
      } else {
        assert RemoveSpaces(a + b) == [a[0]] + RemoveSpaces(a[1..] + b);
      }
    }
  }

  /** Removing white space leaves nothing exactly when there was nothing else. */
  lemma {:induction false} RemoveSpacesEmpty(s: string)
    ensures RemoveSpaces(s) == "" <==> IsBlank(s)
    decreases |s|
  {
    if s != [] {
      RemoveSpacesEmpty(s[1..]);
      assert IsBlank(s) <==> IsSpace(s[0]) && IsBlank(s[1..]) by {
        if IsSpace(s[0]) && IsBlank(s[1..]) {
          forall i | 1 <= i < |s|
            ensures IsSpace(s[i])
          {
            assert s[i] == s[1..][i - 1];
          }
        }
      }
    }
  }

  /** Lower-casing brings in no character outside `a`-`z`. */
  lemma LowerKeepsAbsent(s: string, c: char)
    requires c !in s && !('a' <= c <= 'z')
    ensures c !in Lower(s)
  {
    forall i | 0 <= i < |s|
      ensures Lower(s)[i] != c
    {
      assert s[i] in s;
    }
  }

  /** Leading white space removed. */
  function TrimStart(s: string): (r: string)
    ensures |r| <= |s|
    ensures r == [] || !IsSpace(r[0])
    ensures s != [] && IsSpace(s[0]) ==> |r| < |s|
  {
    if s != [] && IsSpace(s[0]) then TrimStart(s[1..]) else s
  }

  /** Trimming the start keeps a suffix and cuts only white space. */
  lemma {:induction false} TrimStartCutsSpace(s: string)
    ensures TrimStart(s) == s[|s| - |TrimStart(s)|..]
    ensures IsBlank(s[..|s| - |TrimStart(s)|])
    decreases |s|
  {
    if s != [] && IsSpace(s[0]) {
      TrimStartCutsSpace(s[1..]);
      var k := |s| - |TrimStart(s)|;
      assert s[1..][..k - 1] == s[1..k];
      assert s[..k] == [s[0]] + s[1..k];
    }
  }

  /** Trailing white space removed. */
  function TrimEnd(s: string): (r: string)
    ensures |r| <= |s|
    ensures r == [] || !IsSpace(r[|r| - 1])
  {
    if s != [] && IsSpace(s[|s| - 1]) then TrimEnd(s[..|s| - 1]) else s
  }

  /** Trimming the end keeps a prefix and cuts only white space. */
  lemma {:induction false} TrimEndCutsSpace(s: string)
    ensures TrimEnd(s) == s[..|TrimEnd(s)|]
    ensures IsBlank(s[|TrimEnd(s)|..])
    decreases |s|
  {
    if s != [] && IsSpace(s[|s| - 1]) {
      var t := s[..|s| - 1];
      TrimEndCutsSpace(t);
      var k := |TrimEnd(s)|;
      assert t[..k] == s[..k];
      assert s[k..] == t[k..] + [s[|s| - 1]];
    }
  }

  /** `s.trim()`. */
  function Trim(s: string): (r: string)
    ensures SpaceFree(s) ==> r == s
    ensures r == [] || (!IsSpace(r[0]) && !IsSpace(r[|r| - 1]))
    ensures r == [] <==> IsBlank(s)
  {
    TrimStartCutsSpace(s);
    TrimEndCutsSpace(TrimStart(s));
    TrimEnd(TrimStart(s))
  }

  /** `trim` keeps a slice of the text and cuts only white space from its ends. */
  lemma TrimCutsSpace(s: string)
    ensures var k := |s| - |TrimStart(s)|;
            && k + |Trim(s)| <= |s|
            && Trim(s) == s[k..k + |Trim(s)|]
            && IsBlank(s[..k]) && IsBlank(s[k + |Trim(s)|..])
  {
    var t := TrimStart(s);
    var k := |s| - |t|;
    var n := |Trim(s)|;
    assert IsBlank(s[..k]) by { TrimStartCutsSpace(s); }
    assert t == s[k..] by { TrimStartCutsSpace(s); }
    assert Trim(s) == t[..n] && IsBlank(t[n..]) by { TrimEndCutsSpace(t); }
    assert t[..n] == s[k..k + n];
    assert t[n..] == s[k + n..];
  }

  /** The decimal digit of `d`. */
  function Digit(d: nat): (c: char)
    requires d < 10
    ensures '0' <= c <= '9'
  {
    "0123456789"[d]
  }

  /** `String(n)` for a natural number. */
  function NatToString(n: nat): (s: string)
    ensures 1 <= |s|
    ensures forall i :: 0 <= i < |s| ==> '0' <= s[i] <= '9'
  {
    if n < 10 then [Digit(n)] else NatToString(n / 10) + [Digit(n % 10)]
  }

  lemma DigitInjective(d: nat, e: nat)
    requires d < 10 && e < 10 && Digit(d) == Digit(e)
    ensures d == e
  {
  }

  lemma LastDigitSplit(a: nat)
    ensures a == 10 * (a / 10) + a % 10
  {
  }

  /** Different numbers are written differently. */
  lemma {:induction false} NatToStringInjective(a: nat, b: nat)
    requires NatToString(a) == NatToString(b)
    ensures a == b
    decreases a
  {
    var s := NatToString(a);
    if a < 10 && b < 10 {
      DigitInjective(a, b);
    } else if a < 10 {
      assert false;
    } else if b < 10 {
      assert false;
    } else {
      var pa, pb := NatToString(a / 10), NatToString(b / 10);
      assert s[..|s| - 1] == pa && s[..|s| - 1] == pb;
      assert s[|s| - 1] == Digit(a % 10) && s[|s| - 1] == Digit(b % 10);
      DigitInjective(a % 10, b % 10);
      NatToStringInjective(a / 10, b / 10);
      LastDigitSplit(a);
      LastDigitSplit(b);
    }
  }

  /** `String(n)` for any integer. */
  function IntToString(n: int): (s: string)
    ensures 1 <= |s|
    ensures n >= 0 ==> s == NatToString(n)
    ensures n < 0 ==> s[0] == '-'
  {
    if n < 0 then "-" + NatToString(-n) else NatToString(n)
  }

  /** `s.split(sep)` for a one-character separator. */
  function Split(s: string, sep: char): (parts: seq<string>)
    ensures 1 <= |parts|
    ensures forall k :: 0 <= k < |parts| ==> sep !in parts[k]
  {
    if s == [] then [""]
    else if s[0] == sep then [""] + Split(s[1..], sep)
    else
      var rest := Split(s[1..], sep);
      [[s[0]] + rest[0]] + rest[1..]
  }

  /** `parts.join(sep)`. */
  function Join(parts: seq<string>, sep: string): (s: string)
    ensures parts == [] ==> s == ""
  {
    if parts == [] then ""
    else if |parts| == 1 then parts[0]
    else parts[0] + sep + Join(parts[1..], sep)
  }

  /** Splitting on a character and joining the parts back with it restores the string. */
  lemma {:induction false} JoinSplit(s: string, sep: char)
    ensures Join(Split(s, sep), [sep]) == s
    decreases |s|
  {
    if s != [] {
      JoinSplit(s[1..], sep);
      var rest := Split(s[1..], sep);
      if s[0] == sep {
        assert Split(s, sep) == [""] + rest;
        assert ([""] + rest)[1..] == rest;
      } else {
        assert Split(s, sep) == [[s[0]] + rest[0]] + rest[1..];
        if |rest| == 1 {
          assert Join(rest, [sep]) == rest[0];
        } else {
          assert Join(rest, [sep]) == rest[0] + [sep] + Join(rest[1..], [sep]);
          var p := [[s[0]] + rest[0]] + rest[1..];
          assert p[1..] == rest[1..];
        }
      }
    }
  }

  /** A string free of the separator is one part. */
  lemma {:induction false} SplitWithoutSeparator(s: string, sep: char)
    requires sep !in s
    ensures Split(s, sep) == [s]
    decreases |s|
  {
    if s != [] {
      var tail := s[1..];
      assert s[0] in s;
      assert forall c :: c in tail ==> c in s;
      SplitWithoutSeparator(tail, sep);
      assert Split(s, sep) == [[s[0]] + tail];
      assert [s[0]] + tail == s;
    }
  }

  /** The part before the first separator is split off first. */
  lemma {:induction false} SplitAtSeparator(a: string, sep: char, b: string)
    requires sep !in a
    ensures Split(a + [sep] + b, sep) == [a] + Split(b, sep)
    decreases |a|
  {
    if a == [] {
      assert a + [sep] + b == [sep] + b;
      assert ([sep] + b)[1..] == b;
    } else {
      var s := a + [sep] + b;
      assert s[0] == a[0];
      assert s[1..] == a[1..] + [sep] + b;
      assert a[0] in a;
      assert forall k :: 0 <= k < |a[1..]| ==> a[1..][k] == a[k + 1];
      assert sep !in a[1..];
      SplitAtSeparator(a[1..], sep, b);
      var rest := Split(s[1..], sep);
      assert rest == [a[1..]] + Split(b, sep);
      assert Split(s, sep) == [[s[0]] + rest[0]] + rest[1..];
      assert [a[0]] + a[1..] == a;
      assert rest[1..] == Split(b, sep);
    }
  }
}
