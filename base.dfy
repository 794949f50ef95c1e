/** Values shared by every part of the model: optional and failing results, the
    JSON values that the browser parses from storage and HTTP bodies, JavaScript
    truthiness, and an order-preserving filter over sequences. */
module Base {
  import Text

  datatype Option<+T> = None | Some(value: T) {
    function GetOr(default: T): T {
      if Some? then value else default
    }
  }

  datatype Result<+T, +E> = Ok(value: T) | Err(error: E)

  /** A parsed JSON value (numbers are kept integral: nothing in the model divides them). */
  datatype Json =
    | JNull
    | JBool(b: bool)
    | JNum(n: int)
    | JStr(s: string)
    | JArr(items: seq<Json>)
    | JObj(fields: map<string, Json>)

  /** JavaScript truthiness of a parsed JSON value. */
  predicate Truthy(j: Json) {
    match j
    case JNull => false
    case JBool(b) => b
    case JNum(n) => n != 0
    case JStr(s) => s != ""
    case JArr(_) => true
    case JObj(_) => true
  }

  /** An optional string is truthy when it is present and not empty. */
  predicate Present(s: Option<string>) {
    s.Some? && s.value != ""
  }

  /** `s || fallback` for an optional string. */
  function OrElse(s: Option<string>, fallback: string): (r: string)
    ensures Present(s) ==> r == s.value
    ensures !Present(s) ==> r == fallback
  {
    if Present(s) then s.value else fallback
  }

  /** `Math.min` on integers. */
  function Min(a: int, b: int): int {
    if a <= b then a else b
  }

  /** `j[key]` when `j` is an object whose member `key` is a string. */
  function StringField(j: Json, key: string): (v: Option<string>)
    ensures v.Some? <==> j.JObj? && key in j.fields && j.fields[key].JStr?
    ensures v.Some? ==> j.fields[key] == JStr(v.value)
  {
    if j.JObj? && key in j.fields && j.fields[key].JStr? then Some(j.fields[key].s) else None
  }

  /** `j[key]`: the member when `j` is an object holding `key`, else `undefined`
      (`None`). A string, number, boolean or array has none of the keys read here. */
  function Member(j: Json, key: string): (v: Option<Json>)
    ensures v.Some? <==> j.JObj? && key in j.fields
    ensures v.Some? ==> v.value == j.fields[key]
  {
    if j.JObj? && key in j.fields then Some(j.fields[key]) else None
  }

  /** `String(x)` of a JSON value as `Array.prototype.join` renders an element:
      `null` gives the empty string, an array the comma-joined texts of its
      elements, an object `[object Object]`. */
  function JsonText(j: Json): (t: string)
    ensures j.JStr? ==> t == j.s
    ensures j.JNull? ==> t == ""
    ensures j.JObj? ==> t == "[object Object]"
  {
    match j
    case JNull => ""
    case JBool(b) => if b then "true" else "false"
    case JNum(n) => Text.IntToString(n)
    case JStr(s) => s
    case JArr(items) => Text.Join(seq(|items|, i requires 0 <= i < |items| => JsonText(items[i])), ",")
    case JObj(_) => "[object Object]"
  }

  /** `r` is obtained from `s` by deleting elements: what survives keeps its order. */
  ghost predicate IsSubsequence<T>(r: seq<T>, s: seq<T>)
    decreases |s|
  {
    r == [] || (s != [] && ((r[0] == s[0] && IsSubsequence(r[1..], s[1..])) || IsSubsequence(r, s[1..])))
  }

  /** `Array.prototype.filter`: the elements of `s` that `keep` accepts, in
      their order, each as often as it occurs in `s`. */
  function Filter<T(!new)>(s: seq<T>, keep: T -> bool): (r: seq<T>)
    ensures |r| <= |s|
    ensures forall x :: multiset(r)[x] == (if keep(x) then multiset(s)[x] else 0)
    ensures forall x :: x in r <==> x in s && keep(x)
    ensures multiset(r) <= multiset(s)
    ensures IsSubsequence(r, s)
    ensures (forall i :: 0 <= i < |s| ==> keep(s[i])) ==> r == s
  {
    if s == [] then []
    else
      var rest := Filter(s[1..], keep);
      FilterStep(s, rest, keep);
      var r := if keep(s[0]) then [s[0]] + rest else rest;
      CountsGiveMembership(r, s, keep);
      r
  }

  /** One step of `Filter`: putting the head back in front of the filtered
      tail, when `keep` accepts it, filters the whole sequence. */
  lemma FilterStep<T>(s: seq<T>, rest: seq<T>, keep: T -> bool)
    requires s != [] && |rest| <= |s| - 1
    requires forall x :: multiset(rest)[x] == (if keep(x) then multiset(s[1..])[x] else 0)
    requires IsSubsequence(rest, s[1..])
    requires (forall i :: 1 <= i < |s| ==> keep(s[i])) ==> rest == s[1..]
    ensures var r := if keep(s[0]) then [s[0]] + rest else rest;
      && |r| <= |s|
      && (forall x :: multiset(r)[x] == (if keep(x) then multiset(s)[x] else 0))
      && IsSubsequence(r, s)
      && ((forall i :: 0 <= i < |s| ==> keep(s[i])) ==> r == s)
  {
    assert s == [s[0]] + s[1..];
    assert multiset(s) == multiset{s[0]} + multiset(s[1..]);
    if keep(s[0]) {
      var r := [s[0]] + rest;
      assert multiset(r) == multiset{s[0]} + multiset(rest);
      assert r[1..] == rest;
      if forall i :: 0 <= i < |s| ==> keep(s[i]) {
        assert forall i :: 1 <= i < |s| ==> keep(s[i]);
      }
    }
  }

  /** Counts that agree with `keep` fix membership and inclusion. */
  lemma CountsGiveMembership<T>(r: seq<T>, s: seq<T>, keep: T -> bool)
    requires forall x :: multiset(r)[x] == (if keep(x) then multiset(s)[x] else 0)
    ensures forall x :: x in r <==> x in s && keep(x)
    ensures multiset(r) <= multiset(s)
  {
    forall x
      ensures x in r <==> x in s && keep(x)
    {
      assert x in r <==> multiset(r)[x] > 0;
      assert x in s <==> multiset(s)[x] > 0;
    }
  }
}
