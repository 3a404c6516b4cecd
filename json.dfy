/**
 * JSON values as they travel between the gateway and the analytics backend.
 * Numbers are modelled as integers only; JSON's fractional numbers are not
 * represented.
 */
module Json {
  import opened Wrappers

  datatype Json =
    | JNull
    | JBool(b: bool)
    | JNum(n: int)
    | JStr(s: string)
    | JArr(items: seq<Json>)
    | JObj(fields: map<string, Json>)

  /** A list of strings as a JSON array, element by element and in order. */
  function StringArray(xs: seq<string>): (j: Json)
    ensures j.JArr? && |j.items| == |xs|
    ensures forall i :: 0 <= i < |xs| ==> j.items[i] == JStr(xs[i])
  {
    if xs == [] then JArr([])
    else JArr([JStr(xs[0])] + StringArray(xs[1..]).items)
  }

  /** Reads a sequence of JSON values back as strings; `None` if any of them is not a string. */
  function AsStringList(items: seq<Json>): (r: Option<seq<string>>)
    ensures r.Some? ==> |r.value| == |items|
  {
    if items == [] then Some([])
    else if !items[0].JStr? then None
    else
      match AsStringList(items[1..])
      case None => None
      case Some(rest) => Some([items[0].s] + rest)
  }

  /** Reads a JSON array of strings back as a list; `None` for anything else. */
  function AsStrings(j: Json): (r: Option<seq<string>>)
  {
    if j.JArr? then AsStringList(j.items) else None
  }

  /** Encoding a list of strings and reading it back gives the same list. */
  lemma {:induction false} StringArrayRoundTrip(xs: seq<string>)
    ensures AsStrings(StringArray(xs)) == Some(xs)
  {
    if xs != [] {
      StringArrayRoundTrip(xs[1..]);
      var items := StringArray(xs).items;
      assert items[1..] == StringArray(xs[1..]).items;
      assert [xs[0]] + xs[1..] == xs;
    }
  }

  /** Two lists of strings encode to the same JSON array exactly when they are equal. */
  lemma {:induction false} StringArrayInjective(xs: seq<string>, ys: seq<string>)
    ensures StringArray(xs) == StringArray(ys) <==> xs == ys
  {
    if StringArray(xs) == StringArray(ys) {
      StringArrayRoundTrip(xs);
      StringArrayRoundTrip(ys);
    }
  }
}
