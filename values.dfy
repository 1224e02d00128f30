/** Dynamically typed payloads: the `Dict[str, Any]` values of event data, persona files and audit details. */
module Values {
  import opened Wrappers

  datatype Value =
    | Null
    | Bool(b: bool)
    | Int(i: int)
    | Real(r: real)
    | Str(s: string)
    | List(items: seq<Value>)
    | Dict(entries: map<string, Value>)

  /** Python's `d.get(key, default)`. */
  function Get(d: map<string, Value>, key: string, default: Value): (v: Value)
    ensures key in d ==> v == d[key]
    ensures key !in d ==> v == default
  {
    if key in d then d[key] else default
  }

  /** A list of strings as a `List` value. */
  function StrList(ss: seq<string>): (v: Value)
    ensures v.List? && |v.items| == |ss|
    ensures forall i :: 0 <= i < |ss| ==> v.items[i] == Str(ss[i])
  {
    List(seq(|ss|, i requires 0 <= i < |ss| => Str(ss[i])))
  }

  /** The strings of a list of `Str` values; `None` when some item is not a string. */
  function AsStrings(items: seq<Value>): (r: Option<seq<string>>)
    ensures r.Some? <==> forall i :: 0 <= i < |items| ==> items[i].Str?
    ensures r.Some? ==> |r.value| == |items| &&
                        forall i :: 0 <= i < |items| ==> r.value[i] == items[i].s
  {
    if items == [] then Some([])
    else if !items[0].Str? then None
    else
      match AsStrings(items[1..])
      case None => None
      case Some(rest) => Some([items[0].s] + rest)
  }

  /** Reading back a written list of strings gives the same strings. */
  lemma StrListRoundTrip(ss: seq<string>)
    ensures AsStrings(StrList(ss).items) == Some(ss)
  {
    var r := AsStrings(StrList(ss).items);
    assert r.Some?;
    assert r.value == ss;
  }

  /** A string-to-string mapping as a `Dict` value. */
  function StrMap(m: map<string, string>): (v: Value)
    ensures v.Dict? && v.entries.Keys == m.Keys
    ensures forall k :: k in m ==> v.entries[k] == Str(m[k])
  {
    Dict(map k | k in m :: Str(m[k]))
  }

  /** The string mapping held by a dictionary whose values are all strings; `None` otherwise. */
  function AsStrMap(d: map<string, Value>): (r: Option<map<string, string>>)
    ensures r.Some? <==> forall k :: k in d ==> d[k].Str?
    ensures r.Some? ==> r.value.Keys == d.Keys && forall k :: k in d ==> r.value[k] == d[k].s
  {
    if forall k :: k in d ==> d[k].Str? then Some(map k | k in d :: d[k].s) else None
  }

  lemma StrMapRoundTrip(m: map<string, string>)
    ensures AsStrMap(StrMap(m).entries) == Some(m)
  {
    var r := AsStrMap(StrMap(m).entries);
    assert r.Some?;
    assert r.value == m;
  }
}
