/** JSON values as Python's `json.loads` produces them, and the dictionary
    lookups the scrapers perform on them. */
module JsonValue {
  import opened Results

  /** Numbers are kept as integers: the scrapers pass them through untouched. */
  datatype Json =
    | Null
    | Bool(b: bool)
    | Int(i: int)
    | Str(s: string)
    | Arr(items: seq<Json>)
    | Obj(fields: map<string, Json>)

  /** `j[k]` in Python: the value under key `k` when `j` is an object holding `k`.
      Every other case raises (KeyError on a missing key, TypeError on a
      non-object), which is `None` here. */
  function Get(j: Json, k: string): (r: Option<Json>)
    ensures r.Some? <==> j.Obj? && k in j.fields
    ensures r.Some? ==> r.value == j.fields[k]
  {
    if j.Obj? && k in j.fields then Some(j.fields[k]) else None
  }

  /** `try: v = j[k] except: v = default`. */
  function GetOr(j: Json, k: string, default: Json): (r: Json)
    ensures Get(j, k).Some? ==> r == Get(j, k).value
    ensures Get(j, k).None? ==> r == default
  {
    match Get(j, k)
    case Some(v) => v
    case None => default
  }

  /** A list of Python strings, as a JSON array of strings. */
  function Strs(ss: seq<string>): (r: Json)
    ensures r.Arr? && |r.items| == |ss|
    ensures forall i :: 0 <= i < |ss| ==> r.items[i] == Str(ss[i])
  {
    Arr(seq(|ss|, i requires 0 <= i < |ss| => Str(ss[i])))
  }

  /** `None` becomes JSON null, a present string a JSON string. */
  function StrOrNull(s: Option<string>): (r: Json)
    ensures r == Null <==> s.None?
    ensures s.Some? ==> r == Str(s.value)
  {
    match s
    case Some(v) => Str(v)
    case None => Null
  }
}
