/** The parsed JSON values the client receives, and Python's subscript
    operator on them. */
module JsonData {
  import opened Errors

  /** A value as `response.json()` returns it: a dict for an object, a list
      for an array. */
  datatype Json =
    | JNull
    | JBool(b: bool)
    | JInt(i: int)
    | JFloat(f: real)
    | JString(s: string)
    | JArray(items: seq<Json>)
    | JObject(fields: map<string, Json>)

  /** `j[key]` with a string key: a dict yields the value stored under the
      key or raises KeyError; any other kind of value raises TypeError
      (a list or a string wants an integer index, a number, a boolean or
      None cannot be subscripted at all). No check is made on the kind of
      the value found. */
  function Subscript(j: Json, key: string): (r: Result<Json>)
    ensures r.Ok? <==> j.JObject? && key in j.fields
    ensures r.Ok? ==> r.value == j.fields[key]
    ensures !j.JObject? ==> r == Err(TypeError)
    ensures j.JObject? && key !in j.fields ==> r == Err(KeyError(key))
  {
    match j
    case JObject(fields) => if key in fields then Ok(fields[key]) else Err(KeyError(key))
    case _ => Err(TypeError)
  }

  /** A chain of subscripts `j[path[0]][path[1]]...`, evaluated left to
      right and stopping at the first one that raises. */
  function Walk(j: Json, path: seq<string>): (r: Result<Json>)
    ensures path == [] ==> r == Ok(j)
    ensures r.Err? ==> path != []
    ensures r.Err? && r.error.KeyError? ==> r.error.key in path
    ensures r.Err? ==> r.error.KeyError? || r.error == TypeError
  {
    if path == [] then Ok(j)
    else
      var next :- Subscript(j, path[0]);
      Walk(next, path[1..])
  }

  /** Walking along `p + q` is walking along `p`, then along `q` from
      where `p` ended. */
  lemma {:induction false} WalkAppend(j: Json, p: seq<string>, q: seq<string>)
    ensures Walk(j, p + q) == match Walk(j, p) case Ok(v) => Walk(v, q) case Err(e) => Err(e)
  {
    if p == [] {
      assert p + q == q;
    } else {
      assert (p + q)[0] == p[0];
      assert (p + q)[1..] == p[1..] + q;
      match Subscript(j, p[0])
      case Ok(next) => WalkAppend(next, p[1..], q);
      case Err(_) =>
    }
  }

  /** The first subscript of a chain is taken first, the rest from its
      value. */
  lemma WalkCons(j: Json, key: string, rest: seq<string>)
    ensures var first := Subscript(j, key);
      Walk(j, [key] + rest) == if first.Err? then first else Walk(first.value, rest)
  {
    assert ([key] + rest)[0] == key;
    assert ([key] + rest)[1..] == rest;
  }
}
