/** Decoded JSON values as Python holds them after `response.json()`, and Python's `value[key]` on them. */
module Json {
  import opened Wrappers

  datatype Json =
    | JNull
    | JBool(b: bool)
    | JNumber(n: real)
    | JString(s: string)
    | JArray(items: seq<Json>)
    | JObject(members: map<string, Json>)

  /** A subscript: `value["name"]` or `value[i]`. */
  datatype Key = Name(name: string) | Index(i: int)

  /** Python's sequence indexing, negative indices counting from the end. */
  predicate InBounds(i: int, length: nat) {
    -(length as int) <= i < length
  }

  function Normalized(i: int, length: nat): (k: nat)
    requires InBounds(i, length)
    ensures k < length
  {
    if i < 0 then length + i else i
  }

  /** Python's `value[key]` on a decoded JSON value, or the exception it raises instead: KeyError for a missing
      object key (JSON object keys are strings, so an integer key is always missing), IndexError out of range,
      TypeError for any other combination. None of these is a `ValueError`. Indexing a string yields its
      one-character string. */
  function Subscript(v: Json, k: Key): (r: Result<Json, Exception>)
    ensures r.Failure? ==> r.error.NonValueError?
    ensures r.Failure? ==> r.error.kind == "KeyError" || r.error.kind == "IndexError" || r.error.kind == "TypeError"
    ensures v.JObject? && r.Failure? ==> r.error.kind == "KeyError"
    ensures (v.JArray? || v.JString?) && k.Index? && r.Failure? ==> r.error.kind == "IndexError"
    ensures r.Failure? && !v.JObject? && !((v.JArray? || v.JString?) && k.Index?) ==> r.error.kind == "TypeError"
    ensures r.Success? ==> v.JObject? || v.JArray? || v.JString?
    ensures v.JObject? ==> (r.Success? <==> k.Name? && k.name in v.members)
    ensures v.JObject? && k.Name? && r.Success? ==> r.value == v.members[k.name]
    ensures v.JArray? ==> (r.Success? <==> k.Index? && InBounds(k.i, |v.items|))
    ensures v.JArray? && r.Success? ==> r.value == v.items[Normalized(k.i, |v.items|)]
    ensures v.JString? ==> (r.Success? <==> k.Index? && InBounds(k.i, |v.s|))
    ensures v.JString? && r.Success? ==> r.value == JString([v.s[Normalized(k.i, |v.s|)]])
  {
    match (v, k)
    case (JObject(m), Name(n)) => if n in m then Success(m[n]) else Failure(NonValueError("KeyError", n))
    case (JObject(_), Index(_)) => Failure(NonValueError("KeyError", "integer key"))
    case (JArray(xs), Index(i)) =>
      if InBounds(i, |xs|) then Success(xs[Normalized(i, |xs|)])
      else Failure(NonValueError("IndexError", "list index out of range"))
    case (JString(s), Index(i)) =>
      if InBounds(i, |s|) then Success(JString([s[Normalized(i, |s|)]]))
      else Failure(NonValueError("IndexError", "string index out of range"))
    case _ => Failure(NonValueError("TypeError", "value is not subscriptable by this key"))
  }

  /** `value[k0][k1]...`: the chained subscripts, stopping at the first one that raises. */
  function SubscriptPath(v: Json, path: seq<Key>): (r: Result<Json, Exception>)
    ensures r.Failure? ==> r.error.NonValueError?
    decreases |path|
  {
    if path == [] then Success(v)
    else match Subscript(v, path[0])
      case Failure(e) => Failure(e)
      case Success(w) => SubscriptPath(w, path[1..])
  }
}
