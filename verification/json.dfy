/** Decoded JSON request bodies and the schema combinators the controllers
    validate them with (string, array of strings, bounded number, boolean,
    enumeration, each optionally defaulted). A key that is absent stands for
    `undefined`; numbers are reals, so that integrality is a real check. */
module Json {
  import opened Wrappers

  datatype Json =
    | JNull
    | JBool(b: bool)
    | JNum(n: real)
    | JStr(s: string)
    | JArr(items: seq<Json>)
    | JObj(fields: map<string, Json>)

  /** Property access `body[key]`; `None` is `undefined`. */
  function Get(j: Json, key: string): (r: Option<Json>)
    ensures r.Some? <==> j.JObj? && key in j.fields
  {
    if j.JObj? && key in j.fields then Some(j.fields[key]) else None
  }

  /** `typeof body[key] === 'string'`, giving the string. */
  function GetString(j: Json, key: string): (r: Option<string>)
    ensures r.Some? <==> Get(j, key).Some? && Get(j, key).value.JStr?
    ensures r.Some? ==> Get(j, key) == Some(JStr(r.value))
  {
    match Get(j, key)
    case Some(JStr(s)) => Some(s)
    case _ => None
  }

  /** An array whose elements are all strings, as `z.array(z.string())`. */
  function Strings(items: seq<Json>): (r: Option<seq<string>>)
    ensures r.Some? <==> forall i :: 0 <= i < |items| ==> items[i].JStr?
    ensures r.Some? ==> |r.value| == |items| && forall i :: 0 <= i < |items| ==> items[i] == JStr(r.value[i])
  {
    if |items| == 0 then Some([])
    else match (items[0], Strings(items[1..]))
      case (JStr(s), Some(rest)) => Some([s] + rest)
      case _ => None
  }

  /** A string array as JSON array items. */
  function EncodeStrings(tags: seq<string>): (items: seq<Json>)
    ensures |items| == |tags| && forall i :: 0 <= i < |tags| ==> items[i] == JStr(tags[i])
  {
    seq(|tags|, i requires 0 <= i < |tags| => JStr(tags[i]))
  }

  lemma StringsOfStrings(tags: seq<string>)
    ensures Strings(EncodeStrings(tags)) == Some(tags)
  {
    var r := Strings(EncodeStrings(tags));
    assert r.Some?;
    assert r.value == tags;
  }

  /** The outcome of one field of a schema: `None` is a validation failure,
      `Some(None)` an optional field that was left out. */
  function OptionalString(j: Json, key: string): (r: Option<Option<string>>)
    ensures Get(j, key).None? ==> r == Some(None)
    ensures Get(j, key).Some? ==> (r.Some? <==> Get(j, key).value.JStr?)
    ensures r.Some? && r.value.Some? ==> Get(j, key) == Some(JStr(r.value.value))
  {
    match Get(j, key)
    case None => Some(None)
    case Some(JStr(s)) => Some(Some(s))
    case Some(_) => None
  }

  /** `z.array(z.string()).default(d)`. */
  function StringsOr(j: Json, key: string, d: seq<string>): (r: Option<seq<string>>)
    ensures Get(j, key).None? ==> r == Some(d)
    ensures Get(j, key).Some? ==> (r.Some? <==> Get(j, key).value.JArr? && Strings(Get(j, key).value.items).Some?)
    ensures Get(j, key).Some? && r.Some? ==> r == Strings(Get(j, key).value.items)
  {
    match Get(j, key)
    case None => Some(d)
    case Some(JArr(items)) => Strings(items)
    case Some(_) => None
  }

  /** `z.boolean().default(d)`. */
  function BoolOr(j: Json, key: string, d: bool): (r: Option<bool>)
    ensures Get(j, key).None? ==> r == Some(d)
    ensures Get(j, key).Some? ==> (r.Some? <==> Get(j, key).value.JBool?)
  {
    match Get(j, key)
    case None => Some(d)
    case Some(JBool(b)) => Some(b)
    case Some(_) => None
  }

  /** `z.number().min(lo).max(hi).default(d)`; `hi` is optional. */
  function NumberOr(j: Json, key: string, lo: real, hi: Option<real>, d: real): (r: Option<real>)
    ensures Get(j, key).None? ==> r == Some(d)
    ensures Get(j, key).Some? ==> (r.Some? <==>
      Get(j, key).value.JNum? && lo <= Get(j, key).value.n && (hi.Some? ==> Get(j, key).value.n <= hi.value))
    ensures Get(j, key).Some? && r.Some? ==> r == Some(Get(j, key).value.n)
  {
    match Get(j, key)
    case None => Some(d)
    case Some(JNum(n)) => if lo <= n && (hi.Some? ==> n <= hi.value) then Some(n) else None
    case Some(_) => None
  }

  /** A real number without a fractional part (`Number.isInteger`). */
  predicate IsInteger(n: real) {
    n == n.Floor as real
  }
}
