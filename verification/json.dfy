/**
  Already-decoded JSON. Decoding itself is a library call and is not modelled;
  a decoder is a function from the raw body to an optional decoded value.

  Go maps are modelled as sequences of entries: lookups take the first entry
  with the key (a decoded Go map has each key once), and iteration follows the
  sequence, standing for one of the orders Go's randomised map iteration may
  choose.
 */
module Json {

  import opened Optional

  /** A `map[string]interface{}` value: a string, a nested object, or anything else. */
  datatype Value = Str(s: string) | Obj(fields: seq<Field>) | Other

  datatype Field = Field(key: string, val: Value)

  /** A `map[string]string`. */
  datatype Pair = Pair(key: string, val: string)

  /** `m[key]` with Go's ", ok" form. */
  function Get(m: seq<Field>, key: string): (r: Option<Value>)
    ensures r.Some? <==> exists i :: 0 <= i < |m| && m[i].key == key
    ensures r.Some? ==> Field(key, r.value) in m
    decreases |m|
  {
    if |m| == 0 then None
    else if m[0].key == key then Some(m[0].val)
    else Get(m[1..], key)
  }

  /** `m[key].(string)` with Go's ", ok" form: present and a string. */
  function GetStr(m: seq<Field>, key: string): Option<string> {
    match Get(m, key)
    case Some(Str(s)) => Some(s)
    case _ => None
  }

  /** `m[key].(map[string]interface{})` with Go's ", ok" form. */
  function GetObj(m: seq<Field>, key: string): Option<seq<Field>> {
    match Get(m, key)
    case Some(Obj(fs)) => Some(fs)
    case _ => None
  }

  /** `m[outer].(map[string]interface{})[inner].(string)`, absent when either step fails. */
  function GetNestedStr(m: seq<Field>, outer: string, inner: string): Option<string> {
    match GetObj(m, outer)
    case Some(fs) => GetStr(fs, inner)
    case None => None
  }

  /** `m[key]` on a `map[string]string` with Go's ", ok" form. */
  function Lookup(m: seq<Pair>, key: string): (r: Option<string>)
    ensures r.Some? <==> exists i :: 0 <= i < |m| && m[i].key == key
    ensures r.Some? ==> Pair(key, r.value) in m
    decreases |m|
  {
    if |m| == 0 then None
    else if m[0].key == key then Some(m[0].val)
    else Lookup(m[1..], key)
  }

  /** `m[key]` on a `map[string]string` without ", ok": the empty string when absent. */
  function LookupOrEmpty(m: seq<Pair>, key: string): string {
    Lookup(m, key).GetOr("")
  }

  /** Each key occurs once, as in any Go map. */
  predicate UniqueKeys(m: seq<Pair>) {
    forall i, j :: 0 <= i < j < |m| ==> m[i].key != m[j].key
  }

  /** With unique keys the lookup finds exactly the stored value. */
  lemma {:induction false} LookupUnique(m: seq<Pair>, k: string, v: string)
    requires UniqueKeys(m)
    requires Pair(k, v) in m
    ensures Lookup(m, k) == Some(v)
    decreases |m|
  {
    if m[0] != Pair(k, v) {
      assert m[0].key != k by {
        var j :| 0 <= j < |m| && m[j] == Pair(k, v);
        assert j != 0;
      }
      assert Pair(k, v) in m[1..];
      LookupUnique(m[1..], k, v);
    }
  }
}
