/**
 * The in-memory JSON documents the reaction list is read from, as `json.load`
 * hands them over: an object is the sequence of its members in document order
 * (the order in which a Python dict iterates them). Numbers are kept as their
 * literal text, since this core never computes with them.
 */
module JsonData {
  import opened Wrappers

  datatype Json =
    | JNull
    | JBool(truth: bool)
    | JNumber(literal: string)
    | JString(text: string)
    | JArray(items: seq<Json>)
    | JObject(members: Members)

  /** The members of a JSON object, in document order. */
  type Members = seq<(string, Json)>

  /** A Python dict never binds one key twice. */
  predicate IsDict(m: Members) {
    forall i, j :: 0 <= i < j < |m| ==> m[i].0 != m[j].0
  }

  /** `d[key]` when `key in d`, and None when the key is absent. */
  function Lookup(m: Members, key: string): (r: Option<Json>)
    ensures r.None? <==> forall i :: 0 <= i < |m| ==> m[i].0 != key
    ensures r.Some? ==> exists i :: 0 <= i < |m| && m[i] == (key, r.value)
  {
    if m == [] then None
    else if m[0].0 == key then Some(m[0].1)
    else
      var r := Lookup(m[1..], key);
      assert r.Some? ==> exists i :: 0 <= i < |m[1..]| && m[1..][i] == (key, r.value);
      assert forall i :: 0 <= i < |m[1..]| ==> m[1..][i] == m[i + 1];
      r
  }

  /** In a dict, looking a member's own key up finds that member's value. */
  lemma LookupFindsMember(m: Members, i: nat)
    requires IsDict(m) && i < |m|
    ensures Lookup(m, m[i].0) == Some(m[i].1)
  {
  }

  /**
   * Python's `d.get(key)`, and equally `d[key] if key in d else None`: JSON
   * null loads as Python's None, so a key bound to null reads the same as an
   * absent key.
   */
  function Get(m: Members, key: string): (r: Option<Json>)
    ensures r.Some? <==> Lookup(m, key).Some? && Lookup(m, key).value != JNull
    ensures r.Some? ==> Lookup(m, key) == r
  {
    match Lookup(m, key)
    case Some(v) => if v == JNull then None else Some(v)
    case None => None
  }

  /**
   * The members of the object bound to `key`, empty when the key is absent:
   * `d.get(key, {})` iterated with `.items()`. When the key is bound to
   * something other than an object, the source's `.items()` raises; this
   * function then gives `[]`, and every caller's precondition excludes that
   * case.
   */
  function MembersAt(m: Members, key: string): (r: Members)
    ensures Lookup(m, key).None? ==> r == []
    ensures Lookup(m, key).Some? && !Lookup(m, key).value.JObject? ==> r == []
    ensures Lookup(m, key).Some? && Lookup(m, key).value.JObject? ==> Lookup(m, key) == Some(JObject(r))
    ensures (exists i :: 0 <= i < |m| && m[i] == (key, JObject(r))) || r == []
  {
    match Lookup(m, key)
    case Some(JObject(members)) => members
    case _ => []
  }
}
