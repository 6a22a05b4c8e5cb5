/**
 * The parsed JSON documents the rule plugin reads: the rule configuration
 * and the asset values handed to each evaluation. Text parsing is done by
 * the JSON library and is not modelled; a document that fails to parse is
 * `None`.
 */
module Json {

  datatype Option<+T> = None | Some(value: T)

  /** A parsed JSON value. Every JSON number is a `real`. An object keeps its
      members in document order, duplicates included. */
  datatype Json =
    | JNull
    | JBool(b: bool)
    | JNumber(n: real)
    | JString(s: string)
    | JArray(items: seq<Json>)
    | JObject(members: seq<(string, Json)>)

  /** The first member called `key` in `members`, as the library's member
      lookup finds it. */
  function Find(members: seq<(string, Json)>, key: string): Option<Json>
  {
    if members == [] then None
    else if members[0].0 == key then Some(members[0].1)
    else Find(members[1..], key)
  }

  /** Lookup finds a member iff one has the key, and then the first one. */
  lemma {:induction false} FindFirst(members: seq<(string, Json)>, key: string)
    ensures Find(members, key).Some? <==> exists i :: 0 <= i < |members| && members[i].0 == key
    ensures Find(members, key).Some? ==>
              exists i :: 0 <= i < |members| && members[i] == (key, Find(members, key).value) &&
                          forall j :: 0 <= j < i ==> members[j].0 != key
  {
    if members != [] && members[0].0 != key {
      FindFirst(members[1..], key);
      assert forall i :: 1 <= i < |members| ==> members[i] == members[1..][i - 1];
      if Find(members, key).Some? {
        var i :| 0 <= i < |members[1..]| && members[1..][i] == (key, Find(members, key).value) &&
                 forall j :: 0 <= j < i ==> members[1..][j].0 != key;
        assert members[i + 1] == (key, Find(members, key).value);
      }
    }
  }

  /** `value[key]` when `value` is an object holding `key`; a value that is not
      an object has no members. */
  function Member(value: Json, key: string): (r: Option<Json>)
    ensures r.Some? ==> value.JObject?
  {
    if value.JObject? then Find(value.members, key) else None
  }

  predicate Has(value: Json, key: string)
  {
    Member(value, key).Some?
  }

  function Get(value: Json, key: string): Json
    requires Has(value, key)
  {
    Member(value, key).value
  }

  /** `value[key]` exists and is a string. */
  predicate HasString(value: Json, key: string)
  {
    Has(value, key) && Get(value, key).JString?
  }
}
