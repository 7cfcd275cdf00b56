/**
 * An already-parsed JSON document. Turning bytes into this value (the
 * tokenizer of serde_json, `JSON.parse`) is left to a parameter of the
 * members that need it; what the modelled code does with the value is
 * modelled here and in the modules that import this one.
 */
module JsonValues {

  import opened Wrappers

  /** Members of an object keep their document order, duplicates included. */
  datatype Json =
    | JNull
    | JBool(b: bool)
    | JNumber(n: int)
    | JString(s: string)
    | JArray(items: seq<Json>)
    | JObject(members: seq<(string, Json)>)

  /** True when `key` names some member of `members`. */
  predicate HasKey(members: seq<(string, Json)>, key: string) {
    exists i :: 0 <= i < |members| && members[i].0 == key
  }

  /**
   * Property read on an object built by `JSON.parse`: when a key occurs
   * more than once the last occurrence wins.
   */
  function LastValue(members: seq<(string, Json)>, key: string): (r: Option<Json>)
    ensures r.None? <==> !HasKey(members, key)
    ensures r.Some? ==> exists i :: 0 <= i < |members| && members[i] == (key, r.value)
                                    && forall k :: i < k < |members| ==> members[k].0 != key
    decreases |members|
  {
    if members == [] then None
    else if members[|members| - 1].0 == key then Some(members[|members| - 1].1)
    else
      var init := members[..|members| - 1];
      var r := LastValue(init, key);
      assert forall i :: 0 <= i < |init| ==> init[i] == members[i];
      if r.Some? then
        var i :| 0 <= i < |init| && init[i] == (key, r.value) && forall k :: i < k < |init| ==> init[k].0 != key;
        assert forall k :: i < k < |members| ==> members[k].0 != key;
        r
      else r
  }
}
