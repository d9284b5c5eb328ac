/** An abstract view of the tree `cJSON_Parse` returns, and the cJSON accessors the response
    extractor uses. Parsing itself is not part of this model. */
module Json {
  import opened Wrappers

  /** A C `int`, the type of a cJSON number's `valueint`. */
  type int32 = x: int | -0x8000_0000 <= x < 0x8000_0000

  /** A decoded JSON value. A number is kept as the `valueint` cJSON derives from it; an
      object keeps its members in document order, duplicates included. */
  datatype Json =
    | JNull
    | JFalse
    | JTrue
    | JNumber(valueint: int32)
    | JString(valuestring: string)
    | JArray(items: seq<Json>)
    | JObject(members: seq<Member>)

  datatype Member = Member(key: string, value: Json)

  /** The value of the first member named `key`. */
  function FirstMember(members: seq<Member>, key: string): (r: Option<Json>)
    ensures r.None? <==> forall i :: 0 <= i < |members| ==> members[i].key != key
    ensures r.Some? ==> exists i :: 0 <= i < |members| && members[i] == Member(key, r.value) &&
                                    forall j :: 0 <= j < i ==> members[j].key != key
  {
    if members == [] then None
    else if members[0].key == key then Some(members[0].value)
    else
      var r := FirstMember(members[1..], key);
      assert r.Some? ==> exists i :: 0 <= i < |members[1..]| && members[1..][i] == Member(key, r.value) &&
                                     forall j :: 0 <= j < i ==> members[1..][j].key != key;
      r
  }

  /** Models `cJSON_GetObjectItemCaseSensitive`: NULL for a NULL or non-object value,
      otherwise the first member with exactly that key. */
  function GetObjectItem(j: Option<Json>, key: string): Option<Json>
  {
    match j
    case Some(JObject(members)) => FirstMember(members, key)
    case _ => None
  }

  /** Models `cJSON_GetArrayItem`: NULL unless the array has an item at `index`. */
  function GetArrayItem(j: Option<Json>, index: nat): Option<Json>
  {
    match j
    case Some(JArray(items)) => if index < |items| then Some(items[index]) else None
    case _ => None
  }

  predicate IsArray(j: Option<Json>) { j.Some? && j.value.JArray? }
  predicate IsObject(j: Option<Json>) { j.Some? && j.value.JObject? }
  predicate IsString(j: Option<Json>) { j.Some? && j.value.JString? }
  predicate IsNumber(j: Option<Json>) { j.Some? && j.value.JNumber? }
}
