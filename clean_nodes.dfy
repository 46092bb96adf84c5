/**
 * The whitelist filter of `speedcams/clean_nodes.py`: a JSON document is
 * rebuilt keeping only the whitelisted object keys, at every depth, except
 * that a top-level object with a `result` key keeps just that key.
 * Reading and writing the files is not modelled.
 */
module CleanNodes {

  /** A JSON value; an object is its members in document order. */
  datatype Json =
    | JNull
    | JBool(b: bool)
    | JNumber(n: real)
    | JString(s: string)
    | JArray(items: seq<Json>)
    | JObject(members: seq<Member>)

  datatype Member = Member(key: string, value: Json)

  /** `NODES_TO_KEEP`. */
  const NodesToKeep: seq<string> :=
    ["id", "landkreis", "ort", "strasse", "vmax", "art", "land", "status", "lat", "lng", "type"]

  predicate Kept(key: string) {
    key in NodesToKeep
  }

  function Keys(members: seq<Member>): (r: seq<string>)
    ensures |r| == |members| && forall i :: 0 <= i < |members| ==> r[i] == members[i].key
  {
    seq(|members|, i requires 0 <= i < |members| => members[i].key)
  }

  /** `'result' in obj`. */
  predicate HasKey(members: seq<Member>, key: string) {
    exists i :: 0 <= i < |members| && members[i].key == key
  }

  /** `obj[key]`: the value stored under `key`. */
  function Lookup(members: seq<Member>, key: string): (r: Json)
    requires HasKey(members, key)
    ensures r in MemberValues(members)
  {
    if members[0].key == key then members[0].value else Lookup(members[1..], key)
  }

  function MemberValues(members: seq<Member>): (r: seq<Json>)
    ensures |r| == |members| && forall i :: 0 <= i < |members| ==> r[i] == members[i].value
  {
    seq(|members|, i requires 0 <= i < |members| => members[i].value)
  }

  /** The members whose key is whitelisted, in order. */
  function Whitelisted(members: seq<Member>): (r: seq<Member>)
    ensures |r| <= |members|
    ensures forall i :: 0 <= i < |r| ==> r[i] in members && Kept(r[i].key)
  {
    if members == [] then []
    else (if Kept(members[0].key) then [members[0]] else []) + Whitelisted(members[1..])
  }

  /** `clean_nodes(obj, is_top_level)`. */
  function Clean(j: Json, isTopLevel: bool): Json {
    match j
    case JObject(members) =>
      if isTopLevel && HasKey(members, "result") then
        JObject([Member("result", Clean(Lookup(members, "result"), false))])
      else
        var kept := Whitelisted(members);
        JObject(seq(|kept|, i requires 0 <= i < |kept| => Member(kept[i].key, Clean(kept[i].value, false))))
    case JArray(items) => JArray(seq(|items|, i requires 0 <= i < |items| => Clean(items[i], false)))
    case _ => j
  }

  /** The key of every member of every object, at every depth, is whitelisted. */
  predicate AllKept(j: Json) {
    match j
    case JObject(members) => forall i :: 0 <= i < |members| ==> Kept(members[i].key) && AllKept(members[i].value)
    case JArray(items) => forall i :: 0 <= i < |items| ==> AllKept(items[i])
    case _ => true
  }

  /** No key occurs twice among the members, as in every object `json.load` builds. */
  predicate UniqueKeys(members: seq<Member>) {
    forall i, k :: 0 <= i < k < |members| ==> members[i].key != members[k].key
  }

  // ---------------------------------------------------------------------------
  // Properties
  // ---------------------------------------------------------------------------

  /** A top-level object with a `result` key becomes an object holding only `result`, cleaned as a nested value. */
  lemma TopLevelResult(members: seq<Member>)
    requires HasKey(members, "result")
    ensures var r := Clean(JObject(members), true);
            r.JObject? && Keys(r.members) == ["result"]
            && r.members[0].value == Clean(Lookup(members, "result"), false)
  {
  }

  /**
   * Any other object keeps exactly its whitelisted members, in their order,
   * each value cleaned; a nested `result` is therefore dropped.
   */
  lemma ObjectKeepsWhitelist(members: seq<Member>, isTopLevel: bool)
    requires !(isTopLevel && HasKey(members, "result"))
    ensures var r := Clean(JObject(members), isTopLevel);
            r.JObject? && Keys(r.members) == Keys(Whitelisted(members))
            && (forall i :: 0 <= i < |r.members| ==> r.members[i].value == Clean(Whitelisted(members)[i].value, false))
            && (forall k :: k in Keys(r.members) <==> k in Keys(members) && Kept(k))
            && "result" !in Keys(r.members)
  {
    WhitelistedKeys(members);
    assert !Kept("result");
  }

  lemma {:induction false} WhitelistedKeys(members: seq<Member>)
    ensures forall k :: k in Keys(Whitelisted(members)) <==> k in Keys(members) && Kept(k)
  {
    if members != [] {
      WhitelistedKeys(members[1..]);
      assert Keys(members) == [members[0].key] + Keys(members[1..]);
      assert Whitelisted(members) == (if Kept(members[0].key) then [members[0]] else []) + Whitelisted(members[1..]);
      assert Keys(Whitelisted(members))
          == (if Kept(members[0].key) then [members[0].key] else []) + Keys(Whitelisted(members[1..]));
    }
  }

  /** A list becomes a list of the same length, cleaned element by element in order. */
  lemma ArrayKeepsShape(items: seq<Json>, isTopLevel: bool)
    ensures var r := Clean(JArray(items), isTopLevel);
            r.JArray? && |r.items| == |items| && forall i :: 0 <= i < |items| ==> r.items[i] == Clean(items[i], false)
  {
  }

  /** Primitive values come back unchanged. */
  lemma PrimitiveUnchanged(j: Json, isTopLevel: bool)
    requires !j.JObject? && !j.JArray?
    ensures Clean(j, isTopLevel) == j
  {
  }

  /** Below the top level, only whitelisted keys survive, at every depth. */
  lemma {:induction false} CleanedIsKept(j: Json)
    ensures AllKept(Clean(j, false))
    decreases j
  {
    match j
    case JObject(members) =>
      var kept := Whitelisted(members);
      forall i | 0 <= i < |kept|
        ensures AllKept(Clean(kept[i].value, false))
      {
        CleanedIsKept(kept[i].value);
      }
    case JArray(items) =>
      forall i | 0 <= i < |items|
        ensures AllKept(Clean(items[i], false))
      {
        CleanedIsKept(items[i]);
      }
    case _ =>
  }

  lemma {:induction false} WhitelistedAll(members: seq<Member>)
    requires forall i :: 0 <= i < |members| ==> Kept(members[i].key)
    ensures Whitelisted(members) == members
  {
    if members != [] {
      WhitelistedAll(members[1..]);
      assert [members[0]] + members[1..] == members;
    }
  }

  /** A document whose keys are all whitelisted is left as it is. */
  lemma {:induction false} KeptIsFixed(j: Json)
    requires AllKept(j)
    ensures Clean(j, false) == j
    decreases j
  {
    match j
    case JObject(members) =>
      WhitelistedAll(members);
      forall i | 0 <= i < |members|
        ensures Clean(members[i].value, false) == members[i].value
      {
        KeptIsFixed(members[i].value);
      }
      assert Clean(j, false).members == members;
    case JArray(items) =>
      forall i | 0 <= i < |items|
        ensures Clean(items[i], false) == items[i]
      {
        KeptIsFixed(items[i]);
      }
      assert Clean(j, false).items == items;
    case _ =>
  }

  /** Cleaning cleaned output again changes nothing, at the top level as below it. */
  lemma Idempotent(j: Json)
    ensures Clean(Clean(j, false), false) == Clean(j, false)
    ensures Clean(Clean(j, true), true) == Clean(j, true)
  {
    CleanedIsKept(j);
    KeptIsFixed(Clean(j, false));
    if j.JObject? && HasKey(j.members, "result") {
      var inner := Clean(Lookup(j.members, "result"), false);
      CleanedIsKept(Lookup(j.members, "result"));
      KeptIsFixed(inner);
      assert Clean(j, true).members[0].key == "result";
      assert Lookup(Clean(j, true).members, "result") == inner;
    } else if j.JObject? {
      var r := Clean(j, false);
      assert !HasKey(r.members, "result") by {
        ObjectKeepsWhitelist(j.members, false);
        forall i | 0 <= i < |r.members|
          ensures r.members[i].key != "result"
        {
          assert Keys(r.members)[i] == r.members[i].key;
        }
      }
    }
  }

  lemma {:induction false} WhitelistedUnique(members: seq<Member>)
    requires UniqueKeys(members)
    ensures UniqueKeys(Whitelisted(members))
  {
    if members != [] {
      WhitelistedUnique(members[1..]);
      var rest := Whitelisted(members[1..]);
      if Kept(members[0].key) {
        forall i | 0 <= i < |rest|
          ensures rest[i].key != members[0].key
        {
          var k :| 0 <= k < |members[1..]| && members[1..][k] == rest[i];
          assert members[k + 1] == rest[i];
        }
      }
    }
  }

  /** Cleaning never makes two members of an object share a key. */
  lemma KeepsUniqueKeys(members: seq<Member>, isTopLevel: bool)
    requires UniqueKeys(members)
    ensures UniqueKeys(Clean(JObject(members), isTopLevel).members)
  {
    WhitelistedUnique(members);
  }
}
