/** The JSON values exchanged on the wire, as the Jackson tree model holds them. */
module Json {
  import opened Wrappers
  import opened Strings

  /** A JSON value. Objects keep their members in document order, as Jackson's
      ObjectNode does. A number carries its value and the text Jackson gives it
      (asText and toString agree on it); the model does no decimal conversion of
      floating-point values. */
  datatype Json =
    | JNull
    | JBool(b: bool)
    | JNum(n: real, text: string)
    | JStr(s: string)
    | JArr(items: seq<Json>)
    | JObj(fields: seq<Field>)

  datatype Field = Field(key: string, value: Json)

  /** The value of the first member named `key`. Jackson keeps the last of repeated
      names; the objects the model reads come from a parser assumed to yield distinct
      names (DistinctKeys), and for those the first, the last and the only member with
      the name are one and the same (LookupDistinct). */
  function Lookup(fields: seq<Field>, key: string): Option<Json>
  {
    if fields == [] then None
    else if fields[0].key == key then Some(fields[0].value)
    else Lookup(fields[1..], key)
  }

  /** A member is found exactly when one has the key, and what is found is the
      value of one with the key. */
  lemma {:induction false} LookupSpec(fields: seq<Field>, key: string)
    ensures Lookup(fields, key).Some? <==> exists i :: 0 <= i < |fields| && fields[i].key == key
    ensures Lookup(fields, key).Some? ==>
              exists i :: 0 <= i < |fields| && fields[i].key == key && fields[i].value == Lookup(fields, key).value
    decreases |fields|
  {
    if fields != [] && fields[0].key != key {
      LookupSpec(fields[1..], key);
      assert forall i :: 0 < i < |fields| ==> fields[i] == fields[1..][i - 1];
      if Lookup(fields[1..], key).Some? {
        var i :| 0 <= i < |fields| - 1 && fields[1..][i].key == key && fields[1..][i].value == Lookup(fields[1..], key).value;
        assert fields[i + 1] == fields[1..][i];
      }
    } else if fields != [] {
      assert fields[0].key == key;
    }
  }

  /** The member found is the first one with the key. */
  lemma {:induction false} LookupFirst(fields: seq<Field>, n: nat, key: string)
    requires n < |fields| && fields[n].key == key
    requires forall i :: 0 <= i < n ==> fields[i].key != key
    ensures Lookup(fields, key) == Some(fields[n].value)
    decreases n
  {
    if n > 0 {
      LookupFirst(fields[1..], n - 1, key);
    }
  }

  /** JsonNode.get: the member of an object; None for a missing member and for a
      node that is not an object. An explicit JSON null member is Some(JNull). */
  function Get(j: Json, key: string): Option<Json>
  {
    if j.JObj? then Lookup(j.fields, key) else None
  }

  /** JsonNode.has: the node is an object with a member of that name (even a null one). */
  predicate Has(j: Json, key: string) {
    Get(j, key).Some?
  }

  /** JsonNode.asText: the text of a scalar, "null" for null, "" for a container. */
  function AsText(j: Json): string {
    match j
    case JNull => "null"
    case JBool(b) => if b then "true" else "false"
    case JNum(_, t) => t
    case JStr(s) => s
    case JArr(_) => ""
    case JObj(_) => ""
  }

  /** Iterating a JsonNode: the elements of an array, the member values of an
      object in order, nothing for a scalar. */
  function Elements(j: Json): (r: seq<Json>)
    ensures j.JArr? ==> r == j.items
    ensures j.JObj? ==> |r| == |j.fields| && forall i :: 0 <= i < |r| ==> r[i] == j.fields[i].value
    ensures !j.JArr? && !j.JObj? ==> r == []
  {
    match j
    case JArr(items) => items
    case JObj(fields) => seq(|fields|, i requires 0 <= i < |fields| => fields[i].value)
    case _ => []
  }

  /** String.valueOf of the Java object that ObjectMapper.convertValue(node, Object.class)
      builds: maps print as {k=v, ...} and lists as [a, b, ...], as in AbstractMap and
      AbstractCollection. */
  function ValueOf(j: Json): (r: string)
    ensures j.JNull? ==> r == "null"
    ensures j.JBool? ==> r == (if j.b then "true" else "false")
    ensures j.JStr? ==> r == j.s
    ensures j.JArr? ==> |r| >= 2 && r[0] == '[' && r[|r| - 1] == ']'
    ensures j.JObj? ==> |r| >= 2 && r[0] == '{' && r[|r| - 1] == '}'
    decreases j
  {
    match j
    case JNull => "null"
    case JBool(b) => if b then "true" else "false"
    case JNum(_, t) => t
    case JStr(s) => s
    case JArr(items) =>
      "[" + JoinWith(seq(|items|, i requires 0 <= i < |items| => ValueOf(items[i])), ", ") + "]"
    case JObj(fields) =>
      "{" + JoinWith(seq(|fields|, i requires 0 <= i < |fields| => fields[i].key + "=" + ValueOf(fields[i].value)), ", ") + "}"
  }

  /** A JSON object built from members with distinct names (a Java Map). */
  predicate DistinctKeys(fields: seq<Field>) {
    forall i, j :: 0 <= i < j < |fields| ==> fields[i].key != fields[j].key
  }

  /** Among members with distinct names, every member is the one found by its name. */
  lemma LookupDistinct(fields: seq<Field>, n: nat)
    requires DistinctKeys(fields) && n < |fields|
    ensures Lookup(fields, fields[n].key) == Some(fields[n].value)
  {
    LookupFirst(fields, n, fields[n].key);
  }
}
