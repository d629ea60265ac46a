/**
 * The document store as the pages use it: a collection maps a document id
 * to its fields.  `updateDoc` merges fields into an existing document and
 * throws when the document does not exist; `deleteDoc` removes a document
 * and succeeds whether or not it exists.  `fail` stands for a failure of
 * the network or of the store's permission rules.
 */
module Firestore {
  import opened Js

  type Fields = map<string, string>
  type Collection = map<string, Fields>

  /** `doc.<key>` read as a string: "" when the field is absent. */
  function Get(f: Fields, key: string): (v: string)
    ensures key in f ==> v == f[key]
    ensures key !in f ==> v == ""
  {
    if key in f then f[key] else ""
  }

  /** `updateDoc(doc(c, id), fields)`: None when the write throws. */
  function UpdateDoc(c: Collection, id: string, fields: Fields, fail: bool): (r: Option<Collection>)
    ensures r.Some? <==> !fail && id in c
    ensures r.Some? ==> r.value.Keys == c.Keys
    ensures r.Some? ==> forall k :: k in c && k != id ==> r.value[k] == c[k]
    ensures r.Some? ==> forall f :: f in fields ==> f in r.value[id] && r.value[id][f] == fields[f]
    ensures r.Some? ==> forall f :: f in c[id] && f !in fields ==> f in r.value[id] && r.value[id][f] == c[id][f]
    ensures r.Some? ==> r.value[id].Keys == c[id].Keys + fields.Keys
  {
    if fail || id !in c then None else Some(c[id := c[id] + fields])
  }

  /** `deleteDoc(doc(c, id))`: None when the write throws. */
  function DeleteDoc(c: Collection, id: string, fail: bool): (r: Option<Collection>)
    ensures r.Some? <==> !fail
    ensures r.Some? ==> r.value.Keys == c.Keys - {id}
    ensures r.Some? ==> forall k :: k in r.value ==> r.value[k] == c[k]
  {
    if fail then None else Some(c - {id})
  }

  /** The result of a successful write, or the store as it was. */
  function After(c: Collection, r: Option<Collection>): Collection
  {
    if r.Some? then r.value else c
  }
}
