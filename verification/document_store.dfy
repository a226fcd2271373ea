/** The hosted document database as the application uses it: two collections
    (`customers`, `tailors`) of documents keyed by user id, read whole and
    written with `setDoc(ref, payload, { merge: true })`. */
module DocumentStore {
  import opened JsValues

  /** collection name -> document id -> document */
  type Store = map<string, map<string, Doc>>

  const Customers: string := "customers"
  const Tailors: string := "tailors"

  /** `getDoc(doc(db, coll, id))`: `None` when the document does not exist. */
  function GetDoc(store: Store, coll: string, id: string): Option<Doc>
  {
    if coll in store && id in store[coll] then Some(store[coll][id]) else None
  }

  /** The stored document, or no fields when it does not exist yet. */
  function Existing(store: Store, coll: string, id: string): Doc
  {
    match GetDoc(store, coll, id)
    case Some(d) => d
    case None => map[]
  }

  /** A merge-write: the payload's fields override the stored ones, the stored
      fields the payload does not name are kept, and no other document changes. */
  function MergeWrite(store: Store, coll: string, id: string, payload: Doc): (r: Store)
    ensures GetDoc(r, coll, id).Some?
    ensures forall k :: k in payload ==> k in GetDoc(r, coll, id).value && GetDoc(r, coll, id).value[k] == payload[k]
    ensures forall k :: k !in payload ==>
      (k in GetDoc(r, coll, id).value <==> k in Existing(store, coll, id)) &&
      (k in Existing(store, coll, id) ==> GetDoc(r, coll, id).value[k] == Existing(store, coll, id)[k])
    ensures forall c, i :: c != coll || i != id ==> GetDoc(r, c, i) == GetDoc(store, c, i)
  {
    var docs := if coll in store then store[coll] else map[];
    store[coll := docs[id := Existing(store, coll, id) + payload]]
  }

  /** The database handle the pages and server actions share. */
  class Database {
    var docs: Store

    constructor (init: Store)
      ensures docs == init
    {
      docs := init;
    }

    /** `setDoc(doc(db, coll, id), payload, { merge: true })` that succeeds. */
    method SetMerge(coll: string, id: string, payload: Doc)
      modifies this
      ensures docs == MergeWrite(old(docs), coll, id, payload)
    {
      docs := MergeWrite(docs, coll, id, payload);
    }
  }
}
