/** The Firestore `users` collection as the Cloud Functions and the agent tools use it: documents
    keyed by ID, read whole, written with `set(..., merge=True)` or `update(...)`, and deleted.
    Field paths are top-level names (a '.' in a key is not read as a path). */
module DocumentStore {
  import opened Wrappers
  import opened Json

  /** A document's fields. */
  type Doc = map<string, Json>

  /** A value in a write: a plain value, `firestore.DELETE_FIELD`, or `firestore.SERVER_TIMESTAMP`. */
  datatype FieldWrite = Put(value: Json) | DeleteField | ServerTimestamp

  /** Whether a written value is merged into the stored one rather than replacing it: with
      `merge=True`, the leaves of a non-empty map are written one by one. */
  predicate MergesInto(v: Json) {
    v.Obj? && v.fields != map[]
  }

  /** `data` merged into `prev` leaf by leaf: non-empty maps are merged recursively (into an empty
      map when the stored value is not a map); any other value replaces what was there. */
  function DeepMerge(prev: Doc, data: Doc): (r: Doc)
    ensures r.Keys == prev.Keys + data.Keys
    ensures forall k :: k in data && !MergesInto(data[k]) ==> r[k] == data[k]
    ensures forall k :: k in prev && k !in data ==> r[k] == prev[k]
    ensures forall k :: k in data && MergesInto(data[k]) ==> r[k].Obj? && data[k].fields.Keys <= r[k].fields.Keys
    decreases Obj(data)
  {
    map k | k in prev.Keys + data.Keys ::
      if k in data then
        (if MergesInto(data[k]) then Obj(DeepMerge(if k in prev && prev[k].Obj? then prev[k].fields else map[], data[k].fields))
         else data[k])
      else prev[k]
  }

  /** Merging what is already there changes nothing, and merging twice is merging once. */
  lemma {:induction false} DeepMergeIdempotent(prev: Doc, data: Doc)
    ensures DeepMerge(DeepMerge(prev, data), data) == DeepMerge(prev, data)
    decreases Obj(data)
  {
    var once := DeepMerge(prev, data);
    var twice := DeepMerge(once, data);
    forall k | k in data && MergesInto(data[k])
      ensures twice[k] == once[k]
    {
      var inner := if k in prev && prev[k].Obj? then prev[k].fields else map[];
      DeepMergeIdempotent(inner, data[k].fields);
    }
    assert twice == once;
  }

  /** The value a non-delete write leaves: the value itself, or the commit time (as the text
      `stamp`) for a timestamp. */
  function Resolve(w: FieldWrite, stamp: string): Json
    requires !w.DeleteField?
  {
    if w.Put? then w.value else Str(stamp)
  }

  /** `set(writes, merge=True)` on a document (`None` when it does not exist yet), with `stamp` the
      commit time the store gives `SERVER_TIMESTAMP`. */
  function SetMerge(prev: Option<Doc>, writes: map<string, FieldWrite>, stamp: string): (r: Doc)
    ensures forall k :: k in writes && writes[k].DeleteField? ==> k !in r
    ensures forall k :: k in writes && writes[k].ServerTimestamp? ==> k in r && r[k] == Str(stamp)
    ensures forall k :: k in writes && writes[k].Put? && !MergesInto(writes[k].value) ==> k in r && r[k] == writes[k].value
    ensures forall k :: k !in writes && prev.Some? && k in prev.value ==> k in r && r[k] == prev.value[k]
    ensures forall k :: k in r ==> k in writes || (prev.Some? && k in prev.value)
  {
    var base := prev.GetOr(map[]);
    var kept := map k | k in base && !(k in writes && writes[k].DeleteField?) :: base[k];
    var data := map k | k in writes && !writes[k].DeleteField? :: Resolve(writes[k], stamp);
    DeepMerge(kept, data)
  }

  /** `update(writes)` on an existing document: each named field is replaced (maps included),
      deleted, or stamped; the others are kept. */
  function Updated(prev: Doc, writes: map<string, FieldWrite>, stamp: string): (r: Doc)
    ensures forall k :: k in writes && writes[k].DeleteField? ==> k !in r
    ensures forall k :: k in writes && !writes[k].DeleteField? ==> k in r && r[k] == Resolve(writes[k], stamp)
    ensures forall k :: k !in writes && k in prev ==> k in r && r[k] == prev[k]
    ensures forall k :: k in r ==> k in writes || k in prev
  {
    map k | k in prev.Keys + writes.Keys && !(k in writes && writes[k].DeleteField?) ::
      if k in writes then Resolve(writes[k], stamp) else prev[k]
  }

  /** Merging into nothing gives the written values themselves. */
  lemma {:induction false} MergeIntoEmpty(data: Doc)
    ensures DeepMerge(map[], data) == data
    decreases Obj(data)
  {
    forall k | k in data && MergesInto(data[k])
      ensures DeepMerge(map[], data)[k] == data[k]
    {
      MergeIntoEmpty(data[k].fields);
    }
  }

  /** Setting plain values on a document that does not exist creates exactly those values. */
  lemma SetMergeIntoNothing(d: Doc, stamp: string)
    ensures SetMerge(None, Puts(d), stamp) == d
  {
    var writes := Puts(d);
    var data := map k | k in writes && !writes[k].DeleteField? :: Resolve(writes[k], stamp);
    assert data == d;
    MergeIntoEmpty(d);
  }

  /** Plain values as writes. */
  function Puts(d: Doc): (w: map<string, FieldWrite>)
    ensures w.Keys == d.Keys && forall k :: k in w ==> w[k] == Put(d[k])
  {
    map k | k in d :: Put(d[k])
  }

  /** A collection of documents. */
  class Collection {
    var docs: map<string, Doc>

    constructor (docs: map<string, Doc>)
      ensures this.docs == docs
    {
      this.docs := docs;
    }

    /** `document(id).get()`: the document's fields, or `None` when it does not exist. */
    method Get(id: string) returns (r: Option<Doc>)
      ensures r == (if id in docs then Some(docs[id]) else None)
    {
      r := if id in docs then Some(docs[id]) else None;
    }

    /** `document(id).set(writes, merge=True)`: creates the document if needed. */
    method Set(id: string, writes: map<string, FieldWrite>, stamp: string)
      modifies this
      ensures docs == old(docs)[id := SetMerge(if id in old(docs) then Some(old(docs)[id]) else None, writes, stamp)]
    {
      var prev := if id in docs then Some(docs[id]) else None;
      docs := docs[id := SetMerge(prev, writes, stamp)];
    }

    /** `document(id).set(writes, merge=[...the written fields])`: creates the document if
        needed; each written field is replaced whole, maps included. */
    method SetFields(id: string, writes: map<string, FieldWrite>, stamp: string)
      modifies this
      ensures docs == old(docs)[id := Updated(if id in old(docs) then old(docs)[id] else map[], writes, stamp)]
    {
      var prev := if id in docs then docs[id] else map[];
      docs := docs[id := Updated(prev, writes, stamp)];
    }

    /** `document(id).update(writes)`: raises `NotFound` (here `false`, nothing written) when the
        document does not exist. */
    method Update(id: string, writes: map<string, FieldWrite>, stamp: string) returns (found: bool)
      modifies this
      ensures found == (id in old(docs))
      ensures found ==> docs == old(docs)[id := Updated(old(docs)[id], writes, stamp)]
      ensures !found ==> docs == old(docs)
    {
      found := id in docs;
      if found {
        docs := docs[id := Updated(docs[id], writes, stamp)];
      }
    }

    /** `document(id).delete()`. */
    method Delete(id: string)
      modifies this
      ensures docs == old(docs) - {id}
    {
      docs := docs - {id};
    }
  }
}
