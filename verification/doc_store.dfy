/**
 * An abstract stand-in for one collection of the managed document store:
 * documents by id, `addDoc` with a fresh id, `updateDoc` that merges fields
 * into an existing document, and `deleteDoc`.
 */
module DocStore {
  import opened Common

  class Collection<T> {
    var docs: map<DocId, T>
    var nextId: DocId

    /** Every id in use was handed out before, so `nextId` is fresh. */
    ghost predicate Valid()
      reads this
    {
      forall id :: id in docs ==> id < nextId
    }

    constructor ()
      ensures Valid() && docs == map[]
    {
      docs := map[];
      nextId := 0;
    }

    /** `addDoc`: the document is stored under an id no other document has. */
    method Add(d: T) returns (id: DocId)
      requires Valid()
      modifies this
      ensures Valid()
      ensures id !in old(docs) && docs == old(docs)[id := d]
    {
      id := nextId;
      docs := docs[id := d];
      nextId := nextId + 1;
    }

    /**
     * `updateDoc`: `merge` writes the updated fields over the stored document.
     * The call fails, and nothing changes, when no document has that id.
     */
    method Update(id: DocId, merge: T -> T) returns (ok: bool)
      requires Valid()
      modifies this
      ensures Valid()
      ensures ok <==> id in old(docs)
      ensures docs == if ok then old(docs)[id := merge(old(docs)[id])] else old(docs)
      ensures nextId == old(nextId)
    {
      ok := id in docs;
      if ok {
        docs := docs[id := merge(docs[id])];
      }
    }

    /** `deleteDoc`: succeeds, and changes nothing, when the document is already gone. */
    method Delete(id: DocId)
      requires Valid()
      modifies this
      ensures Valid()
      ensures docs == old(docs) - {id} && nextId == old(nextId)
    {
      docs := docs - {id};
    }
  }
}
