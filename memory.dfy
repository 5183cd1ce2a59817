/**
  The per-user memory store of the agent starter: every user owns one
  document in a key-value collection, and the document maps a category name
  to the ordered list of text entries saved under it.

  The remote collection is the map `Store`, from document id to document.
  A document that is absent from the map is one that `collection.get`
  reports as not found.
 */
module Memory {

  type UserId = string
  type Category = string
  type Entry = string

  /** One user's document: category name to its entries, in save order. */
  type Document = map<Category, seq<Entry>>

  /** The collection: document id to document. */
  type Store = map<string, Document>

  /** The prefix of every document id. */
  const DocPrefix: string := "user::"

  /** The key under which the document of `userId` is stored. */
  function DocId(userId: UserId): (id: string)
    ensures |id| == |DocPrefix| + |userId|
    ensures id[..|DocPrefix|] == DocPrefix && id[|DocPrefix|..] == userId
  {
    DocPrefix + userId
  }

  /** No entry occurs twice in the list. */
  predicate NoDuplicates(entries: seq<Entry>)
  {
    forall i, j :: 0 <= i < j < |entries| ==> entries[i] != entries[j]
  }

  // ---------------------------------------------------------------------
  // Specification functions: what the store holds, and what `add` does
  // ---------------------------------------------------------------------

  /** The document read for `userId`; an empty one when it is not found. */
  function DocumentOf(store: Store, userId: UserId): Document
  {
    if DocId(userId) in store then store[DocId(userId)] else map[]
  }

  /** The entries stored under `category` for `userId`; none when either the
      document or the category is missing. */
  function Entries(store: Store, userId: UserId, category: Category): seq<Entry>
  {
    var doc := DocumentOf(store, userId);
    if category in doc then doc[category] else []
  }

  /** The collection after `add(userId, category, data)`: the document is
      written back, with `data` appended, only when `data` is not already in
      the category's list. */
  function Added(store: Store, userId: UserId, category: Category, data: Entry): Store
  {
    var doc := DocumentOf(store, userId);
    var list := if category in doc then doc[category] else [];
    if data in list then store
    else store[DocId(userId) := doc[category := list + [data]]]
  }

  // ---------------------------------------------------------------------
  // Properties of the specification
  // ---------------------------------------------------------------------

  /** Distinct users get distinct document ids, so no user's operations
      address another user's document. */
  lemma DocIdInjective(u1: UserId, u2: UserId)
    ensures DocId(u1) == DocId(u2) <==> u1 == u2
  {
  }

  /** After `add`, the category's list contains `data`, whether or not the
      document or the category existed before. */
  lemma AddedContains(store: Store, userId: UserId, category: Category, data: Entry)
    ensures data in Entries(Added(store, userId, category, data), userId, category)
  {
  }

  /** `add` leaves the collection as it was exactly when `data` is already in
      the category's list. */
  lemma AddedUnchangedIff(store: Store, userId: UserId, category: Category, data: Entry)
    ensures Added(store, userId, category, data) == store <==> data in Entries(store, userId, category)
  {
  }

  /** A new entry goes at the end; the earlier entries keep their order. */
  lemma AddedAppends(store: Store, userId: UserId, category: Category, data: Entry)
    requires data !in Entries(store, userId, category)
    ensures Entries(Added(store, userId, category, data), userId, category)
         == Entries(store, userId, category) + [data]
  {
  }

  /** Adding the same entry twice leaves the collection as adding it once. */
  lemma AddedIdempotent(store: Store, userId: UserId, category: Category, data: Entry)
    ensures var once := Added(store, userId, category, data);
            Added(once, userId, category, data) == once
  {
  }

  /** `add` touches only the one category of the one user's document: every
      other document, and every other category of that document, is as it
      was, and no category other than `category` appears. */
  lemma AddedFrame(store: Store, userId: UserId, category: Category, data: Entry)
    ensures var after := Added(store, userId, category, data);
            && after.Keys <= store.Keys + {DocId(userId)}
            && (forall id :: id in store && id != DocId(userId) ==> id in after && after[id] == store[id])
            && DocumentOf(after, userId).Keys <= DocumentOf(store, userId).Keys + {category}
            && (forall c :: c in DocumentOf(store, userId) && c != category ==>
                  c in DocumentOf(after, userId) && DocumentOf(after, userId)[c] == DocumentOf(store, userId)[c])
  {
  }

  /** Seen through `search_by_category`, `add` changes one list only: that of
      `category` for `userId`. */
  lemma AddedIsolated(store: Store, userId: UserId, category: Category, data: Entry,
                      otherUser: UserId, otherCategory: Category)
    requires otherUser != userId || otherCategory != category
    ensures Entries(Added(store, userId, category, data), otherUser, otherCategory)
         == Entries(store, otherUser, otherCategory)
  {
  }

  /** A list without duplicates stays without duplicates. */
  lemma AddedKeepsNoDuplicates(store: Store, userId: UserId, category: Category, data: Entry)
    requires NoDuplicates(Entries(store, userId, category))
    ensures NoDuplicates(Entries(Added(store, userId, category, data), userId, category))
  {
  }

  // ---------------------------------------------------------------------
  // The adapter, over a collection held in a field
  // ---------------------------------------------------------------------

  /** The memory adapter. `store` stands for the remote collection the
      adapter is connected to. */
  class CouchbaseMemory {
    var store: Store

    /** Connecting to a collection whose current contents are `initial`. */
    constructor (initial: Store)
      ensures store == initial
    {
      store := initial;
    }

    /** `collection.get`: the document under `id`, or None when not found. */
    method Get(id: string) returns (doc: Option<Document>)
      ensures doc.Some? <==> id in store
      ensures doc.Some? ==> doc.value == store[id]
    {
      if id in store {
        doc := Some(store[id]);
      } else {
        doc := None;
      }
    }

    /** `collection.upsert`: insert or fully replace the document under `id`. */
    method Upsert(id: string, doc: Document)
      modifies this
      ensures store == old(store)[id := doc]
    {
      store := store[id := doc];
    }

    /** Save `data` under `category` for `userId`, skipping it when it is
        already there; always reports success. */
    method Add(userId: UserId, category: Category, data: Entry) returns (ok: bool)
      modifies this
      ensures ok
      ensures store == Added(old(store), userId, category, data)
      ensures data in Entries(store, userId, category)
    {
      var id := DocId(userId);
      var fetched := Get(id);
      var doc: Document := if fetched.Some? then fetched.value else map[];
      ghost var loaded := doc;
      if category !in doc {
        doc := doc[category := []];
      }
      if data !in doc[category] {
        doc := doc[category := doc[category] + [data]];
        assert doc == loaded[category := Entries(old(store), userId, category) + [data]];
        Upsert(id, doc);
      }
      ok := true;
      AddedContains(old(store), userId, category, data);
    }

    /** The entries under `category` for `userId`, or none when the document
        or the category is missing. Reads only. */
    method SearchByCategory(userId: UserId, category: Category) returns (results: seq<Entry>)
      ensures results == Entries(store, userId, category)
      ensures DocId(userId) in store && category in store[DocId(userId)] ==>
                results == store[DocId(userId)][category]
      ensures DocId(userId) !in store || category !in store[DocId(userId)] ==> results == []
    {
      var fetched := Get(DocId(userId));
      if fetched.Some? {
        var doc := fetched.value;
        results := if category in doc then doc[category] else [];
      } else {
        results := [];
      }
    }
  }

  datatype Option<T> = None | Some(value: T)
}
