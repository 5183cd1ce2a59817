/**
  A run of saves into one category, as the agent issues them one after the
  other during a session. Because `add` skips an entry that is already there,
  the list a category ends up with is its old list followed by each new
  entry once, in the order it was first saved.
 */
module Session {
  import opened Memory

  /** The collection after saving each of `entries`, in order, under
      `category` for `userId`. */
  function SaveAll(store: Store, userId: UserId, category: Category, entries: seq<Entry>): Store
    decreases |entries|
  {
    if entries == [] then store
    else SaveAll(Added(store, userId, category, entries[0]), userId, category, entries[1..])
  }

  /** Reference definition: `list` extended by every entry of `entries` that
      it does not hold yet, first occurrence first. */
  function AppendNew(list: seq<Entry>, entries: seq<Entry>): seq<Entry>
    decreases |entries|
  {
    if entries == [] then list
    else AppendNew(if entries[0] in list then list else list + [entries[0]], entries[1..])
  }

  /** The category's list after a run of saves is the reference list. */
  lemma {:induction false} SaveAllEntries(store: Store, userId: UserId, category: Category, entries: seq<Entry>)
    ensures Entries(SaveAll(store, userId, category, entries), userId, category)
         == AppendNew(Entries(store, userId, category), entries)
    decreases |entries|
  {
    if entries != [] {
      var next := Added(store, userId, category, entries[0]);
      if entries[0] !in Entries(store, userId, category) {
        AddedAppends(store, userId, category, entries[0]);
      } else {
        AddedUnchangedIff(store, userId, category, entries[0]);
      }
      SaveAllEntries(next, userId, category, entries[1..]);
    }
  }

  /** A run of saves into one category leaves every other user's and every
      other category's list as it was. */
  lemma {:induction false} SaveAllIsolated(store: Store, userId: UserId, category: Category, entries: seq<Entry>,
                                           otherUser: UserId, otherCategory: Category)
    requires otherUser != userId || otherCategory != category
    ensures Entries(SaveAll(store, userId, category, entries), otherUser, otherCategory)
         == Entries(store, otherUser, otherCategory)
    decreases |entries|
  {
    if entries != [] {
      AddedIsolated(store, userId, category, entries[0], otherUser, otherCategory);
      SaveAllIsolated(Added(store, userId, category, entries[0]), userId, category, entries[1..],
                      otherUser, otherCategory);
    }
  }

  /** The reference list keeps the old list as its prefix, holds exactly the
      old entries and the saved ones, and has no duplicates when the old list
      had none. */
  lemma {:induction false} AppendNewProperties(list: seq<Entry>, entries: seq<Entry>)
    ensures var r := AppendNew(list, entries);
            && |list| <= |r|
            && r[..|list|] == list
            && (forall e :: e in r <==> e in list || e in entries)
            && (NoDuplicates(list) ==> NoDuplicates(r))
    decreases |entries|
  {
    if entries != [] {
      var next := if entries[0] in list then list else list + [entries[0]];
      AppendNewProperties(next, entries[1..]);
      var r := AppendNew(list, entries);
      assert r == AppendNew(next, entries[1..]);
      assert r[..|list|] == next[..|next|][..|list|];
      forall e
        ensures e in r <==> e in list || e in entries
      {
        assert e in entries <==> e == entries[0] || e in entries[1..];
      }
      if NoDuplicates(list) {
        assert NoDuplicates(next);
      }
    }
  }

  /** Saving the same entry any number of times leaves a single copy of it. */
  lemma {:induction false} RepeatedSaveSingleCopy(store: Store, userId: UserId, category: Category,
                                                  data: Entry, times: nat)
    requires data !in Entries(store, userId, category)
    requires times > 0
    ensures Entries(SaveAll(store, userId, category, seq(times, _ => data)), userId, category)
         == Entries(store, userId, category) + [data]
  {
    SaveAllEntries(store, userId, category, seq(times, _ => data));
    AppendNewRepeated(Entries(store, userId, category) + [data], data, times - 1);
    assert seq(times, _ => data) == [data] + seq(times - 1, _ => data);
  }

  /** Appending entries that are all already in the list changes nothing. */
  lemma {:induction false} AppendNewRepeated(list: seq<Entry>, data: Entry, times: nat)
    requires data in list
    ensures AppendNew(list, seq(times, _ => data)) == list
    decreases times
  {
    if times > 0 {
      assert seq(times, _ => data)[1..] == seq(times - 1, _ => data);
      AppendNewRepeated(list, data, times - 1);
    }
  }
}
