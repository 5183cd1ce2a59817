# Per-user agent memory over a key-value collection

A Dafny model of the memory layer of an AI-agent starter that keeps user
memories in a Couchbase collection. Each user owns one document, stored
under the key `"user::" + user_id`. A document maps a category name
("preferences", "facts", ...) to the ordered list of text entries saved
under it. The model has three modules:

- `Memory` (memory.dfy): the collection as a map from document id to
  document; specification functions for what is stored (`Entries`) and
  for what `add` does to the collection (`Added`); lemmas about them; and
  the class `CouchbaseMemory`, whose field `store` stands for the remote
  collection and whose methods `Get`, `Upsert`, `Add` and
  `SearchByCategory` follow the adapter's code step by step.
- `Session` (session.dfy): a run of saves into one category, as the
  agent issues them during a chat. It is compared with a reference
  definition, `AppendNew`: the old list, then each new entry once, in the
  order it was first saved.
- `Tools` (tools.dfy): the tools `save_memory` and `retrieve_memory`.
  Each has its own optional `user_id` attribute, which falls back to
  `"user_001"` when unset. A chat turn sets both attributes. The module
  also has a sample session for the default user.

Where the code and its design description disagree, the model follows the
code:

- `add` skips an entry that is already in the category's list
  (main.py:61). Saving the same text twice therefore stores it once, not
  twice, and the stored list need not end with the text just saved.
- `retrieve_memory` reports status `"success"` also when nothing is
  stored (main.py:129-134). It has no separate "not found" status.

## Model

| member | source | states |
|---|---|---|
| Memory.DocId | main.py:50-51 | the document id is the prefix `user::` followed by the user id, and nothing else |
| Memory.DocIdInjective | main.py:50-51 | two user ids give the same document id exactly when they are equal, so no user's calls reach another user's document |
| Memory.AddedContains | main.py:55-62 | after `add`, the category's list holds the data, whether or not the document or the category existed before |
| Memory.AddedUnchangedIff | main.py:61-63 | `add` leaves the collection unchanged exactly when the data is already in the category's list (no write happens then) |
| Memory.AddedAppends | main.py:60-62 | when the data is new, the list afterwards is the old list with the data at the end, earlier entries in their order |
| Memory.AddedIdempotent | main.py:61-63 | a second `add` of the same data leaves the collection as the first one left it |
| Memory.AddedFrame | main.py:54-63 | `add` creates at most the user's document and, in it, at most the category; every other document and every other category of the document keep their contents |
| Memory.AddedIsolated | main.py:53-79 | the list of every other (user, category) pair, as `search_by_category` reads it, is the same after `add` |
| Memory.AddedKeepsNoDuplicates | main.py:61-62 | a category list without duplicates has none after `add` |
| Memory.CouchbaseMemory.constructor | main.py:33-47 | the adapter starts on the collection's current contents |
| Memory.CouchbaseMemory.Get | main.py:56-58 | reading a document gives it when it exists and "not found" otherwise; nothing changes |
| Memory.CouchbaseMemory.Upsert | main.py:63 | writing a document inserts it or fully replaces it, and changes no other document |
| Memory.CouchbaseMemory.Add | main.py:53-67 | the read, default-empty document, default-empty category, conditional append and conditional write leave the collection as `Added` describes; the data is then stored; the result is always true |
| Memory.CouchbaseMemory.SearchByCategory | main.py:69-79 | the result is the stored list when the document and the category exist and the empty list when either is missing; the collection is not changed |
| Session.SaveAllEntries | main.py:53-67 | after a run of saves into one category, its list is the old list followed by each new entry once, in first-save order |
| Session.SaveAllIsolated | main.py:53-67 | a run of saves into one category leaves every other user's and every other category's list unchanged |
| Session.AppendNewProperties | main.py:60-62 | the list after a run of saves keeps the old list as its prefix, holds exactly the old and the saved entries, and has no duplicates if the old list had none |
| Session.RepeatedSaveSingleCopy | main.py:61-63 | saving a new entry any positive number of times stores exactly one copy of it, at the end |
| Tools.EffectiveUser | main.py:110 | a tool runs under its `user_id` attribute when set and under `"user_001"` otherwise (the same rule at main.py:127) |
| Tools.ToolBindings.constructor | main.py:19 | before any chat turn neither tool has a user attribute, so both run under the default user |
| Tools.ToolBindings.SetUser | main.py:199-201 | a chat turn sets the user attribute of both tools to its user id |
| Tools.ToolBindings.SaveMemory | main.py:100-115 | the data is added for the tool's user exactly as `add` does; the reply is status `"success"` with the confirmation message |
| Tools.ToolBindings.RetrieveMemory | main.py:118-134 | the reply is status `"success"`, the tool's user's list for the category, the category and a count equal to the list's length; nothing changes |
| Tools.DefaultUserSession | main.py:100-134 | for the default user on an empty collection, saving two preferences and the first again, then retrieving, gives the two preferences in order with count 2, and an unused category gives an empty list with status `"success"` |

## Left out

- Connecting to the cluster (connection string, credentials, bucket, scope, collection) is replaced by the map field `store`; the constructor takes the collection's contents.
- Failures of the remote service other than "document not found" (network errors, failed writes) are not modelled; every read and write succeeds.
- Documents whose stored content is not a map from category to a list of strings are not modelled; the types rule them out.
- Concurrent saves from several processes (the lost update of the read-modify-write in `add`) are outside this sequential model.
- Log output, loading `.env`, the API-key check, the agent and runner framework, the language-model call and the terminal chat loop are input/output or external code and are left out; of `call_agent_async` only the setting of the tools' user attribute is modelled.
- `example_tool` only formats a placeholder reply and is left out.
