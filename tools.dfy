/**
  The two tools handed to the agent: `save_memory` and `retrieve_memory`.
  Neither takes a user id; each reads its own `user_id` attribute, which the
  chat turn sets before running the agent, and falls back to the default
  user when the attribute was never set.
 */
module Tools {
  import opened Memory

  const DefaultUserId: UserId := "user_001"
  const Success: string := "success"

  /** What `save_memory` returns. */
  datatype SaveReply = SaveReply(status: string, message: string)

  /** What `retrieve_memory` returns. */
  datatype RetrieveReply = RetrieveReply(status: string, data: seq<Entry>, category: Category, count: nat)

  /** The user id a tool runs under: its attribute, or the default. */
  function EffectiveUser(attribute: Option<UserId>): (userId: UserId)
    ensures attribute.None? ==> userId == DefaultUserId
    ensures attribute.Some? ==> userId == attribute.value
  {
    if attribute.Some? then attribute.value else DefaultUserId
  }

  /** The text of a save confirmation. */
  function SavedMessage(category: Category, data: Entry): string
  {
    "Data saved in category '" + category + "': " + data
  }

  class ToolBindings {
    const memory: CouchbaseMemory
    /** The `user_id` attribute of `save_memory`, if set. */
    var saveUser: Option<UserId>
    /** The `user_id` attribute of `retrieve_memory`, if set. */
    var retrieveUser: Option<UserId>

    /** The tools over `memory`, before any chat turn has set a user. */
    constructor (memory: CouchbaseMemory)
      ensures this.memory == memory
      ensures saveUser == None && retrieveUser == None
    {
      this.memory := memory;
      saveUser := None;
      retrieveUser := None;
    }

    /** A chat turn for `userId` points both tools at that user. */
    method SetUser(userId: UserId)
      modifies this
      ensures saveUser == Some(userId) && retrieveUser == Some(userId)
      ensures EffectiveUser(saveUser) == userId && EffectiveUser(retrieveUser) == userId
    {
      saveUser := Some(userId);
      retrieveUser := Some(userId);
    }

    /** Save `data` under `category` for the tool's user; always succeeds. */
    method SaveMemory(category: Category, data: Entry) returns (reply: SaveReply)
      modifies memory
      ensures reply.status == Success
      ensures reply.message == SavedMessage(category, data)
      ensures memory.store == Added(old(memory.store), EffectiveUser(saveUser), category, data)
      ensures data in Entries(memory.store, EffectiveUser(saveUser), category)
    {
      var userId := EffectiveUser(saveUser);
      var _ := memory.Add(userId, category, data);
      reply := SaveReply(Success, SavedMessage(category, data));
    }

    /** The entries under `category` for the tool's user, with their number;
        always succeeds, also when nothing is stored. Reads only. */
    method RetrieveMemory(category: Category) returns (reply: RetrieveReply)
      ensures reply.status == Success
      ensures reply.data == Entries(memory.store, EffectiveUser(retrieveUser), category)
      ensures reply.category == category
      ensures reply.count == |reply.data|
    {
      var userId := EffectiveUser(retrieveUser);
      var results := memory.SearchByCategory(userId, category);
      reply := RetrieveReply(Success, results, category, |results|);
    }
  }

  /** A chat session for the default user against an empty collection: two
      preferences are saved, the first of them a second time, then the
      preferences and an unused category are retrieved. The repeated save
      adds nothing, and the unused category comes back empty with status
      "success". */
  method DefaultUserSession() returns (prefs: RetrieveReply, facts: RetrieveReply)
    ensures prefs == RetrieveReply(Success, ["dark mode", "daily summaries"], "prefs", 2)
    ensures facts == RetrieveReply(Success, [], "facts", 0)
  {
    var memory := new CouchbaseMemory(map[]);
    var tools := new ToolBindings(memory);
    tools.SetUser(DefaultUserId);
    var _ := tools.SaveMemory("prefs", "dark mode");
    var _ := tools.SaveMemory("prefs", "daily summaries");
    var _ := tools.SaveMemory("prefs", "dark mode");
    prefs := tools.RetrieveMemory("prefs");
    facts := tools.RetrieveMemory("facts");
  }
}
