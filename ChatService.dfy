/** The in-memory conversation store: one process-wide list of chats, seeded
    with a sample conversation, and the five operations on it. Fresh ids
    (uuid4 in the service) are supplied by the caller. */
module ChatService {
  import opened Dtos

  /** The seed conversation the store starts with. */
  const InitialChats: seq<Chat> := [
    Chat("1", [ChatMessage("msg1", "Hello!", User),
               ChatMessage("msg2", "How can I assist you today?", Assistant)],
         "General inquiry")
  ]

  /** Some chat of the list has this id. */
  predicate Known(chats: seq<Chat>, id: string) {
    exists k :: 0 <= k < |chats| && chats[k].id == id
  }

  /** Position of the first chat with this id, scanning in list order. */
  function FirstIndex(chats: seq<Chat>, id: string): (r: Option<nat>)
    ensures r.None? <==> !Known(chats, id)
    ensures r.Some? ==> r.value < |chats| && chats[r.value].id == id
    ensures r.Some? ==> forall j :: 0 <= j < r.value ==> chats[j].id != id
  {
    if |chats| == 0 then None
    else if chats[0].id == id then Some(0)
    else match FirstIndex(chats[1..], id)
      case None =>
        assert forall k :: 1 <= k < |chats| ==> chats[k] == chats[1..][k - 1];
        None
      case Some(k) => Some(k + 1)
  }

  /** The chat `get_chat_by_id` answers: the first one with that id. */
  function Lookup(chats: seq<Chat>, id: string): (r: Option<Chat>)
    ensures r.None? <==> !Known(chats, id)
    ensures r.Some? ==> exists i :: 0 <= i < |chats| && chats[i] == r.value &&
                          r.value.id == id && forall j :: 0 <= j < i ==> chats[j].id != id
  {
    match FirstIndex(chats, id)
    case None => None
    case Some(i) => Some(chats[i])
  }

  /** The message `add_message_to_chat` stores for a request and a fresh id. */
  function NewMessage(dto: CreateChatMessageDto, msgId: string): (m: ChatMessage)
    ensures m.id == msgId && m.message == dto.message && m.role == dto.role
  {
    ChatMessage(msgId, dto.message, dto.role)
  }

  /** The store after appending a message to the first chat with `id`, and
      the message appended; `ChatNotFound` when no chat has that id. */
  function AddMessage(chats: seq<Chat>, id: string, dto: CreateChatMessageDto, msgId: string)
    : (r: Result<(seq<Chat>, ChatMessage)>)
    ensures r.Err? <==> !Known(chats, id)
    ensures r.Err? ==> r.error == ChatNotFound
    ensures r.Ok? ==>
      var i := FirstIndex(chats, id).value;
      var after := r.value.0;
      r.value.1 == NewMessage(dto, msgId) &&
      |after| == |chats| &&
      after[i].id == chats[i].id &&
      after[i].context == chats[i].context &&
      after[i].messages == chats[i].messages + [r.value.1] &&
      forall j :: 0 <= j < |chats| && j != i ==> after[j] == chats[j]
  {
    match FirstIndex(chats, id)
    case None => Err(ChatNotFound)
    case Some(i) =>
      var m := NewMessage(dto, msgId);
      Ok((chats[i := chats[i].(messages := chats[i].messages + [m])], m))
  }

  /** The store after replacing the context of the first chat with `id`;
      `ChatNotFound` when no chat has that id. */
  function SetContext(chats: seq<Chat>, id: string, context: string): (r: Result<seq<Chat>>)
    ensures r.Err? <==> !Known(chats, id)
    ensures r.Err? ==> r.error == ChatNotFound
    ensures r.Ok? ==>
      var i := FirstIndex(chats, id).value;
      |r.value| == |chats| &&
      r.value[i].id == chats[i].id &&
      r.value[i].messages == chats[i].messages &&
      r.value[i].context == context &&
      forall j :: 0 <= j < |chats| && j != i ==> r.value[j] == chats[j]
  {
    match FirstIndex(chats, id)
    case None => Err(ChatNotFound)
    case Some(i) => Ok(chats[i := chats[i].(context := context)])
  }

  /** Lists with the same ids position by position agree on every lookup
      position; neither message appends nor context updates change ids. */
  lemma FirstIndexSameIds(a: seq<Chat>, b: seq<Chat>, id: string)
    requires |a| == |b|
    requires forall k :: 0 <= k < |a| ==> a[k].id == b[k].id
    ensures FirstIndex(a, id) == FirstIndex(b, id)
  {
  }

  /** Appending a chat at the end leaves every earlier lookup as it was,
      and a chat whose id was not yet used is then found by its id. */
  lemma {:induction false} LookupAfterAppend(chats: seq<Chat>, c: Chat, id: string)
    ensures Known(chats, id) ==> Lookup(chats + [c], id) == Lookup(chats, id)
    ensures !Known(chats, id) && c.id == id ==> Lookup(chats + [c], id) == Some(c)
  {
    if |chats| > 0 && chats[0].id != id {
      assert (chats + [c])[1..] == chats[1..] + [c];
      LookupAfterAppend(chats[1..], c, id);
      assert Known(chats, id) ==> Known(chats[1..], id) by {
        if Known(chats, id) {
          var k :| 0 <= k < |chats| && chats[k].id == id;
          assert chats[1..][k - 1] == chats[k];
        }
      }
    }
  }

  /** After a successful append, looking the chat up again shows the new
      message last and nothing else about the chat changed. */
  lemma AddMessageThenLookup(chats: seq<Chat>, id: string, dto: CreateChatMessageDto, msgId: string)
    requires AddMessage(chats, id, dto, msgId).Ok?
    ensures var r := AddMessage(chats, id, dto, msgId).value;
      var before := Lookup(chats, id).value;
      Lookup(r.0, id) == Some(before.(messages := before.messages + [r.1]))
  {
  }

  /** After a successful context update the chat is found with exactly the
      new context, its messages untouched. */
  lemma SetContextThenLookup(chats: seq<Chat>, id: string, context: string)
    requires SetContext(chats, id, context).Ok?
    ensures var before := Lookup(chats, id).value;
      Lookup(SetContext(chats, id, context).value, id) == Some(before.(context := context))
  {
  }

  /** Setting the same context twice is the same as setting it once. */
  lemma SetContextIdempotent(chats: seq<Chat>, id: string, context: string)
    ensures var once := SetContext(chats, id, context);
      once.Ok? ==> SetContext(once.value, id, context) == once
  {
    var once := SetContext(chats, id, context);
    if once.Ok? {
      var i := FirstIndex(chats, id).value;
      FirstIndexSameIds(chats, once.value, id);
      assert once.value[i := once.value[i].(context := context)] == once.value;
    }
  }

  /** The messages a batch of requests produces, in request order. */
  function NewMessages(dtos: seq<CreateChatMessageDto>, ids: seq<string>): (ms: seq<ChatMessage>)
    requires |dtos| == |ids|
    ensures |ms| == |dtos|
    ensures forall k :: 0 <= k < |ms| ==> ms[k] == NewMessage(dtos[k], ids[k])
  {
    if dtos == [] then [] else [NewMessage(dtos[0], ids[0])] + NewMessages(dtos[1..], ids[1..])
  }

  /** The store after appending a batch of messages to one chat, one call at
      a time; the first failure ends the batch. */
  ghost function AddAll(chats: seq<Chat>, id: string, dtos: seq<CreateChatMessageDto>, ids: seq<string>)
    : Result<seq<Chat>>
    requires |dtos| == |ids|
    decreases |dtos|
  {
    if dtos == [] then Ok(chats)
    else match AddMessage(chats, id, dtos[0], ids[0])
      case Err(e) => Err(e)
      case Ok((after, _)) => AddAll(after, id, dtos[1..], ids[1..])
  }

  /** Appending N messages in sequence to a known chat yields its old
      messages followed by the N new ones in append order; on an unknown
      chat the first append already fails. */
  lemma {:induction false} AddAllInOrder(chats: seq<Chat>, id: string,
                                         dtos: seq<CreateChatMessageDto>, ids: seq<string>)
    requires |dtos| == |ids|
    ensures Known(chats, id) ==>
      AddAll(chats, id, dtos, ids).Ok? &&
      Known(AddAll(chats, id, dtos, ids).value, id) &&
      Lookup(AddAll(chats, id, dtos, ids).value, id).value.messages ==
        Lookup(chats, id).value.messages + NewMessages(dtos, ids)
    ensures !Known(chats, id) && dtos != [] ==> AddAll(chats, id, dtos, ids) == Err(ChatNotFound)
    decreases |dtos|
  {
    if dtos != [] && Known(chats, id) {
      var step := AddMessage(chats, id, dtos[0], ids[0]).value;
      AddMessageThenLookup(chats, id, dtos[0], ids[0]);
      assert Known(step.0, id) by {
        var i := FirstIndex(chats, id).value;
        assert step.0[i].id == id;
      }
      assert AddAll(chats, id, dtos, ids) == AddAll(step.0, id, dtos[1..], ids[1..]);
      AddAllInOrder(step.0, id, dtos[1..], ids[1..]);
      assert NewMessages(dtos, ids) == [step.1] + NewMessages(dtos[1..], ids[1..]);
    }
  }

  /** The list as the declared schema holds it: an undeclared keyword such
      as `context` is dropped when a chat is constructed. */
  function Declared(chats: seq<Chat>): (d: seq<DeclaredChat>)
    ensures |d| == |chats|
    ensures forall k :: 0 <= k < |d| ==> d[k] == DeclaredChat(chats[k].id, chats[k].messages)
  {
    if chats == [] then [] else [DeclaredChat(chats[0].id, chats[0].messages)] + Declared(chats[1..])
  }

  /** `update_chat_context` as written against the declared schema: the
      field assignment is refused for every chat that is found. */
  function SetContextAsDeclared(chats: seq<DeclaredChat>, id: string, context: string)
    : (r: Result<seq<DeclaredChat>>)
    ensures r.Err?
    ensures r.error == UnknownField <==> exists k :: 0 <= k < |chats| && chats[k].id == id
  {
    if exists k :: 0 <= k < |chats| && chats[k].id == id then Err(UnknownField) else Err(ChatNotFound)
  }

  /** On every store, the update as declared fails exactly where the
      corrected update succeeds, and with `ChatNotFound` where it fails. */
  lemma ContextUpdateFailsAsDeclared(chats: seq<Chat>, id: string, context: string)
    ensures SetContextAsDeclared(Declared(chats), id, context) ==
      if SetContext(chats, id, context).Ok? then Err(UnknownField) else Err(ChatNotFound)
  {
  }

  /** The seed chat shows the difference: as declared, setting its context
      fails; with the `context` field the update replaces it. */
  lemma SeedContextUpdate()
    ensures SetContextAsDeclared(Declared(InitialChats), "1", "VIP customer") == Err(UnknownField)
    ensures SetContext(InitialChats, "1", "VIP customer") ==
      Ok([InitialChats[0].(context := "VIP customer")])
  {
    assert Declared(InitialChats)[0].id == "1";
    assert FirstIndex(InitialChats, "1") == Some(0);
    assert InitialChats[0 := InitialChats[0].(context := "VIP customer")] ==
      [InitialChats[0].(context := "VIP customer")];
  }

  /** The store object: the module-level `chats` list and its operations. */
  class ChatStore {
    var chats: seq<Chat>

    constructor ()
      ensures chats == InitialChats
    {
      chats := InitialChats;
    }

    /** `get_chats`: the whole list, in order. */
    method GetChats() returns (r: seq<Chat>)
      ensures r == chats
    {
      r := chats;
    }

    /** `create_chat`: a chat with the given fresh id, no messages and no
        context, appended at the end and returned. */
    method CreateChat(freshId: string) returns (c: Chat)
      modifies this
      ensures c == Chat(freshId, [], "")
      ensures chats == old(chats) + [c]
    {
      c := Chat(freshId, [], "");
      chats := chats + [c];
    }

    /** The scan behind `get_chat_by_id`: position of the first match. */
    method FindIndex(id: string) returns (r: Option<nat>)
      ensures r == FirstIndex(chats, id)
    {
      var i := 0;
      while i < |chats|
        invariant 0 <= i <= |chats|
        invariant forall j :: 0 <= j < i ==> chats[j].id != id
      {
        if chats[i].id == id {
          return Some(i);
        }
        i := i + 1;
      }
      return None;
    }

    /** `get_chat_by_id`: the first chat with that id, or none. */
    method GetChatById(id: string) returns (r: Option<Chat>)
      ensures r == Lookup(chats, id)
    {
      var i := FindIndex(id);
      r := if i.Some? then Some(chats[i.value]) else None;
    }

    /** `add_message_to_chat`: appends a message built from the request and
        the fresh id to the first chat with `chatId`, and returns it. */
    method AddMessageToChat(chatId: string, dto: CreateChatMessageDto, msgId: string)
      returns (r: Result<ChatMessage>)
      modifies this
      ensures r.Err? <==> !Known(old(chats), chatId)
      ensures r.Err? ==> r.error == ChatNotFound && chats == old(chats)
      ensures r.Ok? ==> r.value == NewMessage(dto, msgId)
      ensures r.Ok? ==> chats == AddMessage(old(chats), chatId, dto, msgId).value.0
    {
      var i := FindIndex(chatId);
      if i.None? {
        return Err(ChatNotFound);
      }
      var chat := chats[i.value];
      var m := NewMessage(dto, msgId);
      chats := chats[i.value := chat.(messages := chat.messages + [m])];
      r := Ok(m);
    }

    /** `update_chat_context`: replaces the context of the first chat with
        `chatId`. */
    method UpdateChatContext(chatId: string, context: string) returns (r: Result<()>)
      modifies this
      ensures r.Err? <==> !Known(old(chats), chatId)
      ensures r.Err? ==> r.error == ChatNotFound && chats == old(chats)
      ensures r.Ok? ==> chats == SetContext(old(chats), chatId, context).value
    {
      var i := FindIndex(chatId);
      if i.None? {
        return Err(ChatNotFound);
      }
      chats := chats[i.value := chats[i.value].(context := context)];
      r := Ok(());
    }
  }
}
