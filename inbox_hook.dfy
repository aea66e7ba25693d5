/** The inbox data hooks: where the messages of a conversation are loaded
    from, how the loosely shaped answer is normalised into messages, what
    sending posts, and what sending and marking read invalidate. */
module InboxHook {
  import opened Common
  import opened Json
  import opened Query
  import Api

  // ---------------------------------------------------------------------
  // Loading
  // ---------------------------------------------------------------------

  /** `if (conversationId)`: an id of 0 counts as no id. */
  predicate HasConversation(id: Option<int>) {
    id.Some? && id.value != 0
  }

  /** ["messages", conversationId || "all"] */
  function MessagesQueryKey(id: Option<int>): (k: QueryKey)
    ensures |k| == 2 && Matches(MessagesKey, k)
    ensures HasConversation(id) ==> k[1] == Id(id.value)
    ensures !HasConversation(id) ==> k[1] == Text("all")
  {
    [Text("messages"), if HasConversation(id) then Id(id.value) else Text("all")]
  }

  function MessagesEndpoint(id: Option<int>): (e: string)
    ensures HasConversation(id) ==> e == "/api/messages/contact/" + IntToString(id.value)
    ensures !HasConversation(id) ==> e == "/api/messages"
  {
    if HasConversation(id) then "/api/messages/contact/" + IntToString(id.value) else "/api/messages"
  }

  /** Without a conversation the hook loads every message under "all", and
      the "/api" of the endpoint is the one apiUrl strips. */
  lemma NoConversationLoadsAll(base: string, id: Option<int>)
    requires !HasConversation(id)
    ensures MessagesQueryKey(id) == [Text("messages"), Text("all")]
    ensures Api.ApiUrl(base, MessagesEndpoint(id)) == base + "/messages"
  {
    Api.ApiPrefixStrippedOnce(base, "/messages");
    assert "/api" + "/messages" == "/api/messages";
  }

  // ---------------------------------------------------------------------
  // Normalisation
  // ---------------------------------------------------------------------

  /** `Array.isArray(raw) ? raw : raw?.messages || []`; None when the value
      chosen has no `map` (a TypeError). */
  function MessageItems(raw: Json): (items: Option<seq<Json>>)
    ensures raw.Arr? ==> items == Some(raw.items)
    ensures !raw.Arr? && !Truthy(OptGet(raw, "messages")) ==> items == Some([])
    ensures !raw.Arr? && OptGet(raw, "messages").Arr? ==> items == Some(OptGet(raw, "messages").items)
    ensures !raw.Arr? && Truthy(OptGet(raw, "messages")) && !OptGet(raw, "messages").Arr? ==> items.None?
  {
    var arr := if raw.Arr? then raw else Or(OptGet(raw, "messages"), Arr([]));
    if arr.Arr? then Some(arr.items) else None
  }

  /** A message as the hook returns it; each field holds whatever the
      answer carried, `undefined` included. */
  datatype Message = Message(id: Json, contactId: Json, direction: Json, content: Json, createdAt: Json)

  /** The map callback. Reading `m.id` of a null item throws, so the item
      must not be nullish. */
  function NormalizeMessage(m: Json): (msg: Message)
    requires !Nullish(m)
    ensures msg.id == Prop(m, "id") && msg.direction == Prop(m, "direction")
    ensures !Nullish(Prop(m, "contact_id")) ==> msg.contactId == Prop(m, "contact_id")
    ensures Nullish(Prop(m, "contact_id")) ==> msg.contactId == Prop(m, "contactId")
    ensures !msg.content.Undefined? && !msg.content.Null?
    ensures !Nullish(Prop(m, "content")) ==> msg.content == Prop(m, "content")
    ensures Nullish(Prop(m, "content")) && !Nullish(Prop(m, "body")) ==> msg.content == Prop(m, "body")
    ensures Nullish(Prop(m, "content")) && Nullish(Prop(m, "body")) ==> msg.content == Str("")
    ensures !Nullish(Prop(m, "sent_at")) ==> msg.createdAt == Prop(m, "sent_at")
    ensures Nullish(Prop(m, "sent_at")) && !Nullish(Prop(m, "created_at")) ==> msg.createdAt == Prop(m, "created_at")
    ensures Nullish(Prop(m, "sent_at")) && Nullish(Prop(m, "created_at")) ==> msg.createdAt == Prop(m, "createdAt")
  {
    Message(
      Prop(m, "id"),
      Coalesce(Prop(m, "contact_id"), Prop(m, "contactId")),
      Prop(m, "direction"),
      Coalesce(Prop(m, "content"), Coalesce(Prop(m, "body"), Str(""))),
      Coalesce(Prop(m, "sent_at"), Coalesce(Prop(m, "created_at"), Prop(m, "createdAt"))))
  }

  predicate NoNullItems(items: seq<Json>) {
    forall i :: 0 <= i < |items| ==> !Nullish(items[i])
  }

  /** The whole queryFn after the answer arrived: None when it throws. */
  function NormalizeMessages(raw: Json): (r: Option<seq<Message>>)
    ensures r.Some? <==> MessageItems(raw).Some? && NoNullItems(MessageItems(raw).value)
    ensures r.Some? ==> |r.value| == |MessageItems(raw).value|
    ensures r.Some? ==> forall i :: 0 <= i < |r.value| ==> r.value[i] == NormalizeMessage(MessageItems(raw).value[i])
  {
    match MessageItems(raw)
    case None => None
    case Some(items) =>
      if NoNullItems(items) then Some(seq(|items|, i requires 0 <= i < |items| => NormalizeMessage(items[i])))
      else None
  }

  /** One message per input item, in the same order, with the same id. */
  lemma OnePerItem(raw: Json)
    requires NormalizeMessages(raw).Some?
    ensures var items := MessageItems(raw).value; var out := NormalizeMessages(raw).value;
      |out| == |items| && forall i :: 0 <= i < |out| ==> out[i].id == OptGet(items[i], "id")
  {
  }

  /** A wrapped answer and the bare array it wraps give the same messages. */
  lemma WrappedEqualsBare(items: seq<Json>, rest: map<string, Json>)
    ensures NormalizeMessages(Obj(rest["messages" := Arr(items)])) == NormalizeMessages(Arr(items))
  {
    assert OptGet(Obj(rest["messages" := Arr(items)]), "messages") == Arr(items);
  }

  /** An answer without a usable list, null included, gives no messages. */
  lemma NoListNoMessages(raw: Json)
    requires !raw.Arr? && !Truthy(OptGet(raw, "messages"))
    ensures NormalizeMessages(raw) == Some([])
  {
  }

  // ---------------------------------------------------------------------
  // Sending and marking read
  // ---------------------------------------------------------------------

  /** `{ contactId: conversationId, content: body }` */
  function SendBody(conversationId: int, body: string): (b: Json)
    ensures b.Obj? && b.fields.Keys == {"contactId", "content"}
    ensures b.fields["contactId"] == Num(conversationId) && b.fields["content"] == Str(body)
  {
    Obj(map["contactId" := Num(conversationId), "content" := Str(body)])
  }

  /** The send request: POST /api/messages, always with a body. */
  function SendRequest(conversationId: int, body: string): (init: Api.RequestInit)
    ensures init.verb == "POST" && init.body == Some(SendBody(conversationId, body))
  {
    Api.PostInit(SendBody(conversationId, body))
  }

  const SendEndpoint: string := "/api/messages"

  /** onSuccess of a send. */
  method SendSucceeded<V>(qc: QueryCache<V>, conversationId: int)
    modifies qc
    ensures qc.entries == old(qc.entries)
    ensures qc.invalidated == old(qc.invalidated) +
      {[Text("messages"), Id(conversationId)], [Text("messages"), Text("all")], ConversationsKey, ContactsKey}
    ensures conversationId != 0 ==> qc.IsStale(MessagesQueryKey(Some(conversationId)))
    ensures qc.IsStale(MessagesQueryKey(None))
  {
    qc.InvalidateQueries([Text("messages"), Id(conversationId)]);
    qc.InvalidateQueries([Text("messages"), Text("all")]);
    qc.InvalidateQueries(ConversationsKey);
    qc.InvalidateQueries(ContactsKey);
  }

  /** The mark-read mutation: resolves true without a request, then
      invalidates the conversations. */
  method MarkConversationRead<V>(qc: QueryCache<V>, conversationId: int) returns (r: bool)
    modifies qc
    ensures r
    ensures qc.entries == old(qc.entries)
    ensures qc.invalidated == old(qc.invalidated) + {ConversationsKey}
  {
    r := true;
    qc.InvalidateQueries(ConversationsKey);
  }
}
