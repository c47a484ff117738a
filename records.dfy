/**
 * The two persisted record shapes, `messageSchema` and `conversationSchema`, with the part of
 * Mongoose's document validation that the schemas switch on: `required` strings, the `role`
 * enumeration, the `title` default, and the `timestamps` option.
 */
module Records {
  import opened Wrappers

  /** Object ids (conversation, message, user) are opaque; the model draws them from naturals. */
  type ObjectId = nat
  type UserId = ObjectId
  type ConvId = ObjectId

  /** The `enum: ['user', 'assistant']` of `messageSchema.role`. */
  datatype Role = User | Assistant

  const DefaultTitle: string := "New Conversation"

  /** The string a role is stored as. */
  function RoleName(r: Role): (s: string)
    ensures ParseRole(s) == Some(r)
  {
    match r
    case User => "user"
    case Assistant => "assistant"
  }

  /** Mongoose's `enum` validator on `role`: a stored string is accepted exactly when it is listed. */
  function ParseRole(s: string): (r: Option<Role>)
    ensures r.Some? <==> s == "user" || s == "assistant"
    ensures r == Some(User) <==> s == "user"
  {
    if s == "user" then Some(User)
    else if s == "assistant" then Some(Assistant)
    else None
  }

  /**
   * Mongoose's `required` check for a String path: the value must be present and must not be
   * the empty string.
   */
  predicate Required(s: Option<string>)
  {
    s.Some? && |s.value| > 0
  }

  /**
   * A conversation record: `userId` (required, refers to a User), `title` (required, defaulting
   * to `DefaultTitle`) and the two `timestamps` fields. `id` is the document's `_id`.
   */
  datatype Conversation = Conversation(id: ConvId, userId: UserId, title: string, createdAt: nat, updatedAt: nat)

  /**
   * A message record: `conversationId` (required, refers to a Conversation), `role`, `content`
   * (required) and the two `timestamps` fields. It has no owner field of its own: who owns a
   * message is reachable only through its conversation.
   */
  datatype Message = Message(id: ObjectId, conversationId: ConvId, role: Role, content: string, createdAt: nat, updatedAt: nat)

  /** What `conversationSchema` accepts on save. */
  predicate ValidConversation(c: Conversation)
  {
    |c.title| > 0 && c.createdAt <= c.updatedAt
  }

  /** What `messageSchema` accepts on save (the role is valid by construction of `Role`). */
  predicate ValidMessage(m: Message)
  {
    |m.content| > 0 && m.createdAt <= m.updatedAt
  }

  /**
   * `new Conversation({ userId, title })` followed by validation at `save()`, at time `now`:
   * an absent title takes the default, an empty one is refused, and both timestamps are `now`.
   */
  function NewConversationRecord(id: ConvId, userId: UserId, title: Option<string>, now: nat): (r: Option<Conversation>)
    ensures r.Some? <==> title.None? || |title.value| > 0
    ensures r.Some? ==> ValidConversation(r.value) && r.value.id == id && r.value.userId == userId
    ensures r.Some? ==> r.value.createdAt == now && r.value.updatedAt == now
    ensures r.Some? && title.Some? ==> r.value.title == title.value
    ensures title.None? ==> r.Some? && r.value.title == DefaultTitle
  {
    var t := if title.None? then DefaultTitle else title.value;
    if Required(Some(t)) then Some(Conversation(id, userId, t, now, now)) else None
  }

  /**
   * `new Message({ conversationId, role, content })` followed by validation at `save()`, at time
   * `now`: an absent or empty content is refused.
   */
  function NewMessageRecord(id: ObjectId, conversationId: ConvId, role: Role, content: Option<string>, now: nat): (r: Option<Message>)
    ensures r.Some? <==> Required(content)
    ensures r.Some? ==> ValidMessage(r.value) && r.value.conversationId == conversationId
    ensures r.Some? ==> r.value.role == role && r.value.content == content.value
    ensures r.Some? ==> r.value.id == id && r.value.createdAt == now && r.value.updatedAt == now
  {
    if Required(content) then Some(Message(id, conversationId, role, content.value, now, now)) else None
  }
}
