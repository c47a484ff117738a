/**
 * The chat router: the `auth` middleware, the two list reads (`GET /conversations`,
 * `GET /messages/:conversationId`) and the turn handler `POST /new`, over a store of
 * conversation and message records.
 *
 * The database is a `Store` object holding both collections in insertion order and a logical
 * clock. Every `save()` takes the clock's current value as the new record's `_id` and as both
 * of its timestamps, then advances the clock.
 */
module ChatRoutes {
  import opened Wrappers
  import opened Records
  import opened Ordering

  // ---------------------------------------------------------------------------------------
  // The `auth` middleware
  // ---------------------------------------------------------------------------------------

  /**
   * `jwt.verify` with the server's secret, taken as given: the tokens it accepts, each with the
   * `userId` its payload carries. Any other token is refused, and the empty token always is
   * (`jwt.verify` throws "jwt must be provided" before looking at the secret).
   */
  type Verifier = v: map<string, UserId> | "" !in v witness map[]

  /** The characters of `s` before its first space (all of `s` when it has none). */
  function UpToSpace(s: string): (r: string)
    ensures r <= s && ' ' !in r
    ensures |r| < |s| ==> s[|r|] == ' '
  {
    if s == [] || s[0] == ' ' then [] else [s[0]] + UpToSpace(s[1..])
  }

  /** The characters of `s` after its first space, if it has one. */
  function AfterFirstSpace(s: string): (r: Option<string>)
    ensures r.None? <==> ' ' !in s
    ensures r.Some? ==> |r.value| < |s| && r.value == s[|s| - |r.value|..]
    ensures r.Some? ==> s[|s| - |r.value| - 1] == ' ' && ' ' !in s[..|s| - |r.value| - 1]
  {
    if s == [] then None
    else if s[0] == ' ' then Some(s[1..])
    else
      var r := AfterFirstSpace(s[1..]);
      assert r.Some? ==> s[..|s| - |r.value| - 1] == [s[0]] + s[1..][..|s| - 1 - |r.value| - 1];
      r
  }

  /**
   * `authorization.split(' ')[1]`: the second space-separated field of the header, absent when
   * the header has no space. The first field (the scheme) is not inspected.
   */
  function BearerToken(authorization: string): (token: Option<string>)
    ensures token.None? <==> ' ' !in authorization
    ensures token.Some? ==> ' ' !in token.value
  {
    match AfterFirstSpace(authorization)
    case None => None
    case Some(rest) => Some(UpToSpace(rest))
  }

  /** A header `scheme token` yields `token`, whatever the scheme word is. */
  lemma {:induction false} BearerTokenOfHeader(scheme: string, token: string)
    requires ' ' !in scheme && ' ' !in token
    ensures BearerToken(scheme + " " + token) == Some(token)
  {
    AfterSchemeIsToken(scheme, token);
    var r := UpToSpace(token);
    assert |r| == |token|;
    assert r == token;
  }

  lemma {:induction false} AfterSchemeIsToken(scheme: string, rest: string)
    requires ' ' !in scheme
    ensures AfterFirstSpace(scheme + " " + rest) == Some(rest)
  {
    if scheme != [] {
      assert (scheme + " " + rest)[1..] == scheme[1..] + " " + rest;
      AfterSchemeIsToken(scheme[1..], rest);
    }
  }

  /**
   * The middleware: a missing header, a header without a space, an empty token (`"Bearer "`,
   * or two spaces after the scheme), or a token the verifier refuses all end in 401; otherwise
   * the verified user becomes the caller.
   */
  function Authenticate(authorization: Option<string>, verify: Verifier): (caller: Option<UserId>)
    ensures authorization.None? ==> caller.None?
    ensures authorization.Some? && ' ' !in authorization.value ==> caller.None?
    ensures authorization.Some? && BearerToken(authorization.value) == Some("") ==> caller.None?
    ensures caller.Some? <==>
              authorization.Some? && BearerToken(authorization.value).Some? &&
              BearerToken(authorization.value).value in verify
    ensures caller.Some? ==> caller.value == verify[BearerToken(authorization.value).value]
  {
    if authorization.None? then None
    else
      match BearerToken(authorization.value)
      case None => None
      case Some(token) => if token in verify then Some(verify[token]) else None
  }

  /** The header `"Bearer "` carries the empty token, which no verifier accepts. */
  lemma EmptyBearerRefused(verify: Verifier)
    ensures BearerToken("Bearer ") == Some("")
    ensures Authenticate(Some("Bearer "), verify).None?
  {
    AfterSchemeIsToken("Bearer", "");
    assert "Bearer" + " " + "" == "Bearer ";
  }

  // ---------------------------------------------------------------------------------------
  // Request and response shapes
  // ---------------------------------------------------------------------------------------

  /** A non-empty id string: a well-formed ObjectId, or text that makes the query's cast fail. */
  datatype IdText = Id(id: ConvId) | Malformed

  /** What the answering service did with the question. */
  datatype Answer = Answer(text: string) | Fail

  /** `{ role, content }` as sent back to the client. */
  datatype Reply = Reply(role: Role, content: string)

  /** The body of a successful `POST /new`. */
  datatype TurnReply = TurnReply(assistantMessage: Reply, newConversation: Option<Conversation>)

  /** How a handler answers: a body, or one of the three error statuses it sends. */
  datatype Response<T> = Ok(value: T) | NotFound404 | Error500 | Auth401

  // ---------------------------------------------------------------------------------------
  // The title rule
  // ---------------------------------------------------------------------------------------

  const TitleWidth: nat := 30
  /** Three ASCII full stops, not a single ellipsis character. */
  const Ellipsis: string := "..."

  function Min(a: nat, b: nat): nat { if a <= b then a else b }

  /**
   * `message.substring(0, 30) + (message.length > 30 ? '...' : '')`: a message of at most 30
   * characters is its own title; a longer one is cut to 30 characters and marked with `...`.
   */
  function Title(message: string): (t: string)
    ensures |message| <= TitleWidth ==> t == message
    ensures |t| <= TitleWidth + |Ellipsis|
    ensures |message| > TitleWidth <==> |t| == TitleWidth + |Ellipsis|
    ensures t[..Min(|message|, TitleWidth)] == message[..Min(|message|, TitleWidth)]
    ensures |message| > TitleWidth ==> t[TitleWidth..] == Ellipsis
    ensures |t| > 0 <==> |message| > 0
  {
    message[..Min(|message|, TitleWidth)] + (if |message| > TitleWidth then Ellipsis else "")
  }

  // ---------------------------------------------------------------------------------------
  // Queries
  // ---------------------------------------------------------------------------------------

  function OwnedBy(user: UserId): Conversation -> bool { (c: Conversation) => c.userId == user }
  function InConversation(id: ConvId): Message -> bool { (m: Message) => m.conversationId == id }

  /** `.sort({ updatedAt: -1 })` sorts ascending on the negated key. */
  function RecencyKey(c: Conversation): int { -(c.updatedAt as int) }
  function UpdateKey(c: Conversation): int { c.updatedAt }
  function CreationKey(m: Message): int { m.createdAt }

  /**
   * `Conversation.find({ userId }).sort({ updatedAt: -1 })`: exactly the caller's conversations,
   * most recently updated first.
   */
  function ConversationList(cs: seq<Conversation>, user: UserId): (r: seq<Conversation>)
    ensures forall c :: c in r <==> c in cs && c.userId == user
    ensures multiset(r) == multiset(Filter(cs, OwnedBy(user)))
    ensures forall i, j :: 0 <= i < j < |r| ==> r[i].updatedAt >= r[j].updatedAt
  {
    var owned := Filter(cs, OwnedBy(user));
    var r := SortBy(owned, RecencyKey);
    assert forall c :: c in r <==> c in multiset(r);
    assert forall c :: c in owned <==> c in multiset(owned);
    r
  }

  /**
   * `Message.find({ conversationId }).sort({ createdAt: 1 })`: exactly the conversation's
   * messages, oldest first.
   */
  function Transcript(ms: seq<Message>, id: ConvId): (r: seq<Message>)
    ensures forall m :: m in r <==> m in ms && m.conversationId == id
    ensures multiset(r) == multiset(Filter(ms, InConversation(id)))
    ensures forall i, j :: 0 <= i < j < |r| ==> r[i].createdAt <= r[j].createdAt
  {
    var mine := Filter(ms, InConversation(id));
    var r := SortBy(mine, CreationKey);
    assert forall m :: m in r <==> m in multiset(r);
    assert forall m :: m in mine <==> m in multiset(mine);
    r
  }

  /**
   * `Conversation.findOne({ _id: id, userId: user })`: a conversation with that id owned by that
   * user, or nothing. An id that does not exist and an id owned by someone else look the same.
   */
  function FindOwned(cs: seq<Conversation>, id: ConvId, user: UserId): (r: Option<Conversation>)
    ensures r.Some? ==> r.value in cs && r.value.id == id && r.value.userId == user
    ensures r.None? <==> forall c :: c in cs ==> c.id != id || c.userId != user
  {
    if cs == [] then None
    else if cs[0].id == id && cs[0].userId == user then Some(cs[0])
    else
      assert cs == [cs[0]] + cs[1..];
      FindOwned(cs[1..], id, user)
  }

  /** The owner of the conversation with this id, the only route from a message to a user. */
  function OwnerOf(cs: seq<Conversation>, id: ConvId): (r: Option<UserId>)
    ensures r.None? <==> forall c :: c in cs ==> c.id != id
    ensures r.Some? ==> FindOwned(cs, id, r.value).Some?
  {
    if cs == [] then None
    else if cs[0].id == id then Some(cs[0].userId)
    else
      assert cs == [cs[0]] + cs[1..];
      OwnerOf(cs[1..], id)
  }

  predicate DistinctIds(cs: seq<Conversation>)
  {
    forall i, j :: 0 <= i < j < |cs| ==> cs[i].id != cs[j].id
  }

  /** With unique ids, the owner of a stored conversation's id is that conversation's user. */
  lemma {:induction false} OwnerOfMember(cs: seq<Conversation>, c: Conversation)
    requires DistinctIds(cs) && c in cs
    ensures OwnerOf(cs, c.id) == Some(c.userId)
  {
    if cs[0] != c {
      assert c in cs[1..];
      var k :| 0 <= k < |cs[1..]| && cs[1..][k] == c;
      assert cs[k + 1] == c;
      OwnerOfMember(cs[1..], c);
    }
  }

  /** Adding a conversation does not change who owns an id already in use. */
  lemma {:induction false} OwnerOfAppend(cs: seq<Conversation>, c: Conversation, id: ConvId)
    requires OwnerOf(cs, id).Some?
    ensures OwnerOf(cs + [c], id) == OwnerOf(cs, id)
  {
    if cs[0].id != id {
      assert (cs + [c])[1..] == cs[1..] + [c];
      OwnerOfAppend(cs[1..], c, id);
    }
  }

  // ---------------------------------------------------------------------------------------
  // The store invariant
  // ---------------------------------------------------------------------------------------

  /**
   * What the routes keep true of the database: every record passed validation, carries a
   * clock value older than the clock, and was never touched after creation (`createdAt ==
   * updatedAt`); ids are unique; timestamps increase in insertion order; every message's
   * conversation exists.
   */
  predicate Consistent(cs: seq<Conversation>, ms: seq<Message>, clock: nat)
  {
    && (forall i :: 0 <= i < |cs| ==>
          ValidConversation(cs[i]) && cs[i].id < clock && cs[i].createdAt == cs[i].updatedAt < clock)
    && DistinctIds(cs)
    && IncreasingBy(cs, UpdateKey)
    && (forall i :: 0 <= i < |ms| ==>
          ValidMessage(ms[i]) && ms[i].id < clock && ms[i].createdAt == ms[i].updatedAt < clock &&
          OwnerOf(cs, ms[i].conversationId).Some?)
    && (forall i, j :: 0 <= i < j < |ms| ==> ms[i].id != ms[j].id)
    && IncreasingBy(ms, CreationKey)
  }

  lemma ConsistentAddConversation(cs: seq<Conversation>, ms: seq<Message>, clock: nat, c: Conversation)
    requires Consistent(cs, ms, clock)
    requires ValidConversation(c) && c.id == clock && c.createdAt == c.updatedAt == clock
    ensures Consistent(cs + [c], ms, clock + 1) && OwnerOf(cs + [c], c.id).Some?
  {
    OwnerOfMember(cs + [c], c);
    StoredConversationsAppend(cs, clock, c);
    forall k | 0 <= k < |cs|
      ensures UpdateKey(cs[k]) < UpdateKey(c)
    {
    }
    IncreasingAppend(cs, c, UpdateKey);
    forall i | 0 <= i < |ms|
      ensures OwnerOf(cs + [c], ms[i].conversationId).Some?
    {
      OwnerOfAppend(cs, c, ms[i].conversationId);
    }
  }

  lemma StoredConversationsAppend(cs: seq<Conversation>, clock: nat, c: Conversation)
    requires forall i :: 0 <= i < |cs| ==>
               ValidConversation(cs[i]) && cs[i].id < clock && cs[i].createdAt == cs[i].updatedAt < clock
    requires DistinctIds(cs)
    requires ValidConversation(c) && c.id == clock && c.createdAt == c.updatedAt == clock
    ensures forall i :: 0 <= i < |cs + [c]| ==>
              ValidConversation((cs + [c])[i]) && (cs + [c])[i].id < clock + 1 &&
              (cs + [c])[i].createdAt == (cs + [c])[i].updatedAt < clock + 1
    ensures DistinctIds(cs + [c])
  {
    forall i | 0 <= i < |cs + [c]|
      ensures ValidConversation((cs + [c])[i]) && (cs + [c])[i].id < clock + 1
      ensures (cs + [c])[i].createdAt == (cs + [c])[i].updatedAt < clock + 1
    {
      if i < |cs| {
        assert (cs + [c])[i] == cs[i];
      }
    }
    forall i, j | 0 <= i < j < |cs + [c]|
      ensures (cs + [c])[i].id != (cs + [c])[j].id
    {
      assert (cs + [c])[i] == cs[i];
      if j < |cs| {
        assert (cs + [c])[j] == cs[j];
      }
    }
  }

  lemma ConsistentAddMessage(cs: seq<Conversation>, ms: seq<Message>, clock: nat, m: Message)
    requires Consistent(cs, ms, clock)
    requires ValidMessage(m) && m.id == clock && m.createdAt == m.updatedAt == clock
    requires OwnerOf(cs, m.conversationId).Some?
    ensures Consistent(cs, ms + [m], clock + 1)
  {
    StoredMessagesAppend(cs, ms, clock, m);
    DistinctMessageIdsAppend(ms, clock, m);
    forall k | 0 <= k < |ms|
      ensures CreationKey(ms[k]) < CreationKey(m)
    {
    }
    IncreasingAppend(ms, m, CreationKey);
  }

  lemma StoredMessagesAppend(cs: seq<Conversation>, ms: seq<Message>, clock: nat, m: Message)
    requires forall i :: 0 <= i < |ms| ==>
               ValidMessage(ms[i]) && ms[i].id < clock && ms[i].createdAt == ms[i].updatedAt < clock &&
               OwnerOf(cs, ms[i].conversationId).Some?
    requires ValidMessage(m) && m.id == clock && m.createdAt == m.updatedAt == clock
    requires OwnerOf(cs, m.conversationId).Some?
    ensures forall i :: 0 <= i < |ms + [m]| ==>
              ValidMessage((ms + [m])[i]) && (ms + [m])[i].id < clock + 1 &&
              (ms + [m])[i].createdAt == (ms + [m])[i].updatedAt < clock + 1 &&
              OwnerOf(cs, (ms + [m])[i].conversationId).Some?
  {
    forall i | 0 <= i < |ms + [m]|
      ensures ValidMessage((ms + [m])[i]) && (ms + [m])[i].id < clock + 1
      ensures (ms + [m])[i].createdAt == (ms + [m])[i].updatedAt < clock + 1
      ensures OwnerOf(cs, (ms + [m])[i].conversationId).Some?
    {
      if i < |ms| {
        assert (ms + [m])[i] == ms[i];
      }
    }
  }

  lemma DistinctMessageIdsAppend(ms: seq<Message>, clock: nat, m: Message)
    requires forall i :: 0 <= i < |ms| ==> ms[i].id < clock
    requires forall i, j :: 0 <= i < j < |ms| ==> ms[i].id != ms[j].id
    requires m.id == clock
    ensures forall i, j :: 0 <= i < j < |ms + [m]| ==> (ms + [m])[i].id != (ms + [m])[j].id
  {
    forall i, j | 0 <= i < j < |ms + [m]|
      ensures (ms + [m])[i].id != (ms + [m])[j].id
    {
      assert (ms + [m])[i] == ms[i];
      if j < |ms| {
        assert (ms + [m])[j] == ms[j];
      }
    }
  }

  /** Messages come back from the transcript query in the order they were stored. */
  lemma TranscriptInStorageOrder(cs: seq<Conversation>, ms: seq<Message>, clock: nat, id: ConvId)
    requires Consistent(cs, ms, clock)
    ensures Transcript(ms, id) == Filter(ms, InConversation(id))
  {
    FilterIncreasing(ms, InConversation(id), CreationKey);
    SortByOfSorted(Filter(ms, InConversation(id)), CreationKey);
  }

  /** A conversation id that no stored conversation has has an empty transcript. */
  lemma TranscriptOfUnknownId(cs: seq<Conversation>, ms: seq<Message>, clock: nat, id: ConvId)
    requires Consistent(cs, ms, clock) && OwnerOf(cs, id).None?
    ensures Transcript(ms, id) == []
  {
    forall k | 0 <= k < |ms|
      ensures ms[k].conversationId != id
    {
      assert OwnerOf(cs, ms[k].conversationId).Some?;
    }
    var r := Transcript(ms, id);
    assert forall m :: m !in r;
  }

  /** Messages appended to one conversation extend its transcript at the end, in order. */
  lemma TranscriptAppend(cs: seq<Conversation>, ms: seq<Message>, clock: nat, id: ConvId, more: seq<Message>, clock': nat)
    requires Consistent(cs, ms, clock) && Consistent(cs, ms + more, clock')
    requires forall k :: 0 <= k < |more| ==> more[k].conversationId == id
    ensures Transcript(ms + more, id) == Transcript(ms, id) + more
  {
    TranscriptInStorageOrder(cs, ms, clock, id);
    TranscriptInStorageOrder(cs, ms + more, clock', id);
    FilterAppend(ms, more, InConversation(id));
    FilterAll(more, InConversation(id));
  }

  lemma {:induction false} FilterAll<T(!new)>(s: seq<T>, p: T -> bool)
    requires forall k :: 0 <= k < |s| ==> p(s[k])
    ensures Filter(s, p) == s
  {
    if s != [] {
      FilterAll(s[1..], p);
    }
  }

  /** Every message the transcript query returns for an owned conversation belongs to the caller. */
  lemma ListedMessagesBelongToCaller(cs: seq<Conversation>, ms: seq<Message>, clock: nat, id: ConvId, user: UserId)
    requires Consistent(cs, ms, clock) && FindOwned(cs, id, user).Some?
    ensures forall m :: m in Transcript(ms, id) ==> OwnerOf(cs, m.conversationId) == Some(user)
  {
    OwnerOfMember(cs, FindOwned(cs, id, user).value);
  }

  /**
   * A conversation newer than every stored one heads its owner's list, and the rest of the
   * list is unchanged; nobody else's list changes.
   */
  lemma ConversationListAfterCreate(cs: seq<Conversation>, c: Conversation, user: UserId)
    requires forall k :: 0 <= k < |cs| ==> cs[k].updatedAt < c.updatedAt
    ensures ConversationList(cs + [c], user) ==
              if c.userId == user then [c] + ConversationList(cs, user) else ConversationList(cs, user)
  {
    var p := OwnedBy(user);
    FilterAppend(cs, [c], p);
    var owned := Filter(cs, p);
    if c.userId == user {
      assert Filter([c], p) == [c];
      forall k | 0 <= k < |owned|
        ensures RecencyKey(c) < RecencyKey(owned[k])
      {
        assert owned[k] in cs;
      }
      SortByAppendSmallest(owned, c, RecencyKey);
    } else {
      assert Filter([c], p) == [];
      assert owned + [] == owned;
    }
  }

  // ---------------------------------------------------------------------------------------
  // The turn
  // ---------------------------------------------------------------------------------------

  /** How `POST /new` settles its target conversation before writing any message. */
  datatype Resolution = Existing(conv: Conversation) | Created(conv: Conversation) | Missing | Crashed

  /**
   * Lines 52-65 of the handler: an id looks up a conversation of the caller's (a malformed id
   * makes the query throw); no id builds a new conversation titled from the message, which
   * throws on an absent message and fails validation on an empty one.
   */
  function Resolve(cs: seq<Conversation>, user: UserId, message: Option<string>, conversationId: Option<IdText>, now: nat): (res: Resolution)
    ensures res.Missing? <==>
              conversationId.Some? && conversationId.value.Id? && FindOwned(cs, conversationId.value.id, user).None?
    ensures res.Existing? <==>
              conversationId.Some? && conversationId.value.Id? && FindOwned(cs, conversationId.value.id, user).Some?
    ensures res.Existing? ==> res.conv in cs && res.conv.id == conversationId.value.id && res.conv.userId == user
    ensures res.Created? <==> conversationId.None? && Required(message)
    ensures res.Created? ==>
              ValidConversation(res.conv) && res.conv.userId == user && res.conv.title == Title(message.value) &&
              res.conv.id == now && res.conv.createdAt == now && res.conv.updatedAt == now
    ensures res.Crashed? <==> conversationId == Some(Malformed) || (conversationId.None? && !Required(message))
  {
    match conversationId
    case Some(Malformed) => Crashed
    case Some(Id(id)) =>
      (match FindOwned(cs, id, user)
       case None => Missing
       case Some(c) => Existing(c))
    case None =>
      if message.None? then Crashed
      else
        match NewConversationRecord(now, user, Some(Title(message.value)), now)
        case None => Crashed
        case Some(c) => Created(c)
  }

  /**
   * Lines 67-82 once the conversation `c` is settled, starting at clock value `t`: the user
   * message is saved (or fails validation), then the answer is saved as the assistant message
   * (or the service failed, or its answer fails validation). Nothing is rolled back.
   */
  predicate TurnWrites(c: Conversation, newConversation: Option<Conversation>, ms: seq<Message>, t: nat,
                       message: Option<string>, answer: Answer, r: Response<TurnReply>, ms': seq<Message>, clock': nat)
  {
    if !Required(message) then
      r == Error500 && ms' == ms && clock' == t
    else
      var u := Message(t, c.id, User, message.value, t, t);
      if answer.Fail? || !Required(Some(answer.text)) then
        r == Error500 && ms' == ms + [u] && clock' == t + 1
      else
        var a := Message(t + 1, c.id, Assistant, answer.text, t + 1, t + 1);
        r == Ok(TurnReply(Reply(Assistant, answer.text), newConversation)) && ms' == ms + [u, a] && clock' == t + 2
  }

  /**
   * The whole turn, relating the store before (`cs`, `ms`, `clock`) to the reply `r` and the
   * store after (`cs'`, `ms'`, `clock'`).
   */
  predicate TurnSettled(cs: seq<Conversation>, ms: seq<Message>, clock: nat, user: UserId,
                        message: Option<string>, conversationId: Option<IdText>, answer: Answer,
                        r: Response<TurnReply>, cs': seq<Conversation>, ms': seq<Message>, clock': nat)
  {
    match Resolve(cs, user, message, conversationId, clock)
    case Missing => r == NotFound404 && cs' == cs && ms' == ms && clock' == clock
    case Crashed => r == Error500 && cs' == cs && ms' == ms && clock' == clock
    case Existing(c) => cs' == cs && TurnWrites(c, None, ms, clock, message, answer, r, ms', clock')
    case Created(c) => cs' == cs + [c] && TurnWrites(c, Some(c), ms, clock + 1, message, answer, r, ms', clock')
  }

  /** Saving a settled turn's messages into a conversation that exists keeps the store consistent. */
  lemma TurnWritesKeepConsistency(cs: seq<Conversation>, ms: seq<Message>, t: nat, c: Conversation,
                                  newConversation: Option<Conversation>, message: Option<string>, answer: Answer,
                                  r: Response<TurnReply>, ms': seq<Message>, clock': nat)
    requires Consistent(cs, ms, t) && OwnerOf(cs, c.id).Some?
    requires TurnWrites(c, newConversation, ms, t, message, answer, r, ms', clock')
    ensures Consistent(cs, ms', clock')
  {
    if Required(message) {
      var u := Message(t, c.id, User, message.value, t, t);
      ConsistentAddMessage(cs, ms, t, u);
      if answer.Answer? && Required(Some(answer.text)) {
        var a := Message(t + 1, c.id, Assistant, answer.text, t + 1, t + 1);
        ConsistentAddMessage(cs, ms + [u], t + 1, a);
        assert ms + [u] + [a] == ms + [u, a];
      }
    }
  }

  /** A turn whose conversation resolved is settled once its messages are written. */
  lemma SettledByWrites(cs: seq<Conversation>, ms: seq<Message>, clock: nat, user: UserId,
                        message: Option<string>, conversationId: Option<IdText>, answer: Answer,
                        r: Response<TurnReply>, cs': seq<Conversation>, ms': seq<Message>, clock': nat)
    requires Resolve(cs, user, message, conversationId, clock).Existing? || Resolve(cs, user, message, conversationId, clock).Created?
    requires var res := Resolve(cs, user, message, conversationId, clock);
             && cs' == (if res.Created? then cs + [res.conv] else cs)
             && TurnWrites(res.conv, if res.Created? then Some(res.conv) else None, ms,
                           if res.Created? then clock + 1 else clock, message, answer, r, ms', clock')
    ensures TurnSettled(cs, ms, clock, user, message, conversationId, answer, r, cs', ms', clock')
  {
  }

  /** A turn leaves a consistent store consistent. */
  lemma TurnPreservesConsistency(cs: seq<Conversation>, ms: seq<Message>, clock: nat, user: UserId,
                                 message: Option<string>, conversationId: Option<IdText>, answer: Answer,
                                 r: Response<TurnReply>, cs': seq<Conversation>, ms': seq<Message>, clock': nat)
    requires Consistent(cs, ms, clock)
    requires TurnSettled(cs, ms, clock, user, message, conversationId, answer, r, cs', ms', clock')
    ensures Consistent(cs', ms', clock')
  {
    match Resolve(cs, user, message, conversationId, clock)
    case Missing =>
    case Crashed =>
    case Existing(c) =>
      OwnerOfMember(cs, c);
      TurnWritesKeepConsistency(cs, ms, clock, c, None, message, answer, r, ms', clock');
    case Created(c) =>
      ConsistentAddConversation(cs, ms, clock, c);
      OwnerOfMember(cs + [c], c);
      TurnWritesKeepConsistency(cs + [c], ms, clock + 1, c, Some(c), message, answer, r, ms', clock');
  }

  /**
   * The shape of every outcome: a given id never creates a conversation and never returns
   * one; no id creates exactly one conversation, owned by the caller and titled from the
   * message, before any message is written, and a reply returns it; 404 and a failure before
   * the user message write nothing; existing records are never changed, only appended to.
   */
  lemma TurnOutcomes(cs: seq<Conversation>, ms: seq<Message>, clock: nat, user: UserId,
                     message: Option<string>, conversationId: Option<IdText>, answer: Answer,
                     r: Response<TurnReply>, cs': seq<Conversation>, ms': seq<Message>, clock': nat)
    requires TurnSettled(cs, ms, clock, user, message, conversationId, answer, r, cs', ms', clock')
    ensures r.Ok? || r.NotFound404? || r.Error500?
    ensures r.NotFound404? <==>
              conversationId.Some? && conversationId.value.Id? && FindOwned(cs, conversationId.value.id, user).None?
    ensures r.NotFound404? ==> cs' == cs && ms' == ms
    ensures conversationId.Some? ==> cs' == cs && (r.Ok? ==> r.value.newConversation.None?)
    ensures conversationId.None? ==>
              (cs' == cs <==> !Required(message)) &&
              (cs' != cs ==> |cs'| == |cs| + 1 && cs'[..|cs|] == cs && cs'[|cs|].userId == user &&
                             cs'[|cs|].title == Title(message.value)) &&
              (r.Ok? ==> r.value.newConversation == Some(cs'[|cs|]))
    ensures !Required(message) ==> ms' == ms && !r.Ok?
    ensures |ms| <= |ms'| <= |ms| + 2 && ms'[..|ms|] == ms
    ensures r.Ok? <==> |ms'| == |ms| + 2
    ensures r.Ok? ==> r.value.assistantMessage == Reply(Assistant, answer.text) && answer.Answer? &&
                      ms'[|ms| + 1].role == Assistant && ms'[|ms| + 1].content == r.value.assistantMessage.content &&
                      ms'[|ms|].role == User && ms'[|ms|].content == message.value
  {
    assert ms + [] == ms;
    assert (ms + [Message(0, 0, User, "", 0, 0)])[..|ms|] == ms;
    var res := Resolve(cs, user, message, conversationId, clock);
    if res.Existing? || res.Created? {
      if Required(message) {
        var t := if res.Created? then clock + 1 else clock;
        var u := Message(t, res.conv.id, User, message.value, t, t);
        assert (ms + [u])[..|ms|] == ms;
        if answer.Answer? {
          var a := Message(t + 1, res.conv.id, Assistant, answer.text, t + 1, t + 1);
          assert (ms + [u, a])[..|ms|] == ms;
        }
      }
    }
    if res.Created? {
      assert (cs + [res.conv])[..|cs|] == cs;
    }
  }

  /** The messages a settled turn saves go to the end of its conversation's transcript. */
  lemma TurnWritesExtendTranscript(cs: seq<Conversation>, ms: seq<Message>, t: nat, c: Conversation,
                                   newConversation: Option<Conversation>, message: Option<string>, answer: Answer,
                                   r: Response<TurnReply>, ms': seq<Message>, clock': nat)
    requires Consistent(cs, ms, t) && OwnerOf(cs, c.id).Some?
    requires TurnWrites(c, newConversation, ms, t, message, answer, r, ms', clock')
    ensures |ms| <= |ms'| && Transcript(ms', c.id) == Transcript(ms, c.id) + ms'[|ms|..]
  {
    TurnWritesKeepConsistency(cs, ms, t, c, newConversation, message, answer, r, ms', clock');
    TurnWritesAppend(c, newConversation, ms, t, message, answer, r, ms', clock');
    TranscriptAppend(cs, ms, t, c.id, ms'[|ms|..], clock');
  }

  /** A settled turn only appends to the message store, and only messages of its own conversation. */
  lemma TurnWritesAppend(c: Conversation, newConversation: Option<Conversation>, ms: seq<Message>, t: nat,
                         message: Option<string>, answer: Answer, r: Response<TurnReply>, ms': seq<Message>, clock': nat)
    requires TurnWrites(c, newConversation, ms, t, message, answer, r, ms', clock')
    ensures |ms| <= |ms'| && ms' == ms + ms'[|ms|..]
    ensures forall k :: |ms| <= k < |ms'| ==> ms'[k].conversationId == c.id
  {
  }

  /**
   * Whatever a turn saves goes to the end of the resolved conversation's transcript, in the
   * order saved: the user message, then (on success only) the assistant message. A failed
   * answering service therefore leaves the question in the transcript with no reply.
   */
  lemma TurnTranscript(cs: seq<Conversation>, ms: seq<Message>, clock: nat, user: UserId,
                       message: Option<string>, conversationId: Option<IdText>, answer: Answer,
                       r: Response<TurnReply>, cs': seq<Conversation>, ms': seq<Message>, clock': nat)
    requires Consistent(cs, ms, clock)
    requires TurnSettled(cs, ms, clock, user, message, conversationId, answer, r, cs', ms', clock')
    requires Resolve(cs, user, message, conversationId, clock).Existing? ||
             Resolve(cs, user, message, conversationId, clock).Created?
    ensures |ms| <= |ms'|
    ensures var c := Resolve(cs, user, message, conversationId, clock).conv;
            Transcript(ms', c.id) == Transcript(ms, c.id) + ms'[|ms|..]
    ensures Required(message) && !r.Ok? ==>
              r.Error500? && |ms'| == |ms| + 1 && ms'[|ms|].role == User && ms'[|ms|].content == message.value
  {
    match Resolve(cs, user, message, conversationId, clock)
    case Existing(c) =>
      OwnerOfMember(cs, c);
      TurnWritesExtendTranscript(cs, ms, clock, c, None, message, answer, r, ms', clock');
    case Created(c) =>
      ConsistentAddConversation(cs, ms, clock, c);
      OwnerOfMember(cs + [c], c);
      TurnWritesExtendTranscript(cs + [c], ms, clock + 1, c, Some(c), message, answer, r, ms', clock');
  }

  /**
   * A conversation created by a successful turn holds exactly that turn's two messages, and
   * heads its owner's conversation list.
   */
  lemma NewConversationTranscript(cs: seq<Conversation>, ms: seq<Message>, clock: nat, user: UserId,
                                  message: Option<string>, answer: Answer,
                                  r: Response<TurnReply>, cs': seq<Conversation>, ms': seq<Message>, clock': nat)
    requires Consistent(cs, ms, clock)
    requires TurnSettled(cs, ms, clock, user, message, None, answer, r, cs', ms', clock')
    requires r.Ok?
    ensures r.value.newConversation.Some?
    ensures var c := r.value.newConversation.value;
            && c.userId == user
            && |ms'| == |ms| + 2
            && Transcript(ms', c.id) == ms'[|ms|..]
            && ConversationList(cs', user) == [c] + ConversationList(cs, user)
  {
    var c := Resolve(cs, user, message, None, clock).conv;
    TranscriptOfUnknownId(cs, ms, clock, c.id);
    TurnTranscript(cs, ms, clock, user, message, None, answer, r, cs', ms', clock');
    ConversationListAfterCreate(cs, c, user);
  }

  // ---------------------------------------------------------------------------------------
  // The database and the handlers
  // ---------------------------------------------------------------------------------------

  class Store {
    /** The `conversations` collection, in insertion order. */
    var conversations: seq<Conversation>
    /** The `messages` collection, in insertion order. */
    var messages: seq<Message>
    /** The next clock value: the `_id` and the timestamps of the next saved record. */
    var clock: nat

    ghost predicate Valid()
      reads this
    {
      Consistent(conversations, messages, clock)
    }

    constructor ()
      ensures Valid() && conversations == [] && messages == [] && clock == 0
    {
      conversations, messages, clock := [], [], 0;
    }

    /** `GET /conversations` behind `auth`. Reads only. */
    method GetConversations(authorization: Option<string>, verify: Verifier) returns (r: Response<seq<Conversation>>)
      ensures r.Auth401? <==> Authenticate(authorization, verify).None?
      ensures r.Ok? <==> Authenticate(authorization, verify).Some?
      ensures r.Ok? ==> r.value == ConversationList(conversations, Authenticate(authorization, verify).value)
    {
      var caller := Authenticate(authorization, verify);
      if caller.None? {
        return Auth401;
      }
      r := Ok(ConversationList(conversations, caller.value));
    }

    /** `GET /messages/:conversationId` behind `auth`. Reads only. */
    method GetMessages(authorization: Option<string>, verify: Verifier, conversationId: IdText) returns (r: Response<seq<Message>>)
      ensures r.Auth401? <==> Authenticate(authorization, verify).None?
      ensures Authenticate(authorization, verify).Some? && conversationId.Malformed? ==> r.Error500?
      ensures r.NotFound404? <==>
                Authenticate(authorization, verify).Some? && conversationId.Id? &&
                FindOwned(conversations, conversationId.id, Authenticate(authorization, verify).value).None?
      ensures r.Ok? <==>
                Authenticate(authorization, verify).Some? && conversationId.Id? &&
                FindOwned(conversations, conversationId.id, Authenticate(authorization, verify).value).Some?
      ensures r.Ok? ==> r.value == Transcript(messages, conversationId.id)
    {
      var caller := Authenticate(authorization, verify);
      if caller.None? {
        return Auth401;
      }
      match conversationId {
        case Malformed =>
          r := Error500;
        case Id(id) =>
          var conversation := FindOwned(conversations, id, caller.value);
          if conversation.None? {
            return NotFound404;
          }
          r := Ok(Transcript(messages, id));
      }
    }

    /** `POST /new` behind `auth`: a caller the middleware refuses gets 401 and the turn never runs. */
    method PostNew(authorization: Option<string>, verify: Verifier, message: Option<string>,
                   conversationId: Option<IdText>, answer: Answer) returns (r: Response<TurnReply>)
      requires Valid()
      modifies this
      ensures Valid()
      ensures Authenticate(authorization, verify).None? ==> r == Auth401 && unchanged(this)
      ensures Authenticate(authorization, verify).Some? ==>
                TurnSettled(old(conversations), old(messages), old(clock), Authenticate(authorization, verify).value,
                            message, conversationId, answer, r, conversations, messages, clock)
    {
      var caller := Authenticate(authorization, verify);
      if caller.None? {
        return Auth401;
      }
      r := SubmitTurn(caller.value, message, conversationId, answer);
    }

    /**
     * The body of `POST /new` for an authenticated caller: settle the conversation (saving a
     * new one first), then save the turn's messages. Each early `return` is the 404 or a
     * thrown error.
     */
    method SubmitTurn(user: UserId, message: Option<string>, conversationId: Option<IdText>, answer: Answer)
      returns (r: Response<TurnReply>)
      requires Valid()
      modifies this
      ensures Valid()
      ensures TurnSettled(old(conversations), old(messages), old(clock), user, message, conversationId, answer,
                          r, conversations, messages, clock)
    {
      ghost var cs0, ms0, t0 := conversations, messages, clock;
      match Resolve(conversations, user, message, conversationId, clock) {
        case Missing =>
          return NotFound404;
        case Crashed =>
          return Error500;
        case Existing(conversation) =>
          OwnerOfMember(conversations, conversation);
          r := SaveTurn(conversation, None, message, answer);
          SettledByWrites(cs0, ms0, t0, user, message, conversationId, answer, r, conversations, messages, clock);
        case Created(conversation) =>
          SaveConversation(conversation);
          r := SaveTurn(conversation, Some(conversation), message, answer);
          SettledByWrites(cs0, ms0, t0, user, message, conversationId, answer, r, conversations, messages, clock);
      }
    }

    /** `await conversation.save()` for a record built at the current clock value. */
    method SaveConversation(c: Conversation)
      requires Valid() && ValidConversation(c) && c.id == clock && c.createdAt == c.updatedAt == clock
      modifies this
      ensures Valid() && OwnerOf(conversations, c.id).Some?
      ensures conversations == old(conversations) + [c] && messages == old(messages) && clock == old(clock) + 1
    {
      ConsistentAddConversation(conversations, messages, clock, c);
      conversations, clock := conversations + [c], clock + 1;
      assert Consistent(conversations, messages, clock);
    }

    /** `Message.save()`: a validated message record with the current time goes to the end of the store. */
    method SaveMessage(m: Message)
      requires Valid() && ValidMessage(m) && m.id == clock && m.createdAt == m.updatedAt == clock
      requires OwnerOf(conversations, m.conversationId).Some?
      modifies this
      ensures Valid() && conversations == old(conversations)
      ensures messages == old(messages) + [m] && clock == old(clock) + 1
    {
      ConsistentAddMessage(conversations, messages, clock, m);
      messages, clock := messages + [m], clock + 1;
      assert Consistent(conversations, messages, clock);
    }

    /**
     * Lines 67-82: save the user message, ask the answering service, save its answer as the
     * assistant message, and build the reply. A failure at any step stops there; what was
     * saved stays saved.
     */
    method SaveTurn(conversation: Conversation, newConversation: Option<Conversation>, message: Option<string>, answer: Answer)
      returns (r: Response<TurnReply>)
      requires Valid() && OwnerOf(conversations, conversation.id).Some?
      modifies this
      ensures Valid() && conversations == old(conversations)
      ensures TurnWrites(conversation, newConversation, old(messages), old(clock), message, answer, r, messages, clock)
    {
      var userMessage := NewMessageRecord(clock, conversation.id, User, message, clock);
      if userMessage.None? {
        return Error500;
      }
      var u := userMessage.value;
      SaveMessage(u);
      if answer.Fail? {
        return Error500;
      }
      var assistantMessage := NewMessageRecord(clock, conversation.id, Assistant, Some(answer.text), clock);
      if assistantMessage.None? {
        return Error500;
      }
      var a := assistantMessage.value;
      SaveMessage(a);
      assert messages == old(messages) + [u, a];
      r := Ok(TurnReply(Reply(Assistant, answer.text), newConversation));
    }
  }
}
