/**
 * The chat page's client state and its transitions: the five state hooks, the send handler
 * with its optimistic append, the new-chat button, the sidebar selection, and the two fetch
 * effects. Each asynchronous step is its own event: `SendStart` is the handler up to its
 * `await`, `SendSuccess`/`SendFailure` the rest, and `FetchMessagesDone`/
 * `FetchConversationsDone` the arrival of a fetch's result, whenever that happens.
 */
module ChatClient {
  import opened Wrappers
  import opened Records
  import opened ChatRoutes

  // ---------------------------------------------------------------------------------------
  // `input.trim()`
  // ---------------------------------------------------------------------------------------

  /** The characters JavaScript's `trim` removes: WhiteSpace and LineTerminator. */
  predicate IsJsSpace(c: char)
  {
    || c == '\t' || c == '\n' || c == '\U{000B}' || c == '\U{000C}' || c == '\r' || c == ' '
    || c == '\U{00A0}' || c == '\U{1680}' || ('\U{2000}' <= c <= '\U{200A}')
    || c == '\U{2028}' || c == '\U{2029}' || c == '\U{202F}' || c == '\U{205F}' || c == '\U{3000}'
    || c == '\U{FEFF}'
  }

  /** `s` without its leading white space. */
  function TrimStart(s: string): (r: string)
    ensures |r| <= |s| && r == s[|s| - |r|..]
    ensures forall k :: 0 <= k < |s| - |r| ==> IsJsSpace(s[k])
    ensures r != [] ==> !IsJsSpace(r[0])
  {
    if s != [] && IsJsSpace(s[0]) then TrimStart(s[1..]) else s
  }

  /** `s` without its trailing white space. */
  function TrimEnd(s: string): (r: string)
    ensures |r| <= |s| && r == s[..|r|]
    ensures forall k :: |r| <= k < |s| ==> IsJsSpace(s[k])
    ensures r != [] ==> !IsJsSpace(r[|r| - 1])
  {
    if s != [] && IsJsSpace(s[|s| - 1]) then TrimEnd(s[..|s| - 1]) else s
  }

  /** `String.prototype.trim`: empty exactly when every character is white space. */
  function Trim(s: string): (r: string)
    ensures r == [] <==> forall k :: 0 <= k < |s| ==> IsJsSpace(s[k])
    ensures r != [] ==> !IsJsSpace(r[0]) && !IsJsSpace(r[|r| - 1])
  {
    TrimEnd(TrimStart(s))
  }

  /**
   * `trim` keeps a slice of its argument and drops only white space around it; with the
   * non-space ends of a non-empty result, this fixes the result.
   */
  lemma TrimIsSlice(s: string)
    ensures exists i, j :: 0 <= i <= j <= |s| && Trim(s) == s[i..j] &&
              (forall k :: 0 <= k < i ==> IsJsSpace(s[k])) && (forall k :: j <= k < |s| ==> IsJsSpace(s[k]))
  {
    var start := TrimStart(s);
    var i := |s| - |start|;
    assert Trim(s) == s[i..i + |Trim(s)|];
  }

  /** The guard of `handleSend`: `!input.trim() || isLoading` stops it. */
  function CanSend(input: string, isLoading: bool): (ok: bool)
    ensures ok <==> !isLoading && exists k :: 0 <= k < |input| && !IsJsSpace(input[k])
  {
    !isLoading && Trim(input) != []
  }

  // ---------------------------------------------------------------------------------------
  // Page state
  // ---------------------------------------------------------------------------------------

  /**
   * An element of `messages`: an object the page built itself (`{ role, content }`, the
   * optimistic user message or the reply's `assistantMessage`), or a record a messages fetch
   * returned.
   */
  datatype Entry = Local(role: Role, content: string) | Fetched(record: Message)

  /** `setMessages(res.data)`: the server's list, element by element. */
  function AsEntries(ms: seq<Message>): (es: seq<Entry>)
    ensures |es| == |ms|
    ensures forall k :: 0 <= k < |ms| ==> es[k] == Fetched(ms[k])
  {
    if ms == [] then [] else [Fetched(ms[0])] + AsEntries(ms[1..])
  }

  /** The body `handleSend` posts: the input as typed and the selection as it was. */
  datatype TurnRequest = TurnRequest(message: string, conversationId: Option<ConvId>)

  /** The body's `conversationId` as the route reads it: `null` is falsy, an `_id` is not. */
  function RequestedId(id: Option<ConvId>): Option<IdText>
  {
    match id
    case None => None
    case Some(i) => Some(Id(i))
  }

  class ChatPage {
    var conversations: seq<Conversation>
    var activeConversationId: Option<ConvId>
    var messages: seq<Entry>
    var input: string
    var isLoading: bool

    /** The initial values of the five state hooks. */
    constructor ()
      ensures conversations == [] && activeConversationId == None && messages == [] && input == [] && !isLoading
    {
      conversations, activeConversationId, messages, input, isLoading := [], None, [], [], false;
    }

    /** The text box's `onChange`; the box is disabled while a send is loading. */
    method Type(text: string)
      requires !isLoading
      modifies this`input
      ensures input == text
    {
      input := text;
    }

    /**
     * `setActiveConversationId(id)` followed by the messages effect, which runs only when the
     * value changed: a null selection clears the transcript, any other starts a fetch of that
     * conversation's messages (returned in `fetch`; its result arrives as `FetchMessagesDone`).
     */
    method Activate(id: Option<ConvId>) returns (fetch: Option<ConvId>)
      modifies this`activeConversationId, this`messages
      ensures activeConversationId == id
      ensures fetch == (if id != old(activeConversationId) && id.Some? then id else None)
      ensures messages == (if id != old(activeConversationId) && id.None? then [] else old(messages))
    {
      var changed := id != activeConversationId;
      activeConversationId := id;
      fetch := None;
      if changed {
        if id.None? {
          messages := [];
        } else {
          fetch := id;
        }
      }
    }

    /** A click on a conversation in the sidebar. */
    method Select(id: ConvId) returns (fetch: Option<ConvId>)
      modifies this`activeConversationId, this`messages
      ensures activeConversationId == Some(id)
      ensures fetch == (if old(activeConversationId) == Some(id) then None else Some(id))
      ensures messages == old(messages)
    {
      fetch := Activate(Some(id));
    }

    /** `handleNewChat`: no selection and an empty transcript; nothing is fetched. */
    method NewChat()
      modifies this`activeConversationId, this`messages
      ensures activeConversationId == None && messages == []
    {
      var fetch := Activate(None);
      messages := [];
    }

    /**
     * `handleSend` up to its request: refused while loading or when the input is blank;
     * otherwise it appends the untrimmed input as a user message, clears the input, starts
     * loading, and posts the input and the current selection.
     */
    method SendStart() returns (request: Option<TurnRequest>)
      modifies this`messages, this`input, this`isLoading
      ensures !CanSend(old(input), old(isLoading)) ==>
                request.None? && messages == old(messages) && input == old(input) && isLoading == old(isLoading)
      ensures CanSend(old(input), old(isLoading)) ==>
                && request == Some(TurnRequest(old(input), activeConversationId))
                && messages == old(messages) + [Local(User, old(input))]
                && input == [] && isLoading
    {
      if !CanSend(input, isLoading) {
        return None;
      }
      request := Some(TurnRequest(input, activeConversationId));
      messages := messages + [Local(User, input)];
      input := [];
      isLoading := true;
    }

    /**
     * The post's success: the reply's assistant message is appended to whatever `messages`
     * holds now; a new conversation goes to the head of the list and becomes the selection
     * (which starts its messages fetch); loading ends.
     */
    method SendSuccess(reply: TurnReply) returns (fetch: Option<ConvId>)
      modifies this`messages, this`conversations, this`activeConversationId, this`isLoading
      ensures messages == old(messages) + [Local(reply.assistantMessage.role, reply.assistantMessage.content)]
      ensures !isLoading && input == old(input)
      ensures reply.newConversation.None? ==>
                conversations == old(conversations) && activeConversationId == old(activeConversationId) && fetch.None?
      ensures reply.newConversation.Some? ==>
                var c := reply.newConversation.value;
                && conversations == [c] + old(conversations)
                && activeConversationId == Some(c.id)
                && fetch == (if old(activeConversationId) == Some(c.id) then None else Some(c.id))
    {
      messages := messages + [Local(reply.assistantMessage.role, reply.assistantMessage.content)];
      fetch := None;
      if reply.newConversation.Some? {
        var c := reply.newConversation.value;
        conversations := [c] + conversations;
        fetch := Activate(Some(c.id));
      }
      isLoading := false;
    }

    /** The post's failure: it is only logged, and loading ends. The optimistic message stays. */
    method SendFailure()
      modifies this`isLoading
      ensures !isLoading
      ensures messages == old(messages) && conversations == old(conversations)
      ensures activeConversationId == old(activeConversationId) && input == old(input)
    {
      isLoading := false;
    }

    /**
     * A messages fetch settles: its list (or, on error, nothing) replaces the transcript,
     * whichever conversation it was started for and whatever is selected now.
     */
    method FetchMessagesDone(result: Option<seq<Message>>)
      modifies this`messages
      ensures messages == if result.Some? then AsEntries(result.value) else []
    {
      if result.Some? {
        messages := AsEntries(result.value);
      } else {
        messages := [];
      }
    }

    /** A conversations fetch settles: a list replaces the sidebar; an error leaves it as it was. */
    method FetchConversationsDone(result: Option<seq<Conversation>>)
      modifies this`conversations
      ensures conversations == if result.Some? then result.value else old(conversations)
    {
      if result.Some? {
        conversations := result.value;
      }
    }
  }
}
