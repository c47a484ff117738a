/**
 * Whole sessions across the page and the server, each a sequence of the events the page
 * and the routes model: what the page shows after a first turn, how a late messages fetch
 * overwrites the selected transcript, and what a failed turn leaves behind.
 */
module Session {
  import opened Wrappers
  import opened Records
  import opened ChatRoutes
  import opened ChatClient

  /**
   * The first turn of a new chat, against a server whose turn settles as `Store.PostNew`
   * promises on the body the page posts (`cs`, `ms`, `clock` before; `r`, `cs'`, `ms'`,
   * `clock'` after) and whose messages route lists `Transcript`: the user types and sends, the
   * reply arrives, the page selects the new conversation and loads its messages. The page then
   * shows exactly the question and the answer, as the server stores them, and the new
   * conversation heads the sidebar.
   */
  method FirstTurn(page: ChatPage, cs: seq<Conversation>, ms: seq<Message>, clock: nat, user: UserId,
                   text: string, answer: string,
                   r: Response<TurnReply>, cs': seq<Conversation>, ms': seq<Message>, clock': nat)
    returns (request: TurnRequest, c: Conversation)
    requires Consistent(cs, ms, clock)
    requires TurnSettled(cs, ms, clock, user, Some(text), RequestedId(page.activeConversationId),
                         Answer(answer), r, cs', ms', clock')
    requires page.activeConversationId.None? && !page.isLoading
    requires Visible(text) && |answer| > 0
    modifies page
    ensures request == TurnRequest(text, old(page.activeConversationId))
    ensures c.userId == user && c.title == Title(text) && c.id == clock
    ensures page.conversations == [c] + old(page.conversations) && page.activeConversationId == Some(c.id)
    ensures Transcript(ms', c.id) == FirstExchange(c.id, text, answer)
    ensures page.messages == AsEntries(Transcript(ms', c.id))
    ensures page.input == [] && !page.isLoading
  {
    FirstTurnOnServer(cs, ms, clock, user, text, answer, r, cs', ms', clock');
    c := r.value.newConversation.value;
    var fetch;
    request, fetch := ShowFirstTurn(page, text, r.value, Transcript(ms', c.id));
  }

  /**
   * The page's side of a first turn: it sends `text` (posting `request`), takes `reply`, which
   * carries the new conversation, and shows `listed`, the list the messages fetch returns for it.
   */
  method ShowFirstTurn(page: ChatPage, text: string, reply: TurnReply, listed: seq<Message>)
    returns (request: TurnRequest, fetch: Option<ConvId>)
    requires page.activeConversationId.None? && !page.isLoading
    requires Visible(text) && reply.newConversation.Some?
    modifies page
    ensures request == TurnRequest(text, None)
    ensures fetch == Some(reply.newConversation.value.id)
    ensures page.conversations == [reply.newConversation.value] + old(page.conversations)
    ensures page.activeConversationId == Some(reply.newConversation.value.id)
    ensures page.messages == AsEntries(listed)
    ensures page.input == [] && !page.isLoading
  {
    request := TypeAndSend(page, text);
    fetch := page.SendSuccess(reply);
    page.FetchMessagesDone(Some(listed));
  }

  /** `text` has a character other than white space. */
  predicate Visible(text: string)
  {
    exists k :: 0 <= k < |text| && !IsJsSpace(text[k])
  }

  /** Typing a text that is not blank and sending it, in a page that is not loading. */
  method TypeAndSend(page: ChatPage, text: string) returns (request: TurnRequest)
    requires Visible(text) && !page.isLoading
    modifies page`input, page`messages, page`isLoading
    ensures request == TurnRequest(text, page.activeConversationId)
    ensures page.messages == old(page.messages) + [Local(User, text)]
    ensures page.input == [] && page.isLoading
  {
    page.Type(text);
    var sent := page.SendStart();
    request := sent.value;
  }

  /** The page's header, `Bearer <token>`, authenticates the token's user. */
  lemma BearerAuthenticates(token: string, verify: Verifier, user: UserId)
    requires ' ' !in token && token in verify && verify[token] == user
    ensures Authenticate(Some("Bearer " + token), verify) == Some(user)
  {
    BearerTokenOfHeader("Bearer", token);
    assert "Bearer " + token == "Bearer" + " " + token;
  }

  /**
   * On the server, a first turn with a non-empty message and answer succeeds, returns the
   * conversation it created for the caller, and that conversation holds the question and
   * the answer.
   */
  lemma FirstTurnOnServer(cs: seq<Conversation>, ms: seq<Message>, clock: nat, user: UserId, text: string,
                          answer: string, r: Response<TurnReply>, cs': seq<Conversation>, ms': seq<Message>, clock': nat)
    requires Consistent(cs, ms, clock) && |text| > 0 && |answer| > 0
    requires TurnSettled(cs, ms, clock, user, Some(text), None, Answer(answer), r, cs', ms', clock')
    ensures r.Ok? && r.value.newConversation.Some?
    ensures var c := r.value.newConversation.value;
            && c.userId == user && c.title == Title(text)
            && FindOwned(cs', c.id, user).Some?
            && c.id == clock && Transcript(ms', c.id) == FirstExchange(c.id, text, answer)
  {
    var c := Resolve(cs, user, Some(text), None, clock).conv;
    var exchange := FirstExchange(c.id, text, answer);
    assert cs' == cs + [c] && ms' == ms + exchange;
    assert r == Ok(TurnReply(Reply(Assistant, answer), Some(c)));
    NewConversationTranscript(cs, ms, clock, user, Some(text), Answer(answer), r, cs', ms', clock');
    assert ms'[|ms|..] == exchange;
    assert c in cs';
  }

  /**
   * A first turn whose answering service fails still creates the conversation and saves the
   * question in it, and it heads the caller's list; the error reply does not name it.
   */
  lemma FailedFirstTurn(cs: seq<Conversation>, ms: seq<Message>, clock: nat, user: UserId, text: string,
                        r: Response<TurnReply>, cs': seq<Conversation>, ms': seq<Message>, clock': nat)
    requires Consistent(cs, ms, clock) && |text| > 0
    requires TurnSettled(cs, ms, clock, user, Some(text), None, Fail, r, cs', ms', clock')
    ensures r.Error500?
    ensures cs' == cs + [Conversation(clock, user, Title(text), clock, clock)]
    ensures Transcript(ms', clock) == [Message(clock + 1, clock, User, text, clock + 1, clock + 1)]
    ensures ConversationList(cs', user) == [cs'[|cs|]] + ConversationList(cs, user)
  {
    var c := Resolve(cs, user, Some(text), None, clock).conv;
    TranscriptOfUnknownId(cs, ms, clock, c.id);
    TurnTranscript(cs, ms, clock, user, Some(text), None, Fail, r, cs', ms', clock');
    ConversationListAfterCreate(cs, c, user);
  }

  /** The two records a new conversation's first answered turn saves: question, then answer. */
  function FirstExchange(id: ConvId, text: string, answer: string): seq<Message>
  {
    [Message(id + 1, id, User, text, id + 1, id + 1), Message(id + 2, id, Assistant, answer, id + 2, id + 2)]
  }

  /**
   * Two selections in quick succession whose fetches settle in the opposite order: the page
   * ends up with `b` selected but showing the messages fetched for `a`.
   */
  method StaleFetch(page: ChatPage, a: ConvId, b: ConvId, forA: seq<Message>, forB: seq<Message>)
    requires a != b && page.activeConversationId != Some(a)
    modifies page
    ensures page.activeConversationId == Some(b)
    ensures page.messages == AsEntries(forA)
  {
    var fetchA := page.Select(a);
    assert fetchA == Some(a);
    var fetchB := page.Select(b);
    assert fetchB == Some(b);
    page.FetchMessagesDone(Some(forB));
    page.FetchMessagesDone(Some(forA));
  }

  /**
   * A turn whose answering service fails, then a second turn in the same conversation that
   * succeeds: the stored transcript gains both questions and only the second answer, so two
   * user messages follow each other.
   */
  method FailedTurnThenRetry(store: Store, user: UserId, id: ConvId, first: string, second: string, answer: string)
    requires store.Valid() && FindOwned(store.conversations, id, user).Some?
    requires |first| > 0 && |second| > 0 && |answer| > 0
    modifies store
    ensures store.Valid() && store.conversations == old(store.conversations)
    ensures Transcript(old(store.messages), id) <= Transcript(store.messages, id)
    ensures var added := Transcript(store.messages, id)[|Transcript(old(store.messages), id)|..];
            && |added| == 3
            && added[0].role == User && added[0].content == first
            && added[1].role == User && added[1].content == second
            && added[2].role == Assistant && added[2].content == answer
  {
    ghost var cs0, ms0, clock0 := store.conversations, store.messages, store.clock;
    var failed := store.SubmitTurn(user, Some(first), Some(Id(id)), Fail);
    ghost var cs1, ms1, clock1 := store.conversations, store.messages, store.clock;
    var answered := store.SubmitTurn(user, Some(second), Some(Id(id)), Answer(answer));
    RetryTranscript(cs0, ms0, clock0, user, id, first, second, answer, failed, cs1, ms1, clock1,
                    answered, store.conversations, store.messages, store.clock);
  }

  /** The two turns of `FailedTurnThenRetry`, on the store's contents. */
  lemma RetryTranscript(cs: seq<Conversation>, ms: seq<Message>, clock: nat, user: UserId, id: ConvId,
                        first: string, second: string, answer: string,
                        r1: Response<TurnReply>, cs1: seq<Conversation>, ms1: seq<Message>, clock1: nat,
                        r2: Response<TurnReply>, cs2: seq<Conversation>, ms2: seq<Message>, clock2: nat)
    requires Consistent(cs, ms, clock) && FindOwned(cs, id, user).Some?
    requires |first| > 0 && |second| > 0 && |answer| > 0
    requires TurnSettled(cs, ms, clock, user, Some(first), Some(Id(id)), Fail, r1, cs1, ms1, clock1)
    requires TurnSettled(cs1, ms1, clock1, user, Some(second), Some(Id(id)), Answer(answer), r2, cs2, ms2, clock2)
    ensures r1.Error500? && r2.Ok? && cs2 == cs
    ensures Transcript(ms, id) <= Transcript(ms2, id)
    ensures var added := Transcript(ms2, id)[|Transcript(ms, id)|..];
            && |added| == 3
            && added[0].role == User && added[0].content == first
            && added[1].role == User && added[1].content == second
            && added[2].role == Assistant && added[2].content == answer
  {
    var u1 := Message(clock, id, User, first, clock, clock);
    var u2 := Message(clock + 1, id, User, second, clock + 1, clock + 1);
    var a2 := Message(clock + 2, id, Assistant, answer, clock + 2, clock + 2);
    ExistingTurn(cs, ms, clock, user, id, first, Fail, r1, cs1, ms1, clock1);
    ExistingTurn(cs, ms1, clock + 1, user, id, second, Answer(answer), r2, cs2, ms2, clock2);
    AppendThree(ms, u1, u2, a2);
    ThreeAppended(cs, ms, clock, id, [u1, u2, a2], ms2, clock2);
  }

  /** Three messages of one conversation appended to a consistent store are the three newest of its transcript. */
  lemma ThreeAppended(cs: seq<Conversation>, ms: seq<Message>, clock: nat, id: ConvId,
                      more: seq<Message>, ms': seq<Message>, clock': nat)
    requires Consistent(cs, ms, clock) && Consistent(cs, ms', clock') && ms' == ms + more
    requires forall k :: 0 <= k < |more| ==> more[k].conversationId == id
    ensures Transcript(ms, id) <= Transcript(ms', id)
    ensures Transcript(ms', id)[|Transcript(ms, id)|..] == more
  {
    TranscriptAppend(cs, ms, clock, id, more, clock');
  }

  lemma AppendThree<T>(s: seq<T>, x: T, y: T, z: T)
    ensures s + [x] + [y, z] == s + [x, y, z]
  {
  }

  /**
   * A turn in a conversation the caller owns saves its question as the next record and, when
   * answered, the answer after it.
   */
  lemma ExistingTurn(cs: seq<Conversation>, ms: seq<Message>, clock: nat, user: UserId, id: ConvId,
                     text: string, answer: Answer,
                     r: Response<TurnReply>, cs': seq<Conversation>, ms': seq<Message>, clock': nat)
    requires Consistent(cs, ms, clock) && FindOwned(cs, id, user).Some? && |text| > 0
    requires TurnSettled(cs, ms, clock, user, Some(text), Some(Id(id)), answer, r, cs', ms', clock')
    ensures Consistent(cs', ms', clock') && cs' == cs
    ensures var u := Message(clock, id, User, text, clock, clock);
            if answer.Answer? && |answer.text| > 0 then
              var a := Message(clock + 1, id, Assistant, answer.text, clock + 1, clock + 1);
              r.Ok? && ms' == ms + [u, a] && clock' == clock + 2
            else
              r.Error500? && ms' == ms + [u] && clock' == clock + 1
  {
    TurnPreservesConsistency(cs, ms, clock, user, Some(text), Some(Id(id)), answer, r, cs', ms', clock');
  }

  // ---------------------------------------------------------------------------------------
  // A run of answered turns
  // ---------------------------------------------------------------------------------------

  /** The store's contents between two requests. */
  datatype StoreState = StoreState(cs: seq<Conversation>, ms: seq<Message>, clock: nat)

  /** One `POST /new` by the caller: its body, the answering service's outcome, and the reply. */
  datatype Turn = Turn(message: Option<string>, conversationId: Option<IdText>, answer: Answer, reply: Response<TurnReply>)

  /** `turns` run one after another from `states[0]`, turn `k` taking `states[k]` to `states[k + 1]`. */
  predicate Run(states: seq<StoreState>, user: UserId, turns: seq<Turn>)
  {
    && |states| == |turns| + 1
    && forall k :: 0 <= k < |turns| ==> StepSettled(states, user, turns, k)
  }

  /** Turn `k` of a run settles from `states[k]` to `states[k + 1]`. */
  predicate StepSettled(states: seq<StoreState>, user: UserId, turns: seq<Turn>, k: nat)
    requires |states| == |turns| + 1 && k < |turns|
  {
    TurnSettled(states[k].cs, states[k].ms, states[k].clock, user, turns[k].message, turns[k].conversationId,
                turns[k].answer, turns[k].reply, states[k + 1].cs, states[k + 1].ms, states[k + 1].clock)
  }

  /** A transcript of question and answer pairs: user, assistant, user, assistant, ... */
  predicate Alternating(t: seq<Message>)
  {
    && |t| % 2 == 0
    && forall k :: 0 <= k < |t| ==> t[k].role == (if k % 2 == 0 then User else Assistant)
  }

  /**
   * A chat from a consistent store whose every turn is answered: the first turn creates
   * conversation `c`, and every later one posts to it.
   */
  predicate AnsweredChat(states: seq<StoreState>, user: UserId, turns: seq<Turn>, c: Conversation)
  {
    && Run(states, user, turns) && |turns| > 0
    && Consistent(states[0].cs, states[0].ms, states[0].clock)
    && AllAnswered(turns)
    && Opens(turns[0], c)
    && StaysIn(turns, c)
  }

  /** Every turn's reply is a success. */
  predicate AllAnswered(turns: seq<Turn>)
  {
    forall k :: 0 <= k < |turns| ==> turns[k].reply.Ok?
  }

  /** The turn posts without a conversation and its reply names the new conversation `c`. */
  predicate Opens(t: Turn, c: Conversation)
  {
    t.conversationId.None? && t.reply.Ok? && t.reply.value.newConversation == Some(c)
  }

  /** Every turn after the first posts to `c`. */
  predicate StaysIn(turns: seq<Turn>, c: Conversation)
  {
    forall k :: 1 <= k < |turns| ==> turns[k].conversationId == Some(Id(c.id))
  }

  /** The store is consistent and the user owns `c`. */
  predicate Owned(s: StoreState, user: UserId, c: Conversation)
  {
    Consistent(s.cs, s.ms, s.clock) && FindOwned(s.cs, c.id, user).Some?
  }

  /**
   * In an answered chat the transcript of the conversation it creates holds two messages per
   * turn, alternating user and assistant, starting with the user.
   */
  lemma AnsweredTurnsAlternate(states: seq<StoreState>, user: UserId, turns: seq<Turn>, c: Conversation)
    requires AnsweredChat(states, user, turns, c)
    ensures Roles(Transcript(states[|turns|].ms, c.id)) == QuestionsAndAnswers(|turns|)
    ensures |Transcript(states[|turns|].ms, c.id)| == 2 * |turns|
    ensures Alternating(Transcript(states[|turns|].ms, c.id))
  {
    FirstStepOfRun(states, user, turns, c);
    forall k | 2 <= k <= |turns|
      ensures RolesGrow(states, c, k)
    {
      TranscriptStep(states, user, turns, c, k);
    }
    RolesPrefix(states, c, |turns|);
    RolesAlternate(Transcript(states[|turns|].ms, c.id), |turns|);
  }

  /** Turn `k - 1` adds one question and answer to the roles of the transcript of `c`. */
  predicate RolesGrow(states: seq<StoreState>, c: Conversation, k: nat)
    requires 1 <= k < |states|
  {
    Roles(Transcript(states[k - 1].ms, c.id)) == QuestionsAndAnswers(k - 1) ==>
    Roles(Transcript(states[k].ms, c.id)) == QuestionsAndAnswers(k)
  }

  /** One question and answer after the first turn, and one more per turn after it. */
  lemma {:induction false} RolesPrefix(states: seq<StoreState>, c: Conversation, n: nat)
    requires 1 <= n < |states|
    requires Roles(Transcript(states[1].ms, c.id)) == QuestionsAndAnswers(1)
    requires forall k :: 2 <= k <= n ==> RolesGrow(states, c, k)
    ensures Roles(Transcript(states[n].ms, c.id)) == QuestionsAndAnswers(n)
    decreases n
  {
    if n > 1 {
      RolesPrefix(states, c, n - 1);
      assert RolesGrow(states, c, n);
    }
  }

  /** Every state after the first turn is consistent and has `c` owned by the user. */
  lemma {:induction false} OwnedPrefix(states: seq<StoreState>, user: UserId, turns: seq<Turn>, c: Conversation, n: nat)
    requires AnsweredChat(states, user, turns, c)
    requires 1 <= n <= |turns|
    ensures Owned(states[n], user, c)
    decreases n
  {
    if n == 1 {
      FirstStepOfRun(states, user, turns, c);
    } else {
      OwnedPrefix(states, user, turns, c, n - 1);
      OwnedStep(states, user, turns, c, n);
    }
  }

  /** Turn `n - 1`, answered in the owned `c`, keeps it owned. */
  lemma OwnedStep(states: seq<StoreState>, user: UserId, turns: seq<Turn>, c: Conversation, n: nat)
    requires Run(states, user, turns) && 2 <= n <= |turns|
    requires turns[n - 1].reply.Ok? && turns[n - 1].conversationId == Some(Id(c.id))
    requires Owned(states[n - 1], user, c)
    ensures Owned(states[n], user, c)
  {
    StepOfRun(states, user, turns, n);
    var s, t, s' := states[n - 1], turns[n - 1], states[n];
    AnsweredTurn(s.cs, s.ms, s.clock, user, c.id, t.message, t.answer, t.reply, s'.cs, s'.ms, s'.clock);
  }

  /** Turn `n - 1` appends its question and answer to the transcript of `c`. */
  lemma TranscriptStep(states: seq<StoreState>, user: UserId, turns: seq<Turn>, c: Conversation, n: nat)
    requires AnsweredChat(states, user, turns, c)
    requires 2 <= n <= |turns|
    ensures RolesGrow(states, c, n)
  {
    OwnedPrefix(states, user, turns, c, n - 1);
    StepOfRun(states, user, turns, n);
    var s, t, s' := states[n - 1], turns[n - 1], states[n];
    AnsweredTurn(s.cs, s.ms, s.clock, user, c.id, t.message, t.answer, t.reply, s'.cs, s'.ms, s'.clock);
    RolesAppendPair(Transcript(s.ms, c.id), s'.ms[|s.ms|..]);
  }

  /** The first turn of the run creates `c`, holding the question then the answer. */
  lemma FirstStepOfRun(states: seq<StoreState>, user: UserId, turns: seq<Turn>, c: Conversation)
    requires AnsweredChat(states, user, turns, c)
    ensures Owned(states[1], user, c)
    ensures Roles(Transcript(states[1].ms, c.id)) == QuestionsAndAnswers(1)
  {
    StepOfRun(states, user, turns, 1);
    var s, t, s' := states[0], turns[0], states[1];
    CreatingTurn(s.cs, s.ms, s.clock, user, c, t.message, t.answer, t.reply, s'.cs, s'.ms, s'.clock);
    var pair := Transcript(s'.ms, c.id);
    RolesAppendPair([], pair);
    assert [] + pair == pair;
  }

  /** Turn `n - 1` of a run settles from `states[n - 1]` to `states[n]`. */
  lemma StepOfRun(states: seq<StoreState>, user: UserId, turns: seq<Turn>, n: nat)
    requires Run(states, user, turns) && 1 <= n <= |turns|
    ensures TurnSettled(states[n - 1].cs, states[n - 1].ms, states[n - 1].clock, user, turns[n - 1].message,
                        turns[n - 1].conversationId, turns[n - 1].answer, turns[n - 1].reply,
                        states[n].cs, states[n].ms, states[n].clock)
  {
    assert StepSettled(states, user, turns, n - 1);
  }

  /** An answered turn that creates `c` leaves it owned, holding the question then the answer. */
  lemma CreatingTurn(cs: seq<Conversation>, ms: seq<Message>, clock: nat, user: UserId, c: Conversation,
                     message: Option<string>, answer: Answer,
                     r: Response<TurnReply>, cs': seq<Conversation>, ms': seq<Message>, clock': nat)
    requires Consistent(cs, ms, clock)
    requires TurnSettled(cs, ms, clock, user, message, None, answer, r, cs', ms', clock')
    requires r.Ok? && r.value.newConversation == Some(c)
    ensures Consistent(cs', ms', clock') && FindOwned(cs', c.id, user).Some?
    ensures |Transcript(ms', c.id)| == 2
    ensures Transcript(ms', c.id)[0].role == User && Transcript(ms', c.id)[1].role == Assistant
  {
    assert Required(message) && answer.Answer? && |answer.text| > 0;
    assert message == Some(message.value) && answer == Answer(answer.text);
    FirstTurnOnServer(cs, ms, clock, user, message.value, answer.text, r, cs', ms', clock');
    TurnPreservesConsistency(cs, ms, clock, user, message, None, answer, r, cs', ms', clock');
  }

  /** An answered turn in an owned conversation adds the question then the answer to its transcript. */
  lemma AnsweredTurn(cs: seq<Conversation>, ms: seq<Message>, clock: nat, user: UserId, id: ConvId,
                     message: Option<string>, answer: Answer,
                     r: Response<TurnReply>, cs': seq<Conversation>, ms': seq<Message>, clock': nat)
    requires Consistent(cs, ms, clock) && FindOwned(cs, id, user).Some?
    requires TurnSettled(cs, ms, clock, user, message, Some(Id(id)), answer, r, cs', ms', clock')
    requires r.Ok?
    ensures Consistent(cs', ms', clock') && FindOwned(cs', id, user).Some?
    ensures |ms| + 2 == |ms'| && Transcript(ms', id) == Transcript(ms, id) + ms'[|ms|..]
    ensures ms'[|ms|].role == User && ms'[|ms| + 1].role == Assistant
  {
    TurnPreservesConsistency(cs, ms, clock, user, message, Some(Id(id)), answer, r, cs', ms', clock');
    TurnOutcomes(cs, ms, clock, user, message, Some(Id(id)), answer, r, cs', ms', clock');
    TurnTranscript(cs, ms, clock, user, message, Some(Id(id)), answer, r, cs', ms', clock');
  }

  /** The roles of a transcript's messages, in order. */
  function Roles(t: seq<Message>): seq<Role>
  {
    seq(|t|, k requires 0 <= k < |t| => t[k].role)
  }

  /** `n` questions each followed by its answer. */
  function QuestionsAndAnswers(n: nat): seq<Role>
  {
    if n == 0 then [] else QuestionsAndAnswers(n - 1) + [User, Assistant]
  }

  /** A user message then an assistant message add one question and answer to the roles. */
  lemma RolesAppendPair(t: seq<Message>, pair: seq<Message>)
    requires |pair| == 2 && pair[0].role == User && pair[1].role == Assistant
    ensures Roles(t + pair) == Roles(t) + [User, Assistant]
  {
    assert Roles(pair) == [User, Assistant];
    assert forall k :: 0 <= k < |t| ==> (t + pair)[k] == t[k];
    assert forall k :: 0 <= k < 2 ==> (t + pair)[|t| + k] == pair[k];
  }

  /** Transcripts whose roles are `n` questions and answers alternate, starting with the user. */
  lemma {:induction false} RolesAlternate(t: seq<Message>, n: nat)
    requires Roles(t) == QuestionsAndAnswers(n)
    ensures |t| == 2 * n && Alternating(t)
    decreases n
  {
    if n > 0 {
      var t' := t[..|t| - 2];
      assert |Roles(t)| == |t|;
      assert Roles(t') == QuestionsAndAnswers(n - 1) by {
        assert Roles(t') == Roles(t)[..|t| - 2];
      }
      RolesAlternate(t', n - 1);
      forall k | 0 <= k < |t|
        ensures t[k].role == (if k % 2 == 0 then User else Assistant)
      {
        if k < |t'| {
          assert t[k] == t'[k];
        } else {
          assert t[k].role == Roles(t)[k];
        }
      }
    }
  }
}
