# Chat sessions: the conversation router and the chat page

A model, in Dafny, of the conversation layer of a retrieval-augmented chat assistant. It has
three parts:

- **The record shapes** (`records.dfy`): what Mongoose accepts when it saves a `Conversation`
  or a `Message`. This covers required strings (absent or empty is refused), the role
  enumeration, the default title and the two timestamps.
- **The chat router** (`chat_routes.dfy`, with the query helpers in `ordering.dfy`):
  - the `auth` middleware;
  - `GET /conversations`, the caller's conversations, most recently updated first;
  - `GET /messages/:conversationId`, one owned conversation's messages, oldest first;
  - `POST /new`, one chat turn. It finds or creates the conversation, saves the user
    message, asks the answering service, saves the answer and replies.

  The database is `class Store`, which holds both collections in insertion order and a
  logical clock. Every save uses the clock's value as the record's `_id` and as both of its
  timestamps, then advances the clock. `Consistent` is the store invariant. The whole turn is
  one predicate, `TurnSettled`, that relates the store before, the reply, and the store after.
  `SubmitTurn` and `PostNew` are proved against it, and the turn's properties are lemmas about
  it.
- **The chat page** (`chat_page.dfy`): `class ChatPage` holds the page's five state hooks, and
  each event is a method:
  - typing, selecting a conversation, starting a new chat;
  - the send handler up to its request, then its success or its failure;
  - the arrival of a messages fetch or a conversations fetch.

  The messages effect is folded into `Activate`. It runs only when the selection changes, and
  it returns the id whose fetch it starts.

`session.dfy` composes the two halves into whole sessions:

- a first turn of a new chat, end to end;
- a first turn whose answering service fails;
- two selections whose fetches arrive in the opposite order;
- a failed turn followed by a retry;
- a run of answered turns in one conversation, whose transcript alternates question and answer.

Inputs the code gets from outside are parameters:

- the token verifier: `Verifier`, the tokens `jwt.verify` accepts with the server's secret, each
  with its payload's `userId`;
- the answering service's outcome: `Answer(text)` or `Fail`;
- the arrival of each HTTP response at the page.

The model follows the code in several places where a reader might expect something else:

- A title longer than 30 characters is cut to 30 and followed by three full stops `...`, not
  a single ellipsis character.
- A turn never changes `updatedAt` of its conversation. The conversation list is therefore
  ordered by creation time (`TurnOutcomes`: records are only ever appended).
- The page appends the reply to `messages`. It does not replace the optimistic entry. A failed
  send is only logged: the optimistic user message stays and no error entry is added
  (`SendFailure`).
- A messages fetch overwrites the transcript whenever it arrives, even when another conversation
  is selected by then. `StaleFetch` shows the page displaying `a`'s messages while `b` is
  selected.
- A failed answer leaves its question stored. The next turn in the same conversation therefore
  stores two user messages in a row (`FailedTurnThenRetry`). On a new chat, the failed turn still
  creates the conversation, but the reply does not name it (`FailedFirstTurn`).
- An empty message is refused only by Mongoose's validation, as a 500. With no conversation id,
  the empty title already fails. With an id, the user message fails.
- The middleware reads the second space-separated field of the header and never checks that the
  first field is `Bearer` (`BearerTokenOfHeader`).
- The turn route is `POST /new`. A body's `conversationId` is tested for truthiness: `null`,
  `undefined` and `""` all start a new conversation.

## Model

| member | source | states |
|---|---|---|
| Records.RoleName | models/message.model.js:7 | the stored name of each role is accepted by the enum validator and parses back to that role |
| Records.ParseRole | models/message.model.js:7 | a stored role string is accepted exactly when it is `user` or `assistant` |
| Records.NewConversationRecord | models/conversation.model.js:4-7 | saving succeeds iff the title is absent or non-empty; an absent title becomes `New Conversation`; the record is valid, owned by the given user, with both timestamps equal to the save time |
| Records.NewMessageRecord | models/message.model.js:4-9 | saving succeeds iff the content is present and non-empty; the record keeps the conversation, role and content given, with both timestamps equal to the save time |
| Ordering.Filter | routes/chat.routes.js:41 | a query's result holds exactly the stored records matching its filter, no more of them than stored |
| Ordering.Insert | routes/chat.routes.js:41 | inserting into a sorted list adds exactly that element (as a multiset) and keeps the list sorted |
| Ordering.SortBy | routes/chat.routes.js:41 | `.sort()` returns a permutation of its input that is sorted by the key |
| Ordering.FilterAppend | routes/chat.routes.js:41 | filtering distributes over concatenation, so records appended later match the filter after the earlier ones |
| Ordering.FilterIncreasing | routes/chat.routes.js:41 | a filter keeps the strict order its input had |
| Ordering.SortByOfSorted | routes/chat.routes.js:41 | sorting a list already in key order changes nothing |
| Ordering.SortByAppendSmallest | routes/chat.routes.js:26 | appending an element whose key is below every other puts it first and leaves the rest in order |
| ChatRoutes.BearerToken | routes/chat.routes.js:12 | `split(' ')[1]`: there is no token iff the header has no space; a token contains no space |
| ChatRoutes.BearerTokenOfHeader | routes/chat.routes.js:12 | a header `scheme token` yields `token`, whatever the scheme word |
| ChatRoutes.Authenticate | routes/chat.routes.js:10-19 | there is a caller iff a header is present, has a token, and the verifier accepts that token; the caller is then the token's user; the empty token is always refused; every other case is the 401 |
| ChatRoutes.EmptyBearerRefused | routes/chat.routes.js:12-17 | the header `Bearer ` carries the empty token and never authenticates |
| ChatRoutes.Title | routes/chat.routes.js:58 | a message of at most 30 characters is its own title; a longer one gives its first 30 characters followed by `...`; the title is empty iff the message is |
| ChatRoutes.ConversationList | routes/chat.routes.js:26 | exactly the caller's conversations (as a multiset), in non-increasing `updatedAt` order |
| ChatRoutes.Transcript | routes/chat.routes.js:41 | exactly the conversation's messages (as a multiset), in non-decreasing `createdAt` order |
| ChatRoutes.FindOwned | routes/chat.routes.js:37 | a found conversation is stored, has that id and belongs to that user; none is found iff no stored conversation has both |
| ChatRoutes.OwnerOf | routes/chat.routes.js:37 | there is no owner iff no stored conversation has the id; the owner owns a conversation with that id |
| ChatRoutes.OwnerOfMember | routes/chat.routes.js:37 | with unique ids, the owner of a stored conversation's id is that conversation's user |
| ChatRoutes.OwnerOfAppend | routes/chat.routes.js:59-60 | saving a conversation does not change the owner of an id already in use |
| ChatRoutes.ConsistentAddConversation | routes/chat.routes.js:59-60 | saving a valid conversation at the current clock keeps the store consistent and makes its id owned |
| ChatRoutes.ConsistentAddMessage | routes/chat.routes.js:68-69 | saving a valid message of an existing conversation at the current clock keeps the store consistent |
| ChatRoutes.TranscriptInStorageOrder | routes/chat.routes.js:41 | in a consistent store, the sorted transcript is the messages in storage order |
| ChatRoutes.TranscriptOfUnknownId | routes/chat.routes.js:41 | an id no stored conversation has has an empty transcript |
| ChatRoutes.TranscriptAppend | routes/chat.routes.js:41 | messages of a conversation appended to a consistent store extend its transcript by exactly those messages |
| ChatRoutes.FilterAll | routes/chat.routes.js:41 | a filter every element passes returns its input |
| ChatRoutes.ListedMessagesBelongToCaller | routes/chat.routes.js:37-42 | every message the messages route lists for an owned conversation belongs, through its conversation, to the caller |
| ChatRoutes.ConversationListAfterCreate | routes/chat.routes.js:59-60 | a conversation newer than all others heads its owner's list above the unchanged rest; other users' lists do not change |
| ChatRoutes.Resolve | routes/chat.routes.js:51-65 | an id finds an owned conversation, or gives 404 when none matches, or 500 when malformed; no id creates a valid conversation owned by the caller and titled from the message, or crashes (500) on an absent or empty message |
| ChatRoutes.TurnWritesKeepConsistency | routes/chat.routes.js:67-82 | whatever a turn saves into an existing conversation keeps the store consistent |
| ChatRoutes.SettledByWrites | routes/chat.routes.js:49-87 | a turn whose conversation resolved, and whose messages were then written, is settled |
| ChatRoutes.TurnPreservesConsistency | routes/chat.routes.js:49-87 | every turn outcome leaves a consistent store consistent |
| ChatRoutes.TurnOutcomes | routes/chat.routes.js:49-87 | reply is 2xx, 404 or 500; 404 iff an id names no conversation of the caller's, writing nothing; an id never creates or returns a conversation; no id creates exactly one, for the caller and titled from the message, returned on success; collections are only appended to, by at most two messages; success iff both messages were saved, with the reply's content as the assistant message's |
| ChatRoutes.TurnWritesExtendTranscript | routes/chat.routes.js:67-82 | the messages a turn saves go to the end of its conversation's transcript |
| ChatRoutes.TurnWritesAppend | routes/chat.routes.js:67-82 | a turn only appends messages, all of its own conversation |
| ChatRoutes.TurnTranscript | routes/chat.routes.js:49-87 | a resolved turn extends its conversation's transcript by what it saved; a failure after a valid message leaves exactly the user message behind |
| ChatRoutes.NewConversationTranscript | routes/chat.routes.js:56-82 | a successful turn without an id returns a new conversation of the caller's whose transcript is the turn's two messages and which heads the caller's list |
| ChatRoutes.Store.constructor | routes/chat.routes.js:5-6 | an empty database is consistent |
| ChatRoutes.Store.GetConversations | routes/chat.routes.js:24-31 | 401 iff authentication fails; otherwise the caller's conversation list |
| ChatRoutes.Store.GetMessages | routes/chat.routes.js:34-46 | 401 iff authentication fails; 500 on a malformed id; 404 iff the id names no conversation of the caller's; otherwise that conversation's transcript |
| ChatRoutes.Store.PostNew | routes/chat.routes.js:49-87 | 401 with nothing changed when authentication fails; otherwise the turn settles for the caller, and the store stays consistent |
| ChatRoutes.Store.SubmitTurn | routes/chat.routes.js:50-86 | the handler body settles the turn from the store before to the store after and keeps it consistent |
| ChatRoutes.Store.SaveConversation | routes/chat.routes.js:59-60 | `conversation.save()` appends the record, advances the clock, keeps the store consistent, and makes the id owned |
| ChatRoutes.Store.SaveMessage | routes/chat.routes.js:68-69 | `Message.save()` appends the record, advances the clock, and keeps the store consistent |
| ChatRoutes.Store.SaveTurn | routes/chat.routes.js:67-82 | saves the user message, then on an answer the assistant message, and replies as the turn predicate says; stops with 500 at the first failed step, keeping what was saved |
| ChatClient.Trim | src/App.js:61 | `trim()` is empty iff the input is all white space; a non-empty result has no white space at either end |
| ChatClient.TrimIsSlice | src/App.js:61 | `trim()` returns a slice of its input and drops only white space before and after it |
| ChatClient.CanSend | src/App.js:61 | sending is allowed iff nothing is loading and the input has a non-white-space character |
| ChatClient.AsEntries | src/App.js:48 | `setMessages(res.data)` keeps the server's list, element by element |
| ChatClient.ChatPage.constructor | src/App.js:10-14 | the five hooks start empty, null and false |
| ChatClient.ChatPage.Type | src/App.js:133-135 | while nothing is loading (the box is disabled otherwise), the input becomes the typed text |
| ChatClient.ChatPage.Activate | src/App.js:37-55 | the selection becomes `id`; only a change runs the effect, which clears the transcript for null and otherwise starts the fetch for `id` |
| ChatClient.ChatPage.Select | src/App.js:110 | clicking selects the conversation; its fetch starts unless it was already selected; the transcript is untouched until the fetch arrives |
| ChatClient.ChatPage.NewChat | src/App.js:89-92 | no selection and an empty transcript |
| ChatClient.ChatPage.SendStart | src/App.js:59-73 | a refused send changes nothing and posts nothing; otherwise the untrimmed input is appended as a user entry and posted with the current selection, the input is cleared and loading starts |
| ChatClient.ChatPage.SendSuccess | src/App.js:75-85 | the assistant reply is appended; a new conversation goes to the head of the sidebar and becomes selected, starting its fetch unless already selected; loading ends; the input is untouched |
| ChatClient.ChatPage.SendFailure | src/App.js:82-86 | only loading ends; transcript, sidebar, selection and input stay as they were |
| ChatClient.ChatPage.FetchMessagesDone | src/App.js:44-52 | a fetched list replaces the transcript and an error empties it, whatever is selected |
| ChatClient.ChatPage.FetchConversationsDone | src/App.js:20-30 | a fetched list replaces the sidebar; an error leaves it |
| Session.FirstTurn | src/App.js:59-81 | the server settles the turn on the body the page posts (the text and the null selection); after it the sidebar is headed by the caller's new conversation, titled from the message, which is selected; the page shows exactly the stored question then answer; input empty, not loading |
| Session.ShowFirstTurn | src/App.js:59-81 | the page's events of a first turn post the text with no conversation, select the reply's new conversation, fetch it, and show the fetched list |
| Session.TypeAndSend | src/App.js:59-73 | sending a non-blank text when idle posts that text with the current selection, appends it as a user entry, clears the input and starts loading |
| Session.BearerAuthenticates | src/App.js:72 | the page's `Bearer <token>` header authenticates the token's user on the server |
| Session.FirstTurnOnServer | routes/chat.routes.js:56-82 | a first turn with a non-empty message and answer succeeds and returns a new conversation of the caller's, titled from the message, holding exactly the question and the answer |
| Session.FailedFirstTurn | routes/chat.routes.js:56-85 | a first turn whose service fails replies 500 but still creates the conversation, stores the question in it, and puts it at the head of the caller's list |
| Session.StaleFetch | src/App.js:37-55 | with two selections in a row and their fetches arriving in reverse order, the second conversation is selected while the first one's messages are shown |
| Session.FailedTurnThenRetry | routes/chat.routes.js:67-85 | a failed turn then a successful one in the same conversation add to its transcript, in order, the first question, the second question and the answer |
| Session.RetryTranscript | routes/chat.routes.js:67-85 | the same two turns on the store's contents: the first replies 500, the second succeeds, conversations are unchanged, and the transcript grows by exactly those three messages |
| Session.AnsweredTurnsAlternate | routes/chat.routes.js:49-87 | in a run of answered turns from a consistent store, the first creating a conversation and the rest posting to it, its transcript is `n` questions each followed by its answer: length `2n`, user and assistant alternating, user first |
| Session.RolesPrefix | routes/chat.routes.js:41 | if the first turn leaves one question and answer and each later turn adds one, after `n` turns there are `n` |
| Session.RolesAlternate | routes/chat.routes.js:41 | a transcript whose roles are `n` questions and answers has length `2n` and alternates user and assistant, user first |
| Session.TranscriptStep | routes/chat.routes.js:67-82 | each later answered turn of the run adds one question and its answer to the transcript's roles |
| Session.OwnedPrefix | routes/chat.routes.js:49-87 | after every turn of the run the store is consistent and the caller owns the conversation |
| Session.CreatingTurn | routes/chat.routes.js:56-82 | an answered turn that creates a conversation leaves a consistent store in which the caller owns it, its transcript a question then an answer |
| Session.AnsweredTurn | routes/chat.routes.js:67-82 | an answered turn in an owned conversation keeps the store consistent and the conversation owned, and appends a question and then an answer to its transcript |
| Session.ExistingTurn | routes/chat.routes.js:67-82 | a turn in an owned conversation saves the question as the next record and, when answered, the answer after it; otherwise it replies 500 |

## Left out

- Database and network outages are left out. The only failures modelled are the ones the code
  itself causes: a validation error, a malformed id's cast error, `message.substring` on an
  absent message, and the answering service failing.
- Wall-clock timestamps are replaced by a logical clock, so no two records share a timestamp.
  The order between equal timestamps, which MongoDB leaves unspecified, is not modelled.
- The JSON Web Token's signature and expiry checks are not modelled. They are reduced to the
  `Verifier` map, and a payload without `userId` is not modelled.
- A `message` that is not a string (a number, an object) is not modelled.
- `length` and `substring` count UTF-16 code units in JavaScript. The model counts characters,
  so `Title` differs from the code for text outside the Basic Multilingual Plane.
- The answering service's request and its `answer` field are taken as given: `Answer(text)` or
  `Fail`. A missing `answer` field behaves like `Answer("")`, a 500 after the user message is
  saved.
- Rendering, scrolling, the "Thinking..." bubble and the Send button's `disabled` state are not
  modelled. The button's guard is the same as `CanSend`. The text box is disabled while loading,
  so `Type` requires that nothing is loading.
- Logout, `localStorage`, the login and signup page, and the Python services are outside this
  model.
- The page's fetches are requests whose results arrive as events. Cancellation and concurrent
  sends are not modelled; `isLoading` prevents a second send.
- Each route handler runs as one atomic step: `PostNew` goes from the store before to the store
  after with nothing in between. The interleaving that the `await`s between saves allow is not
  represented. A `GET /messages` could see a question without its answer, and another turn's
  save could land between a user message and its answer. `TurnOutcomes`' append-only bound
  (the old collections are a prefix, with at most two messages added) and
  `AnsweredTurnsAlternate` rely on this atomicity.
- The conversations fetch on mount is not a separate method. It is the constructor followed by
  `FetchConversationsDone`.
