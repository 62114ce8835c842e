# Conversation backend of the feedback widget, in Dafny

This project models the server side of the widget's conversation feature,
`backend/app.py`. It covers three parts.

- The keyword fallback responder `get_fallback_response`. `/chat` answers with
  it when the conversation graph is missing or fails. It lower-cases the
  message and returns the canned text of the first keyword rule that matches:
  help/support, then payment/billing, then error/problem, then
  feature/request, then bug/issue. When no rule matches it returns a generic
  acknowledgment.
- The welcome message that `/conversation/start` chooses from the `pageType`
  entry of the request context.
- The in-memory `conversation_store` and the five handlers that use it:
  - `/chat`
  - `/conversation/start`
  - `/conversation/end`
  - `/conversation/clear`
  - `/conversation/history/{session_id}`

  `/chat` builds the graph's input from the user and assistant entries among
  the last five stored entries, then appends the current message. That list
  already ends with the current user entry, so the graph receives the current
  message twice. The model keeps this behaviour (`CurrentMessageSentTwice`).

Modules, one per file:

- `Payload` (`payload.dfy`): request contexts, and `request.context or {}`.
- `Text` (`text.dfy`): `str.lower` and substring search `kw in text`.
- `Fallback` (`fallback.dfy`): the responder as the if-chain the source has.
  It is proved against a reference definition: the first rule of an ordered
  rule table that fires.
- `Welcome` (`welcome.dfy`): the greeting for each page type.
- `Messages` (`messages.dfy`): stored entries, and the context window that
  `/chat` hands to the graph. The loop that builds it is a method proved equal
  to a specification function.
- `Store` (`store.dfy`): the following parts.
  - What each handler does to the store, as functions on
    `map<string, seq<Entry>>`.
  - The graph as an oracle.
  - The class `ConversationStore`. Its handler methods update the `sessions`
    field in place, and each method is proved equal to its function.

  The class invariant `Valid()` says that every stored entry has the role
  `user` or `assistant`. On such a store no entry is filtered out of the
  context window `/chat` builds (`ChatWindowOfWellFormedStore`).

The graph and language model are not modelled. They are a `Backend`
parameter: either `Unavailable` (`graph and llm` is false) or a function from
the message list to the outcome of `graph.invoke`. That outcome is either an
exception or a returned list of messages. An exception and an empty returned
list both lead to the fallback: reading the last element of an empty list
raises, and the same `except` catches it. The handlers take their
`datetime.now()` timestamps as parameters.

Two details of the responder come from the code. It runs on the server when
the graph is missing or fails (backend/app.py:221-225). It takes the request
context as a second argument and never reads it (backend/app.py:163-182).

## Model

| member | source | states |
|---|---|---|
| Payload.RequestContext | backend/app.py:190 | a missing context and an empty one both become the empty context; any other context is kept as sent |
| Text.Lower | backend/app.py:165 | lower-casing keeps the length of the message |
| Text.LowerSpec | backend/app.py:165 | every upper-case letter becomes its lower-case partner, every other character is kept, and no upper-case letter is left |
| Text.LowerIdempotent | backend/app.py:165 | lower-casing an already lower-cased message changes nothing |
| Text.Contains | backend/app.py:167-180 | `kw in text`: the empty keyword is in every text, and a keyword that is in a text is no longer than it |
| Text.AbsentInitialRulesOut | backend/app.py:167 | a keyword whose first character is not in the text is not `in` the text |
| Fallback.ReplyText | backend/app.py:168-182 | each of the six canned texts is the reply of exactly one branch |
| Fallback.ReplyTextInjective | backend/app.py:168-182 | the six canned replies are pairwise different, so the reply identifies the branch taken |
| Fallback.FallbackTopic | backend/app.py:165-182 | the chain of keyword tests picks the same branch as the first-matching rule of the ordered table help/support, payment/billing, error/problem, feature/request, bug/issue |
| Fallback.FallbackResponse | backend/app.py:163-182 | `get_fallback_response` returns the text of the first rule that fires on the lower-cased message, and the generic acknowledgment when none fires |
| Fallback.FirstFiring | backend/app.py:167-180 | the position it returns is the first rule that fires (every earlier rule does not fire), or the table length when none fires |
| Fallback.FirstMatchAtFirstFiring | backend/app.py:167-182 | the first-match reference picks the topic of the first rule that fires, and the generic topic when none fires |
| Fallback.FirstFiringAt | backend/app.py:167-180 | rule k is the first to fire if and only if rule k fires and no earlier rule does |
| Fallback.TopicIsFirstFiringRule | backend/app.py:165-180 | the responder takes rule k's branch if and only if rule k's keyword or synonym occurs in the lower-cased message and no earlier rule's does |
| Fallback.TopicIsGeneralIffNoKeyword | backend/app.py:165-182 | the responder takes the generic branch if and only if none of the ten keywords occurs |
| Fallback.FallbackChoosesFirstFiringRule | backend/app.py:163-180 | the reply is rule k's text if and only if rule k fires and no earlier rule does (first match wins) |
| Fallback.FallbackGenericIffNoKeyword | backend/app.py:163-182 | the reply is the generic acknowledgment if and only if no keyword occurs |
| Fallback.FallbackIgnoresContext | backend/app.py:163-182 | the context argument never changes the reply |
| Fallback.FallbackIgnoresCase | backend/app.py:165 | the reply to a message equals the reply to its lower-cased form |
| Fallback.BillingErrorKeywords | backend/app.py:167-173 | "billing error" contains "billing" and "error" but neither "help" nor "support" |
| Fallback.BillingErrorTakesPaymentBranch | backend/app.py:167-171 | a message that lower-cases to "billing error" fires both the payment rule and the error rule, and takes the payment branch, which comes first |
| Fallback.BillingErrorGetsPaymentReply | backend/app.py:167-171 | such a message gets the payment-troubleshooting text |
| Fallback.BillingErrorLowersToKeywords | backend/app.py:165 | "Billing error" is such a message |
| Welcome.PageType | backend/app.py:255 | the page type is the context's `pageType` entry, and "general" when it has none |
| Welcome.WelcomeMessage | backend/app.py:257-264 | the payment, account and support greetings are given exactly for those three page types, and the general greeting for every other value, non-string values included |
| Welcome.WelcomeDependsOnlyOnPageType | backend/app.py:255-264 | two contexts that agree on `pageType` get the same greeting |
| Welcome.MissingPageTypeIsGeneral | backend/app.py:255-264 | a context without `pageType` gets the general greeting |
| Messages.Convert | backend/app.py:209-212 | a user entry becomes a human message and an assistant entry an AI message, each with the entry's content; any other role yields nothing |
| Messages.ConvertAll | backend/app.py:208-212 | conversion never yields more messages than entries |
| Messages.ConvertAllWellFormed | backend/app.py:208-212 | on user and assistant entries nothing is dropped: the i-th message is the i-th entry's content with its role |
| Messages.LastN | backend/app.py:208 | `entries[-n:]` is a tail of the list: the last n entries, or the whole list when it is shorter or when n is 0 (as `-0` is `0` in Python) |
| Messages.LastNWellFormed | backend/app.py:208 | the tail of a list of user and assistant entries holds only such entries |
| Messages.ContextWindow | backend/app.py:207-215 | the graph receives between one and six messages, and the last is the current message |
| Messages.BuildMessages | backend/app.py:207-215 | the loop builds exactly the converted last five entries followed by the current message |
| Messages.ContextWindowOfWellFormed | backend/app.py:207-215 | on a well-formed history the graph receives each of the last five entries in stored order, and then the current message |
| Messages.CurrentMessageSentTwice | backend/app.py:196-215 | since the user entry is stored before the window is built, the window ends with the current message twice |
| Store.History | backend/app.py:319-322 | a session's entries, and none for an unknown session |
| Store.Appended | backend/app.py:193-201 | appending creates an unknown session, adds the entries at the end of its list and changes no other session |
| Store.Restarted | backend/app.py:252-271 | the session's list becomes the single given entry, whatever it held; no other session changes |
| Store.Removed | backend/app.py:290-292 | the session is no longer present; every other session is unchanged |
| Store.Cleared | backend/app.py:306-307 | a known session's list becomes empty, an unknown session is not added, and no other session changes |
| Store.AppendedKeepsWellFormed | backend/app.py:196-232 | appending user and assistant entries keeps every stored role one of the two `/chat` reads back |
| Store.AppendedTwice | backend/app.py:196-232 | the two appends `/chat` makes amount to one append of both entries |
| Store.ChatWindowOfWellFormedStore | backend/app.py:193-215 | on a store holding only user and assistant entries, after the user entry is appended the graph receives each of the session's last five entries, the new one included, in stored order and with its role, and then the current message |
| Store.EndIsIdempotent | backend/app.py:290-294 | ending a conversation twice leaves the store as ending it once |
| Store.ClearIsIdempotent | backend/app.py:306-309 | clearing a conversation twice leaves the store as clearing it once |
| Store.EndAndClearLeaveNoHistory | backend/app.py:290-322 | after an end or a clear, the history endpoint returns no entries for the session |
| Store.UserEntry | backend/app.py:196-201 | the stored user entry carries the request context and the given timestamp, and is read back as a human message with the request's text |
| Store.AssistantEntry | backend/app.py:228-232 | the stored assistant entry carries no context and the given timestamp, and is read back as an AI message with its content |
| Store.GraphReply | backend/app.py:204-222 | the graph has an answer if and only if it exists, does not raise and returns at least one message; the answer is the last message's content |
| Store.ChatReply | backend/app.py:203-225 | the reply is the graph's answer when there is one, and otherwise the fallback response for the message and context |
| Store.UnavailableMeansFallback | backend/app.py:224-225 | without a graph the reply is the fallback response, whatever the history |
| Store.Respond | backend/app.py:203-225 | the try/except block computes exactly the reply above |
| Store.ConversationStore.constructor | backend/app.py:64 | the store starts empty |
| Store.ConversationStore.AppendEntry | backend/app.py:193-201 | the store becomes the old store with the entry appended to the session |
| Store.ConversationStore.Chat | backend/app.py:184-238 | the reply is the graph's answer to the window built from the prior history plus the new user entry, or else the fallback; the store gains exactly the user entry and then the assistant entry holding that reply; the invariant is kept |
| Store.ConversationStore.StartConversation | backend/app.py:244-277 | the session's list is replaced by one assistant entry holding the greeting for the context's page type, and that greeting is returned |
| Store.ConversationStore.EndConversation | backend/app.py:283-294 | the session is removed if present, and the result is always the "Conversation ended" success status |
| Store.ConversationStore.ClearConversation | backend/app.py:300-309 | a known session's list is emptied, an unknown one stays unknown, and the result is always the "Conversation cleared" success status |
| Store.ConversationStore.GetConversationHistory | backend/app.py:315-322 | returns the stored list, or an empty list for an unknown session, and changes nothing |

## Left out

- `initialize_langgraph`, the state graph, the language model and its prompt (backend/app.py:67-161) are not part of this model. `/chat` sees them only through the `Backend` parameter, with the three outcomes described above.
- The FastAPI routing, CORS middleware and pydantic validation are not modelled. The model receives requests whose fields are already typed.
- The `except Exception` → HTTP 500 wrappers around each handler are not modelled. No modelled step of the handlers can raise.
- `datetime.now().isoformat()` is not modelled: each timestamp is an opaque string parameter.
- `print` logging is left out, because it has no effect on state or replies.
- Text.Lower: lower-cases ASCII letters only, where Python's `str.lower` covers all of Unicode. The only non-ASCII characters that lower-case into ASCII are U+0130 and U+212A. U+0130 becomes "i" followed by a combining dot; U+212A becomes "k". None of the ten keywords contains a "k". An "i" from U+0130 is always followed by the combining dot, while every "i" in a keyword is followed by another letter. The keyword outcome is therefore the same.
- Context values are JSON values. The model keeps strings as strings and every other value as an uninterpreted text, which is enough for the comparison `page_type == 'payment'`.
- Each handler is `async` but has no `await`, and `graph.invoke` is synchronous, so no two handlers interleave. Concurrency is not modelled.
- `/health`, the Sentry-log analysis endpoints and the background timer that runs the analysis are not modelled. `ai_analysis.py` and `test_langgraph.py` are not part of this model.
