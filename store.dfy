/** The in-memory `conversation_store` and the five handlers that use it:
    `/chat`, `/conversation/start`, `/conversation/end`,
    `/conversation/clear` and `/conversation/history/{session_id}`. */
module Store {
  import opened Payload
  import opened Messages
  import opened Fallback
  import opened Welcome

  /** Session id to that session's entries, oldest first. */
  type Sessions = map<string, seq<Entry>>

  // ---------------------------------------------------------------------
  // The store as a value: what each handler does to it.
  // ---------------------------------------------------------------------

  /** The entries of a session; an unknown session has none. */
  function History(store: Sessions, sessionId: string): (h: seq<Entry>)
    ensures sessionId in store ==> h == store[sessionId]
    ensures sessionId !in store ==> h == []
  {
    if sessionId in store then store[sessionId] else []
  }

  /** `entries` appended to a session's list, the list being created empty
      first when the session is unknown. */
  function Appended(store: Sessions, sessionId: string, entries: seq<Entry>): (after: Sessions)
    ensures after.Keys == store.Keys + {sessionId}
    ensures after[sessionId] == History(store, sessionId) + entries
    ensures forall s :: s in store && s != sessionId ==> after[s] == store[s]
  {
    store[sessionId := History(store, sessionId) + entries]
  }

  /** A session's list replaced by a single entry, whatever it held before. */
  function Restarted(store: Sessions, sessionId: string, first: Entry): (after: Sessions)
    ensures after.Keys == store.Keys + {sessionId}
    ensures after[sessionId] == [first]
    ensures forall s :: s in store && s != sessionId ==> after[s] == store[s]
  {
    store[sessionId := [first]]
  }

  /** A session removed, if it was there. */
  function Removed(store: Sessions, sessionId: string): (after: Sessions)
    ensures after.Keys == store.Keys - {sessionId}
    ensures forall s :: s in after ==> after[s] == store[s]
  {
    if sessionId in store then store - {sessionId} else store
  }

  /** A known session's list emptied; an unknown session is not added. */
  function Cleared(store: Sessions, sessionId: string): (after: Sessions)
    ensures after.Keys == store.Keys
    ensures sessionId in store ==> after[sessionId] == []
    ensures forall s :: s in store && s != sessionId ==> after[s] == store[s]
  {
    if sessionId in store then store[sessionId := []] else store
  }

  /** Every list in the store holds only user and assistant entries. */
  ghost predicate StoreWellFormed(store: Sessions)
  {
    forall s :: s in store ==> AllWellFormed(store[s])
  }

  /** Appending user and assistant entries keeps every stored role one of
      the two the handlers read back. */
  lemma AppendedKeepsWellFormed(store: Sessions, sessionId: string, entries: seq<Entry>)
    requires StoreWellFormed(store) && AllWellFormed(entries)
    ensures StoreWellFormed(Appended(store, sessionId, entries))
  {
    var after := Appended(store, sessionId, entries);
    var prior := History(store, sessionId);
    forall i | 0 <= i < |after[sessionId]|
      ensures WellFormed(after[sessionId][i])
    {
      if i < |prior| {
        assert after[sessionId][i] == prior[i];
      } else {
        assert after[sessionId][i] == entries[i - |prior|];
      }
    }
  }

  /** Two appends to the same session are one append of both runs. */
  lemma AppendedTwice(store: Sessions, sessionId: string, first: seq<Entry>, second: seq<Entry>)
    ensures Appended(Appended(store, sessionId, first), sessionId, second)
         == Appended(store, sessionId, first + second)
  {
    assert History(store, sessionId) + first + second == History(store, sessionId) + (first + second);
  }

  /** The invariant at work in `/chat`: on a store holding only user and
      assistant entries, once a user entry is appended to a session the graph
      receives each of the session's last five entries, the new one
      included, in stored order and with its role, and then the current
      message. */
  lemma ChatWindowOfWellFormedStore(store: Sessions, sessionId: string, user: Entry, message: string)
    requires StoreWellFormed(store) && user.role == UserRole
    ensures KeepsEveryEntry(History(store, sessionId) + [user], message)
  {
    AppendedKeepsWellFormed(store, sessionId, [user]);
    assert AllWellFormed(Appended(store, sessionId, [user])[sessionId]);
    ContextWindowOfWellFormed(History(store, sessionId) + [user], message);
  }

  /** Ending a conversation twice is the same as ending it once. */
  lemma EndIsIdempotent(store: Sessions, sessionId: string)
    ensures Removed(Removed(store, sessionId), sessionId) == Removed(store, sessionId)
  {
  }

  /** Clearing a conversation twice is the same as clearing it once. */
  lemma ClearIsIdempotent(store: Sessions, sessionId: string)
    ensures Cleared(Cleared(store, sessionId), sessionId) == Cleared(store, sessionId)
  {
  }

  /** After an end or a clear the session's history reads as empty. */
  lemma EndAndClearLeaveNoHistory(store: Sessions, sessionId: string)
    ensures History(Removed(store, sessionId), sessionId) == []
    ensures History(Cleared(store, sessionId), sessionId) == []
  {
  }

  // ---------------------------------------------------------------------
  // The conversation graph, seen from `/chat`.
  // ---------------------------------------------------------------------

  /** What one call of `graph.invoke` does: it raises, or it returns a list
      of messages. */
  datatype Invocation = Raised | Returned(messages: seq<ChatMessage>)

  /** The graph and model built at start-up: missing when initialisation
      failed, otherwise an opaque function from the message list it is given
      to the outcome of invoking it. */
  datatype Backend = Unavailable | Available(invoke: seq<ChatMessage> -> Invocation)

  /** The graph's answer to `window`: the content of the last message it
      returns. It has none when there is no graph, when the call raises, or
      when it returns no message (reading the last one raises). */
  function GraphReply(backend: Backend, window: seq<ChatMessage>): (answer: Option<string>)
    ensures answer.Some? <==>
      backend.Available? && backend.invoke(window).Returned? && |backend.invoke(window).messages| > 0
    ensures answer.Some? ==>
      var ms := backend.invoke(window).messages; answer.value == ms[|ms| - 1].content
  {
    match backend
    case Unavailable => None
    case Available(invoke) =>
      match invoke(window)
      case Raised => None
      case Returned(ms) => if |ms| == 0 then None else Some(ms[|ms| - 1].content)
  }

  /** The reply `/chat` stores and returns for `message`, given the history
      that already ends with the message's own entry: the graph's answer to
      the context window, or the keyword fallback when there is none. */
  function ChatReply(backend: Backend, history: seq<Entry>, message: string, ctx: Context): (reply: string)
    ensures GraphReply(backend, ContextWindow(history, message)).None? ==>
      reply == FallbackResponse(message, ctx)
    ensures GraphReply(backend, ContextWindow(history, message)).Some? ==>
      reply == GraphReply(backend, ContextWindow(history, message)).value
  {
    match GraphReply(backend, ContextWindow(history, message))
    case Some(answer) => answer
    case None => FallbackResponse(message, ctx)
  }

  /** Without a graph the reply never depends on the history: it is the
      keyword fallback for the message. */
  lemma UnavailableMeansFallback(history: seq<Entry>, message: string, ctx: Context)
    ensures ChatReply(Unavailable, history, message, ctx) == FallbackResponse(message, ctx)
  {
  }

  /** The `try`/`except` block of `/chat`: with a graph, build the message
      list, invoke the graph and take the content of its last message; with
      no graph, or when that raises, fall back to the keyword responder. */
  method Respond(backend: Backend, history: seq<Entry>, message: string, context: Context) returns (reply: string)
    ensures reply == ChatReply(backend, history, message, context)
  {
    ghost var answer := GraphReply(backend, ContextWindow(history, message));
    match backend {
      case Available(invoke) =>
        var messages := BuildMessages(history, message);
        var result := invoke(messages);
        match result {
          case Returned(ms) =>
            if |ms| > 0 {
              reply := ms[|ms| - 1].content;
              assert answer == Some(reply);
            } else {
              assert answer == None;
              reply := FallbackResponse(message, context);
            }
          case Raised =>
            assert answer == None;
            reply := FallbackResponse(message, context);
        }
      case Unavailable =>
        assert answer == None;
        reply := FallbackResponse(message, context);
    }
  }

  // ---------------------------------------------------------------------
  // Requests and responses of the handlers.
  // ---------------------------------------------------------------------

  datatype ChatRequest = ChatRequest(message: string, sessionId: string, context: Option<Context>)
  datatype StartRequest = StartRequest(action: string, sessionId: string, context: Option<Context>)
  datatype EndRequest = EndRequest(action: string, sessionId: string, timestamp: string)

  datatype ChatResponse = ChatResponse(response: string, sessionId: string, timestamp: string)
  datatype StartResponse = StartResponse(welcomeMessage: string, sessionId: string, timestamp: string)
  datatype StatusResponse = StatusResponse(status: string, message: string)

  const Ended: StatusResponse := StatusResponse("success", "Conversation ended")
  const ClearedStatus: StatusResponse := StatusResponse("success", "Conversation cleared")

  /** The user entry `/chat` stores for a request: it carries the request's
      context and is read back as the request's message. */
  function UserEntry(request: ChatRequest, stamp: string): (e: Entry)
    ensures WellFormed(e) && Convert(e) == [Human(request.message)]
    ensures e.timestamp == stamp && e.context == Some(RequestContext(request.context))
  {
    Entry(UserRole, request.message, stamp, Some(RequestContext(request.context)))
  }

  /** The assistant entry stored for a reply or a greeting: it carries no
      context and is read back as an AI message with that content. */
  function AssistantEntry(content: string, stamp: string): (e: Entry)
    ensures WellFormed(e) && Convert(e) == [Ai(content)]
    ensures e.timestamp == stamp && e.context == None
  {
    Entry(AssistantRole, content, stamp, None)
  }

  // ---------------------------------------------------------------------
  // The store itself. Wall-clock timestamps are parameters of the handlers.
  // ---------------------------------------------------------------------

  class ConversationStore {
    var sessions: Sessions

    /** Every stored entry is a user or an assistant entry. */
    ghost predicate Valid()
      reads this
    {
      StoreWellFormed(sessions)
    }

    constructor ()
      ensures Valid() && sessions == map[]
    {
      sessions := map[];
    }

    /** Appends `entry` to a session's list, creating the list first when
        the session is unknown. */
    method AppendEntry(sessionId: string, entry: Entry)
      requires Valid() && WellFormed(entry)
      modifies this
      ensures Valid()
      ensures sessions == Appended(old(sessions), sessionId, [entry])
    {
      if sessionId !in sessions {
        sessions := sessions[sessionId := []];
      }
      sessions := sessions[sessionId := sessions[sessionId] + [entry]];
      AppendedKeepsWellFormed(old(sessions), sessionId, [entry]);
    }

    /** `/chat`: store the user entry, ask the graph (or the fallback) for a
        reply, store the reply and return it. */
    method Chat(request: ChatRequest, backend: Backend, userStamp: string, replyStamp: string, responseStamp: string)
      returns (response: ChatResponse)
      requires Valid()
      modifies this
      ensures Valid()
      ensures var prior := History(old(sessions), request.sessionId);
        response.response
          == ChatReply(backend, prior + [UserEntry(request, userStamp)], request.message, RequestContext(request.context))
      ensures sessions == Appended(old(sessions), request.sessionId,
                                   [UserEntry(request, userStamp), AssistantEntry(response.response, replyStamp)])
      ensures response.sessionId == request.sessionId && response.timestamp == responseStamp
    {
      var sessionId := request.sessionId;
      var message := request.message;
      var context := RequestContext(request.context);
      var user := Entry(UserRole, message, userStamp, Some(context));
      AppendEntry(sessionId, user);
      assert user == UserEntry(request, userStamp);
      assert sessions[sessionId] == History(old(sessions), sessionId) + [user];

      var reply := Respond(backend, sessions[sessionId], message, context);

      var assistant := Entry(AssistantRole, reply, replyStamp, None);
      AppendEntry(sessionId, assistant);
      response := ChatResponse(reply, sessionId, responseStamp);
      AppendedTwice(old(sessions), sessionId, [user], [assistant]);
      assert [user] + [assistant] == [user, assistant];
    }

    /** `/conversation/start`: replace the session's list by the greeting for
        the request's page type and return that greeting. */
    method StartConversation(request: StartRequest, entryStamp: string, responseStamp: string)
      returns (response: StartResponse)
      requires Valid()
      modifies this
      ensures Valid()
      ensures response.welcomeMessage == WelcomeMessage(PageType(RequestContext(request.context)))
      ensures sessions == Restarted(old(sessions), request.sessionId,
                                    AssistantEntry(response.welcomeMessage, entryStamp))
      ensures response.sessionId == request.sessionId && response.timestamp == responseStamp
    {
      var sessionId := request.sessionId;
      var context := RequestContext(request.context);
      sessions := sessions[sessionId := []];

      var pageType := PageType(context);
      var welcome := WelcomeMessage(pageType);

      sessions := sessions[sessionId := sessions[sessionId] + [Entry(AssistantRole, welcome, entryStamp, None)]];
      response := StartResponse(welcome, sessionId, responseStamp);
      assert sessions[sessionId] == [AssistantEntry(welcome, entryStamp)];
    }

    /** `/conversation/end`: forget the session; succeeds whether or not it
        was known. */
    method EndConversation(request: EndRequest) returns (status: StatusResponse)
      requires Valid()
      modifies this
      ensures Valid()
      ensures sessions == Removed(old(sessions), request.sessionId)
      ensures status == Ended
    {
      if request.sessionId in sessions {
        sessions := sessions - {request.sessionId};
      }
      status := Ended;
    }

    /** `/conversation/clear`: empty a known session's list; an unknown
        session stays unknown. */
    method ClearConversation(request: EndRequest) returns (status: StatusResponse)
      requires Valid()
      modifies this
      ensures Valid()
      ensures sessions == Cleared(old(sessions), request.sessionId)
      ensures status == ClearedStatus
    {
      if request.sessionId in sessions {
        sessions := sessions[request.sessionId := []];
      }
      status := ClearedStatus;
    }

    /** `/conversation/history/{session_id}`: the stored list, or an empty
        one for an unknown session; the store is not changed. */
    method GetConversationHistory(sessionId: string) returns (messages: seq<Entry>)
      ensures sessionId in sessions ==> messages == sessions[sessionId]
      ensures sessionId !in sessions ==> messages == []
    {
      if sessionId in sessions {
        messages := sessions[sessionId];
      } else {
        messages := [];
      }
    }
  }
}
