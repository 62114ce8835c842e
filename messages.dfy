/** Stored conversation entries and the message list `/chat` hands to the
    conversation graph: the user/assistant entries among the last five
    stored ones, followed by the current message. */
module Messages {
  import opened Payload

  const UserRole: string := "user"
  const AssistantRole: string := "assistant"

  /** One stored entry: `{role, content, timestamp}` plus, on user entries,
      the request `context`. */
  datatype Entry = Entry(role: string, content: string, timestamp: string, context: Option<Context>)

  /** A chat message as the graph receives and returns it. */
  datatype ChatMessage = Human(content: string) | Ai(content: string)

  /** How many stored entries `/chat` looks back over. */
  const WindowSize: nat := 5

  predicate WellFormed(e: Entry)
  {
    e.role == UserRole || e.role == AssistantRole
  }

  predicate AllWellFormed(entries: seq<Entry>)
  {
    forall i :: 0 <= i < |entries| ==> WellFormed(entries[i])
  }

  /** The graph message for one entry: a human message for a user entry, an
      AI message for an assistant entry, none for any other role. */
  function Convert(e: Entry): (m: seq<ChatMessage>)
    ensures |m| <= 1
    ensures e.role == UserRole <==> m == [Human(e.content)]
    ensures e.role == AssistantRole <==> m == [Ai(e.content)]
    ensures e.role != UserRole && e.role != AssistantRole ==> m == []
  {
    if e.role == UserRole then [Human(e.content)]
    else if e.role == AssistantRole then [Ai(e.content)]
    else []
  }

  /** The graph messages for a run of entries, in stored order. */
  function ConvertAll(entries: seq<Entry>): (ms: seq<ChatMessage>)
    ensures |ms| <= |entries|
  {
    if entries == [] then []
    else ConvertAll(entries[..|entries| - 1]) + Convert(entries[|entries| - 1])
  }

  /** `entries[-n:]`: the last `n` entries, or all of them when there are
      fewer. As in Python, `-0` is `0`, so `n = 0` keeps the whole list. */
  function LastN(entries: seq<Entry>, n: nat): (recent: seq<Entry>)
    ensures |recent| == if n == 0 || |entries| <= n then |entries| else n
    ensures entries == entries[..|entries| - |recent|] + recent
  {
    if n == 0 || |entries| <= n then entries else entries[|entries| - n..]
  }

  /** The message list `/chat` passes to the graph for `history` (which
      already ends with the current user entry) and the current `message`. */
  function ContextWindow(history: seq<Entry>, message: string): (window: seq<ChatMessage>)
    ensures 1 <= |window| <= WindowSize + 1
    ensures window[|window| - 1] == Human(message)
  {
    ConvertAll(LastN(history, WindowSize)) + [Human(message)]
  }

  /** Builds the message list with the loop `/chat` uses. */
  method BuildMessages(history: seq<Entry>, message: string) returns (messages: seq<ChatMessage>)
    ensures messages == ContextWindow(history, message)
  {
    var recent := LastN(history, WindowSize);
    messages := [];
    for i := 0 to |recent|
      invariant messages == ConvertAll(recent[..i])
    {
      var entry := recent[i];
      if entry.role == UserRole {
        messages := messages + [Human(entry.content)];
      } else if entry.role == AssistantRole {
        messages := messages + [Ai(entry.content)];
      }
      assert recent[..i + 1][..i] == recent[..i];
      assert ConvertAll(recent[..i + 1]) == ConvertAll(recent[..i]) + Convert(entry);
    }
    assert recent[..|recent|] == recent;
    messages := messages + [Human(message)];
  }

  /** On well-formed entries nothing is dropped: the i-th message is the
      i-th entry, as a human message when it is a user entry and as an AI
      message when it is an assistant entry. */
  lemma {:induction false} ConvertAllWellFormed(entries: seq<Entry>)
    requires AllWellFormed(entries)
    ensures |ConvertAll(entries)| == |entries|
    ensures forall i :: 0 <= i < |entries| ==>
      ConvertAll(entries)[i] == (if entries[i].role == UserRole then Human(entries[i].content) else Ai(entries[i].content))
  {
    if entries != [] {
      ConvertAllWellFormed(entries[..|entries| - 1]);
    }
  }

  /** The last entries of well-formed entries are well formed. */
  lemma LastNWellFormed(entries: seq<Entry>, n: nat)
    requires AllWellFormed(entries)
    ensures AllWellFormed(LastN(entries, n))
  {
    var recent := LastN(entries, n);
    forall i | 0 <= i < |recent|
      ensures WellFormed(recent[i])
    {
      assert recent[i] == entries[|entries| - |recent| + i];
    }
  }

  /** Nothing is filtered out of the window: it holds each of the last five
      entries (all of them when there are fewer) in stored order, each as a
      human message when it is a user entry and as an AI message otherwise,
      and then the current message. */
  predicate KeepsEveryEntry(history: seq<Entry>, message: string)
  {
    var recent := LastN(history, WindowSize);
    var w := ContextWindow(history, message);
    && |w| == |recent| + 1
    && (forall i :: 0 <= i < |recent| ==>
          w[i] == (if recent[i].role == UserRole then Human(recent[i].content) else Ai(recent[i].content)))
    && w[|recent|] == Human(message)
  }

  /** On well-formed history nothing is filtered out of the window. */
  lemma ContextWindowOfWellFormed(history: seq<Entry>, message: string)
    requires AllWellFormed(history)
    ensures KeepsEveryEntry(history, message)
  {
    LastNWellFormed(history, WindowSize);
    ConvertAllWellFormed(LastN(history, WindowSize));
  }

  /** Within `/chat` the history already ends with the current user entry,
      so the graph receives the current message twice: once from the stored
      history and once appended after it. */
  lemma CurrentMessageSentTwice(prior: seq<Entry>, message: string, stamp: string, ctx: Context)
    ensures var w := ContextWindow(prior + [Entry(UserRole, message, stamp, Some(ctx))], message);
      |w| >= 2 && w[|w| - 2..] == [Human(message), Human(message)]
  {
    var history := prior + [Entry(UserRole, message, stamp, Some(ctx))];
    var recent := LastN(history, WindowSize);
    assert recent[|recent| - 1] == history[|history| - 1];
    assert ConvertAll(recent) == ConvertAll(recent[..|recent| - 1]) + [Human(message)];
  }
}
