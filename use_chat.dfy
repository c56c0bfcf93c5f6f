/**
 * The `useChat` hook of hooks/useChat.ts: the transcript of one context, loaded from the history endpoint and
 * extended by `sendMessage`, which appends the user's message and an assistant placeholder and then folds the
 * stream's callbacks into that placeholder. React state updates are applied one after another, in call order.
 * Backend answers, the stream's callback invocations, exceptions and the clock (`now`, an ISO time string) are
 * inputs.
 */
module UseChat {
  import opened Base
  import opened Strings
  import opened JsonValues
  import opened Types
  import opened Http
  import opened ChatStream
  import opened Lists
  import ApiClient

  const LoadFailedMessage := "Failed to load chat history."
  const SendFailedMessage := "Failed to send message. Please try again."
  const ClearFailedMessage := "Failed to clear chat history."
  /** What `msg.role` throws for a `null` history item. */
  const NullItemMessage := "Cannot read properties of null (reading 'role')"

  // ---------------------------------------------------------------- history

  /** `value || fallback` for a field that is shown as text. */
  function TextOr(field: Option<Json>, fallback: string): string {
    if TruthyOpt(field) then JsString(field.value) else fallback
  }

  /** The normalisation of one history item: missing or falsy fields get their defaults. */
  function NormaliseItem(item: Json, now: string): (r: ChatMessage)
    ensures !TruthyOpt(Get(item, "role")) ==> r.role == AssistantRole
    ensures !TruthyOpt(Get(item, "content")) ==> r.content == ""
    ensures !TruthyOpt(Get(item, "timestamp")) ==> r.timestamp == Some(now)
    ensures r.sources.Some? <==> TruthyOpt(Get(item, "sources"))
  {
    ChatMessage(
      TextOr(Get(item, "role"), AssistantRole),
      TextOr(Get(item, "content"), ""),
      if TruthyOpt(Get(item, "sources")) then Get(item, "sources") else None,
      Some(TextOr(Get(item, "timestamp"), now)))
  }

  /** A message as the backend sends it in a history list. */
  function Encode(m: ChatMessage): Json {
    JObj(map["role" := JStr(m.role), "content" := JStr(m.content)] +
         (if m.timestamp.Some? then map["timestamp" := JStr(m.timestamp.value)] else map[]) +
         (if m.sources.Some? then map["sources" := m.sources.value] else map[]))
  }

  /** A message with a role and a timestamp, and truthy sources if any, survives the trip through the backend. */
  lemma NormaliseEncode(m: ChatMessage, now: string)
    requires m.role != "" && m.timestamp.Some? && m.timestamp.value != ""
    requires m.sources.Some? ==> Truthy(m.sources.value)
    ensures NormaliseItem(Encode(m), now) == m
  {
    var e := Encode(m);
    assert Get(e, "role") == Some(JStr(m.role));
    assert Get(e, "content") == Some(JStr(m.content));
    assert Get(e, "timestamp") == Some(JStr(m.timestamp.value));
    assert m.sources.Some? ==> Get(e, "sources") == m.sources;
    assert m.sources.None? ==> Get(e, "sources").None?;
  }

  /**
   * The formatted history for `history`: the normalised items of an array, `[]` for anything else, and a
   * thrown TypeError (`None`) when an item is `null`.
   */
  function FormatHistory(history: Json, now: string): (r: Option<seq<ChatMessage>>)
    ensures !history.JArr? ==> r == Some([])
    ensures history.JArr? && JNull in history.items ==> r.None?
    ensures history.JArr? && JNull !in history.items ==>
      r.Some? && |r.value| == |history.items| &&
      forall i :: 0 <= i < |history.items| ==> r.value[i] == NormaliseItem(history.items[i], now)
  {
    if !history.JArr? then Some([])
    else if JNull in history.items then None
    else Some(seq(|history.items|, i requires 0 <= i < |history.items| => NormaliseItem(history.items[i], now)))
  }

  /** The whole axios response as a value: an object holding the status and the body under `data`. */
  function Envelope(response: Response): (r: Json)
    ensures r.JObj? && Get(r, "data") == Some(response.data)
  {
    JObj(map["data" := response.data, "status" := JNum(response.status)])
  }

  /**
   * The history the hook computes as written: `getChatHistory` resolves to the axios response, and the hook tests
   * that response itself with `Array.isArray`, not its `data`. An axios response is an object, so every history
   * loads as empty.
   */
  function HistoryAsWritten(response: Response, now: string): (r: Option<seq<ChatMessage>>)
    ensures r == Some([])
  {
    FormatHistory(Envelope(response), now)
  }

  /** The history the hook evidently means to load: the normalised items of the response body. */
  function History(response: Response, now: string): (r: Option<seq<ChatMessage>>)
    ensures !response.data.JArr? ==> r == Some([])
    ensures response.data.JArr? && JNull in response.data.items ==> r.None?
    ensures response.data.JArr? && JNull !in response.data.items ==>
      r.Some? && |r.value| == |response.data.items| &&
      forall i :: 0 <= i < |r.value| ==> r.value[i] == NormaliseItem(response.data.items[i], now)
  {
    FormatHistory(response.data, now)
  }

  /** A one-message history shows the difference: the corrected reading keeps the message, the written one drops it. */
  lemma HistoryDiscrepancy(now: string)
    ensures var m := ChatMessage(UserRole, "hello", None, Some("2024-01-01T00:00:00Z"));
      var response := Response(200, JArr([Encode(m)]));
      History(response, now) == Some([m]) && HistoryAsWritten(response, now) == Some([])
  {
    var m := ChatMessage(UserRole, "hello", None, Some("2024-01-01T00:00:00Z"));
    NormaliseEncode(m, now);
    var items := [Encode(m)];
    assert JNull !in items;
    var r := FormatHistory(JArr(items), now);
    assert r.value[0] == m;
    assert r.value == [m];
  }

  /** Every well-formed history comes back as it was sent. */
  lemma HistoryRoundTrip(ms: seq<ChatMessage>, now: string)
    requires forall i :: 0 <= i < |ms| ==> ms[i].role != "" && ms[i].timestamp.Some? && ms[i].timestamp.value != ""
    requires forall i :: 0 <= i < |ms| ==> ms[i].sources.Some? ==> Truthy(ms[i].sources.value)
    ensures History(Response(200, JArr(seq(|ms|, i requires 0 <= i < |ms| => Encode(ms[i])))), now) == Some(ms)
  {
    var items := seq(|ms|, i requires 0 <= i < |ms| => Encode(ms[i]));
    assert JNull !in items by {
      forall i | 0 <= i < |items| ensures items[i] != JNull { assert items[i] == Encode(ms[i]); }
    }
    var r := FormatHistory(JArr(items), now);
    forall i | 0 <= i < |ms| ensures r.value[i] == ms[i] {
      NormaliseEncode(ms[i], now);
    }
    assert r.value == ms;
  }

  // ---------------------------------------------------------------- streaming into the placeholder

  /** What one callback does to the assistant message. */
  function Absorb(m: ChatMessage, e: Event): (r: ChatMessage)
    ensures r.role == m.role && r.timestamp == m.timestamp
  {
    match e
    case OnChunk(chunk) => m.(content := m.content + JsString(chunk))
    case OnSources(sources) => m.(sources := Some(sources))
    case OnError(error) => m.(content := "Error: " + JsString(error))
  }

  /** The assistant message after a run of callbacks. */
  function AbsorbAll(m: ChatMessage, events: seq<Event>): (r: ChatMessage)
    ensures r.role == m.role && r.timestamp == m.timestamp
    decreases |events|
  {
    if |events| == 0 then m else Absorb(AbsorbAll(m, events[..|events| - 1]), events[|events| - 1])
  }

  /** Replacing the last of `prior + [user, a]` by `b`. */
  lemma ReplaceLast(prior: seq<ChatMessage>, user: ChatMessage, a: ChatMessage, b: ChatMessage)
    ensures var ms := prior + [user, a];
      |ms| > 0 && ms[|ms| - 1] == a && ms[..|ms| - 1] + [b] == prior + [user, b]
  {
    var ms := prior + [user, a];
    assert ms[..|ms| - 1] == prior + [user];
  }

  /** The error state after a run of callbacks: the text of the last `onError`, if any. */
  function ErrorAfter(error: Option<string>, events: seq<Event>): Option<string>
    decreases |events|
  {
    if |events| == 0 then error
    else
      var before := ErrorAfter(error, events[..|events| - 1]);
      match events[|events| - 1]
      case OnError(e) => Some(JsString(e))
      case _ => before
  }

  /** The concatenation of strings. */
  function Concat(parts: seq<string>): string
    decreases |parts|
  {
    if |parts| == 0 then "" else Concat(parts[..|parts| - 1]) + parts[|parts| - 1]
  }

  /** Chunks only: the content is the original content followed by every chunk, in order. */
  lemma {:induction false} ChunksConcatenate(m: ChatMessage, parts: seq<string>)
    ensures AbsorbAll(m, seq(|parts|, i requires 0 <= i < |parts| => OnChunk(JStr(parts[i])))) ==
      m.(content := m.content + Concat(parts))
    decreases |parts|
  {
    var events := seq(|parts|, i requires 0 <= i < |parts| => OnChunk(JStr(parts[i])));
    if |parts| > 0 {
      var front := parts[..|parts| - 1];
      assert events[..|events| - 1] == seq(|front|, i requires 0 <= i < |front| => OnChunk(JStr(front[i])));
      ChunksConcatenate(m, front);
      assert m.content + Concat(front) + parts[|parts| - 1] == m.content + (Concat(front) + parts[|parts| - 1]);
    } else {
      assert m.content + "" == m.content;
    }
  }

  /** An `onError` replaces whatever the chunks so far had written; later chunks append to the error text. */
  lemma ErrorReplacesContent(m: ChatMessage, before: seq<Event>, e: Json, after: seq<string>)
    ensures var events := before + [OnError(e)] + seq(|after|, i requires 0 <= i < |after| => OnChunk(JStr(after[i])));
      AbsorbAll(m, events).content == "Error: " + JsString(e) + Concat(after)
  {
    var chunks := seq(|after|, i requires 0 <= i < |after| => OnChunk(JStr(after[i])));
    AbsorbAllConcat(m, before + [OnError(e)], chunks);
    var mid := AbsorbAll(m, before + [OnError(e)]);
    assert (before + [OnError(e)])[..|before + [OnError(e)]| - 1] == before;
    ChunksConcatenate(mid, after);
  }

  /** Absorbing `a + b` is absorbing `a`, then `b`. */
  lemma {:induction false} AbsorbAllConcat(m: ChatMessage, a: seq<Event>, b: seq<Event>)
    ensures AbsorbAll(m, a + b) == AbsorbAll(AbsorbAll(m, a), b)
    decreases |b|
  {
    if |b| == 0 {
      assert a + b == a;
    } else {
      assert (a + b)[..|a + b| - 1] == a + b[..|b| - 1];
      AbsorbAllConcat(m, a, b[..|b| - 1]);
    }
  }

  /** The sources of the answer are those of the last `onSources`; chunks and errors do not touch them. */
  lemma {:induction false} LastSourcesWin(m: ChatMessage, events: seq<Event>, k: nat)
    requires k < |events| && events[k].OnSources?
    requires forall j :: k < j < |events| ==> !events[j].OnSources?
    ensures AbsorbAll(m, events).sources == Some(events[k].sources)
    decreases |events|
  {
    if k < |events| - 1 {
      LastSourcesWin(m, events[..|events| - 1], k);
    }
  }

  // ---------------------------------------------------------------- the hook

  /** How the `streamChat` promise ends: normally, or by throwing an error with `message` ("" when it has none). */
  datatype StreamEnd = Finished | Threw(message: string)

  class ChatSession {
    const contextId: Option<string>
    var messages: seq<ChatMessage>
    var isLoading: bool
    var error: Option<string>
    var isStreaming: bool

    constructor (contextId: Option<string>)
      ensures this.contextId == contextId && messages == [] && isLoading && error.None? && !isStreaming
    {
      this.contextId := contextId;
      messages := [];
      isLoading := true;
      error := None;
      isStreaming := false;
    }

    predicate HasContext()
      reads this
    {
      contextId.Some? && contextId.value != ""
    }

    /**
     * The history effect, with the backend's answer `reply`. The history is read from the response body, as
     * the hook evidently intends (see `HistoryAsWritten`).
     */
    method FetchHistory(reply: Result<Response, ApiClient.Failure>, now: string)
      modifies this
      ensures !isLoading && isStreaming == old(isStreaming)
      ensures !HasContext() ==> messages == old(messages) && error == old(error)
      ensures HasContext() && reply.Ok? && History(reply.value, now).Some? ==>
        messages == History(reply.value, now).value && error.None?
      ensures HasContext() && reply.Ok? && History(reply.value, now).None? ==>
        messages == [] && error == Some(NullItemMessage)
      ensures HasContext() && reply.Err? ==>
        messages == [] && error == Some(ApiClient.ErrorText(reply.error, LoadFailedMessage))
    {
      if !HasContext() {
        isLoading := false;
        return;
      }
      isLoading := true;
      error := None;
      match reply {
        case Ok(response) =>
          var formatted := History(response, now);
          if formatted.Some? {
            messages := formatted.value;
          } else {
            error := Some(NullItemMessage);
            messages := [];
          }
        case Err(failure) =>
          error := Some(ApiClient.ErrorText(failure, LoadFailedMessage));
          messages := [];
      }
      isLoading := false;
    }

    /** `onChunk`: appended to the last message, if that is an assistant message. */
    method ReceiveChunk(chunk: Json)
      modifies this
      ensures |messages| == |old(messages)| && error == old(error) && isStreaming == old(isStreaming)
      ensures isLoading == old(isLoading)
      ensures |old(messages)| > 0 && old(messages)[|old(messages)| - 1].role == AssistantRole ==>
        messages == old(messages)[..|old(messages)| - 1] + [Absorb(old(messages)[|old(messages)| - 1], OnChunk(chunk))]
      ensures !(|old(messages)| > 0 && old(messages)[|old(messages)| - 1].role == AssistantRole) ==>
        messages == old(messages)
    {
      if |messages| > 0 && messages[|messages| - 1].role == AssistantRole {
        var last := messages[|messages| - 1];
        messages := messages[..|messages| - 1] + [last.(content := last.content + JsString(chunk))];
      }
    }

    /** `onSources`: the last assistant message's sources are overwritten. */
    method ReceiveSources(sources: Json)
      modifies this
      ensures |messages| == |old(messages)| && error == old(error) && isStreaming == old(isStreaming)
      ensures isLoading == old(isLoading)
      ensures |old(messages)| > 0 && old(messages)[|old(messages)| - 1].role == AssistantRole ==>
        messages == old(messages)[..|old(messages)| - 1] + [Absorb(old(messages)[|old(messages)| - 1], OnSources(sources))]
      ensures !(|old(messages)| > 0 && old(messages)[|old(messages)| - 1].role == AssistantRole) ==>
        messages == old(messages)
    {
      if |messages| > 0 && messages[|messages| - 1].role == AssistantRole {
        var last := messages[|messages| - 1];
        messages := messages[..|messages| - 1] + [last.(sources := Some(sources))];
      }
    }

    /** `onError`: the error is recorded and replaces the last assistant message's content. */
    method ReceiveError(errorValue: Json)
      modifies this
      ensures |messages| == |old(messages)| && isStreaming == old(isStreaming) && isLoading == old(isLoading)
      ensures error == Some(JsString(errorValue))
      ensures |old(messages)| > 0 && old(messages)[|old(messages)| - 1].role == AssistantRole ==>
        messages == old(messages)[..|old(messages)| - 1] + [Absorb(old(messages)[|old(messages)| - 1], OnError(errorValue))]
      ensures !(|old(messages)| > 0 && old(messages)[|old(messages)| - 1].role == AssistantRole) ==>
        messages == old(messages)
    {
      error := Some(JsString(errorValue));
      if |messages| > 0 && messages[|messages| - 1].role == AssistantRole {
        var last := messages[|messages| - 1];
        messages := messages[..|messages| - 1] + [last.(content := "Error: " + JsString(errorValue))];
      }
    }

    /** The user's message as it is appended. */
    static function UserMessage(text: string, now: string): ChatMessage {
      ChatMessage(UserRole, Trim(text), None, Some(now))
    }

    /** The assistant placeholder the stream writes into. */
    static function Placeholder(now: string): ChatMessage {
      ChatMessage(AssistantRole, "", None, Some(now))
    }

    /** Whether `sendMessage(text)` does anything. */
    function SendAllowed(text: string): (allowed: bool)
      reads this
      ensures allowed <==> Trim(text) != "" && HasContext() && !isStreaming
    {
      !IsBlank(text) && HasContext() && !isStreaming
    }

    /**
     * `sendMessage(text)`: `delivered` are the callbacks `streamChat` makes before it ends as `end`. On success
     * the transcript is the old one, the trimmed user message and the placeholder with every callback folded in;
     * when the stream throws, both new messages are dropped and the error is rethrown.
     */
    method SendMessage(text: string, now: string, delivered: seq<Event>, end: StreamEnd)
      returns (out: Result<(), string>)
      modifies this
      ensures !old(SendAllowed(text)) ==>
        out == Ok(()) && messages == old(messages) && error == old(error) && isStreaming == old(isStreaming)
      ensures old(SendAllowed(text)) ==> !isStreaming
      ensures old(SendAllowed(text)) && end.Finished? ==>
        out == Ok(()) &&
        messages == old(messages) + [UserMessage(text, now), AbsorbAll(Placeholder(now), delivered)] &&
        error == ErrorAfter(None, delivered)
      ensures old(SendAllowed(text)) && end.Threw? ==>
        var message := if end.message != "" then end.message else SendFailedMessage;
        out == Err(message) && messages == old(messages) && error == Some(message)
      ensures isLoading == old(isLoading)
    {
      if !SendAllowed(text) {
        return Ok(());
      }
      ghost var prior := messages;
      var user := UserMessage(text, now);
      messages := messages + [user];
      var placeholder := Placeholder(now);
      messages := messages + [placeholder];
      isStreaming := true;
      error := None;

      var k := 0;
      while k < |delivered|
        invariant 0 <= k <= |delivered|
        invariant messages == prior + [user, AbsorbAll(placeholder, delivered[..k])]
        invariant error == ErrorAfter(None, delivered[..k])
        invariant isStreaming && isLoading == old(isLoading)
      {
        assert delivered[..k + 1][..k] == delivered[..k];
        ghost var current := AbsorbAll(placeholder, delivered[..k]);
        ReplaceLast(prior, user, current, Absorb(current, delivered[k]));
        match delivered[k] {
          case OnChunk(chunk) =>
            ReceiveChunk(chunk);
          case OnSources(sources) =>
            ReceiveSources(sources);
          case OnError(e) =>
            ReceiveError(e);
        }
        k := k + 1;
      }
      assert delivered[..k] == delivered;

      match end {
        case Finished =>
          out := Ok(());
        case Threw(message) =>
          var shown := if message != "" then message else SendFailedMessage;
          error := Some(shown);
          messages := SliceTo(messages, -2);
          assert messages == prior;
          out := Err(shown);
      }
      isStreaming := false;
    }

    /**
     * `clearChat()` with the backend's answer `reply`: the transcript goes only when the backend agrees; a failure
     * is rethrown as it came.
     */
    method ClearChat(reply: Result<(), ApiClient.Failure>) returns (out: Result<(), ApiClient.Failure>)
      modifies this
      ensures !HasContext() ==> out == Ok(()) && messages == old(messages) && error == old(error)
      ensures HasContext() && reply.Ok? ==> out == Ok(()) && messages == [] && error.None?
      ensures HasContext() && reply.Err? ==>
        out == Err(reply.error) && messages == old(messages) &&
        error == Some(ApiClient.ErrorText(reply.error, ClearFailedMessage))
      ensures isStreaming == old(isStreaming) && isLoading == old(isLoading)
    {
      if !HasContext() {
        return Ok(());
      }
      match reply
      case Ok(_) =>
        messages := [];
        error := None;
        out := Ok(());
      case Err(failure) =>
        error := Some(ApiClient.ErrorText(failure, ClearFailedMessage));
        out := Err(failure);
    }
  }
}
