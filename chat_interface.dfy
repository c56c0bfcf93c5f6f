/**
 * The chat panel of components/ChatInterface.tsx: a transcript, the text box and a loading flag. A send appends
 * the user's message at once and keeps it only when the backend answers with a string. The backend's answer to
 * the send is an input; every call of the `onSourcesUpdate` prop is recorded.
 */
module ChatInterface {
  import opened Base
  import opened Strings
  import opened JsonValues
  import opened Types
  import opened Http
  import ApiClient

  /** The request `handleSend` makes: the context, the trimmed text and the history before the new message. */
  datatype SendRequest = SendRequest(contextId: string, message: string, history: seq<ChatMessage>)

  /** The answer text of a reply, when it is a string: `typeof response.data.response === 'string'`. */
  function AnswerText(reply: Result<Response, ApiClient.Failure>): (r: Option<string>)
    ensures r.Some? <==> reply.Ok? && Get(reply.value.data, "response").Some? && Get(reply.value.data, "response").value.JStr?
    ensures r.Some? ==> Get(reply.value.data, "response") == Some(JStr(r.value))
  {
    if reply.Ok? && Get(reply.value.data, "response").Some? && Get(reply.value.data, "response").value.JStr? then
      Some(Get(reply.value.data, "response").value.s)
    else None
  }

  class ChatPanel {
    const contextId: string
    var messages: seq<ChatMessage>
    var input: string
    var isLoading: bool
    /** The arguments of every `onSourcesUpdate` call so far (`None` for `undefined`). */
    var sourcesUpdates: seq<Option<Json>>

    constructor (contextId: string)
      ensures this.contextId == contextId && messages == [] && input == "" && !isLoading && sourcesUpdates == []
    {
      this.contextId := contextId;
      messages := [];
      input := "";
      isLoading := false;
      sourcesUpdates := [];
    }

    /** Typing into the text box. */
    method SetInput(text: string)
      modifies this
      ensures input == text && messages == old(messages) && isLoading == old(isLoading)
      ensures sourcesUpdates == old(sourcesUpdates)
    {
      input := text;
    }

    /** Whether `handleSend` does anything. */
    function SendAllowed(): (allowed: bool)
      reads this
      ensures allowed <==> Trim(input) != "" && !isLoading
    {
      !IsBlank(input) && !isLoading
    }

    /**
     * `handleSend()`, with the backend's answer `reply`. The request made (if any) is returned. A string answer
     * extends the transcript by the user message and the answer and passes the answer's sources on; any other
     * answer, and a failure, puts the old transcript back.
     */
    method HandleSend(reply: Result<Response, ApiClient.Failure>) returns (request: Option<SendRequest>)
      modifies this
      ensures !old(SendAllowed()) ==>
        request.None? && messages == old(messages) && input == old(input) && isLoading == old(isLoading) &&
        sourcesUpdates == old(sourcesUpdates)
      ensures old(SendAllowed()) ==>
        request == Some(SendRequest(contextId, Trim(old(input)), old(messages))) && input == "" && !isLoading
      ensures old(SendAllowed()) && AnswerText(reply).Some? ==>
        messages == old(messages) + [ChatMessage(UserRole, Trim(old(input)), None, None),
                                     ChatMessage(AssistantRole, AnswerText(reply).value, None, None)] &&
        sourcesUpdates == old(sourcesUpdates) + [Get(reply.value.data, "sources")]
      ensures old(SendAllowed()) && AnswerText(reply).None? ==>
        messages == old(messages) && sourcesUpdates == old(sourcesUpdates)
    {
      if IsBlank(input) || isLoading {
        return None;
      }
      var prior := messages;
      var text := Trim(input);
      var user := ChatMessage(UserRole, text, None, None);
      var extended := prior + [user];
      messages := extended;
      input := "";
      isLoading := true;
      request := Some(SendRequest(contextId, text, prior));

      var answer := AnswerText(reply);
      if answer.None? {
        messages := prior;
      } else {
        messages := extended + [ChatMessage(AssistantRole, answer.value, None, None)];
        sourcesUpdates := sourcesUpdates + [Get(reply.value.data, "sources")];
      }
      isLoading := false;
    }

    /** `handleKeyPress`: Enter without Shift sends; every other key does nothing. */
    method HandleKeyPress(key: string, shiftKey: bool, reply: Result<Response, ApiClient.Failure>)
      returns (request: Option<SendRequest>)
      modifies this
      ensures !(key == "Enter" && !shiftKey) ==>
        request.None? && messages == old(messages) && input == old(input) && isLoading == old(isLoading) &&
        sourcesUpdates == old(sourcesUpdates)
      // Enter without Shift: exactly what `handleSend()` does.
      ensures key == "Enter" && !shiftKey && !old(SendAllowed()) ==>
        request.None? && messages == old(messages) && input == old(input) && isLoading == old(isLoading) &&
        sourcesUpdates == old(sourcesUpdates)
      ensures key == "Enter" && !shiftKey && old(SendAllowed()) ==>
        request == Some(SendRequest(contextId, Trim(old(input)), old(messages))) && input == "" && !isLoading
      ensures key == "Enter" && !shiftKey && old(SendAllowed()) && AnswerText(reply).Some? ==>
        messages == old(messages) + [ChatMessage(UserRole, Trim(old(input)), None, None),
                                     ChatMessage(AssistantRole, AnswerText(reply).value, None, None)] &&
        sourcesUpdates == old(sourcesUpdates) + [Get(reply.value.data, "sources")]
      ensures key == "Enter" && !shiftKey && old(SendAllowed()) && AnswerText(reply).None? ==>
        messages == old(messages) && sourcesUpdates == old(sourcesUpdates)
    {
      request := None;
      if key == "Enter" && !shiftKey {
        request := HandleSend(reply);
      }
    }
  }
}
