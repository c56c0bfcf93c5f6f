/**
 * The zustand application store of lib/app-store.ts. zustand's `set` merges a partial object into the current
 * state, so every action is a datatype update of the one `state` value: the fields it names change, the
 * others stay as they were.
 */
module AppStore {
  import opened Base
  import opened Types
  import opened JsonValues
  import opened Lists

  /** The store's state; `user` is the record as it was handed to `setAuth`. */
  datatype AppState = AppState(
    user: Option<Json>,
    isAuthenticated: bool,
    token: Option<string>,
    refreshToken: Option<string>,
    contexts: seq<Context>,
    currentContext: Option<Context>,
    documents: seq<Document>,
    messages: seq<ChatMessage>,
    isStreaming: bool,
    isLoading: bool,
    error: Option<string>)

  /** The store's initial state. */
  const Initial := AppState(None, false, None, None, [], None, [], [], false, false, None)

  /** `contexts.filter(c => c.id !== id)`. */
  function WithoutContext(contexts: seq<Context>, id: string): (r: seq<Context>)
    ensures forall c :: c in r <==> c in contexts && c.id != id
  {
    Filter(contexts, (c: Context) => c.id != id)
  }

  /** `documents.filter(d => d.id !== id)`. */
  function WithoutDocument(documents: seq<Document>, id: string): (r: seq<Document>)
    ensures forall d :: d in r <==> d in documents && d.id != id
  {
    Filter(documents, (d: Document) => d.id != id)
  }

  /** Removing an id twice removes nothing more. */
  lemma {:induction false} WithoutContextIdempotent(contexts: seq<Context>, id: string)
    ensures WithoutContext(WithoutContext(contexts, id), id) == WithoutContext(contexts, id)
  {
    FilterAll(WithoutContext(contexts, id), (c: Context) => c.id != id);
  }

  /** Removal keeps the order of the rest: removing from a concatenation removes from each part. */
  lemma WithoutContextConcat(a: seq<Context>, b: seq<Context>, id: string)
    ensures WithoutContext(a + b, id) == WithoutContext(a, id) + WithoutContext(b, id)
  {
    FilterConcat(a, b, (c: Context) => c.id != id);
  }

  /** Removing an id that no context carries leaves the list as it is. */
  lemma WithoutAbsentContext(contexts: seq<Context>, id: string)
    requires forall c :: c in contexts ==> c.id != id
    ensures WithoutContext(contexts, id) == contexts
  {
    FilterAll(contexts, (c: Context) => c.id != id);
  }

  class AppStore {
    var state: AppState

    constructor ()
      ensures state == Initial
    {
      state := Initial;
    }

    /**
     * `setAuth(token, refreshToken, user)`: the three values as given (`None` for `undefined`), and
     * `isAuthenticated` is `!!token`.
     */
    method SetAuth(token: Option<string>, refreshToken: Option<string>, user: Option<Json>)
      modifies this
      ensures state == old(state).(token := token, refreshToken := refreshToken, user := user,
                                   isAuthenticated := token.Some? && token.value != "")
    {
      state := state.(token := token, refreshToken := refreshToken, user := user,
                      isAuthenticated := token.Some? && token.value != "");
    }

    /** `clearAuth()`: the auth fields only; contexts, documents and messages stay. */
    method ClearAuth()
      modifies this
      ensures state == old(state).(token := None, refreshToken := None, user := None, isAuthenticated := false)
      ensures state.contexts == old(state.contexts) && state.documents == old(state.documents)
      ensures state.messages == old(state.messages)
    {
      state := state.(token := None, refreshToken := None, user := None, isAuthenticated := false);
    }

    method SetContexts(contexts: seq<Context>)
      modifies this
      ensures state == old(state).(contexts := contexts)
    {
      state := state.(contexts := contexts);
    }

    method SetCurrentContext(context: Option<Context>)
      modifies this
      ensures state == old(state).(currentContext := context)
    {
      state := state.(currentContext := context);
    }

    /** `addContext(context)`: appended at the end. */
    method AddContext(context: Context)
      modifies this
      ensures state == old(state).(contexts := old(state.contexts) + [context])
      ensures state.contexts[..|old(state.contexts)|] == old(state.contexts)
    {
      state := state.(contexts := state.contexts + [context]);
    }

    /** `updateContext(context)`: every context with the same id is replaced; length and order are kept. */
    method UpdateContext(context: Context)
      modifies this
      ensures state == old(state).(contexts := ReplaceWhere(old(state.contexts), (c: Context) => c.id == context.id, context))
      ensures |state.contexts| == |old(state.contexts)|
      ensures forall i :: 0 <= i < |state.contexts| ==>
        state.contexts[i] == (if old(state.contexts)[i].id == context.id then context else old(state.contexts)[i])
    {
      state := state.(contexts := ReplaceWhere(state.contexts, (c: Context) => c.id == context.id, context));
    }

    /** `deleteContext(id)`. */
    method DeleteContext(id: string)
      modifies this
      ensures state == old(state).(contexts := WithoutContext(old(state.contexts), id))
    {
      state := state.(contexts := WithoutContext(state.contexts, id));
    }

    method SetDocuments(documents: seq<Document>)
      modifies this
      ensures state == old(state).(documents := documents)
    {
      state := state.(documents := documents);
    }

    /** `addDocument(document)`: appended at the end. */
    method AddDocument(document: Document)
      modifies this
      ensures state == old(state).(documents := old(state.documents) + [document])
    {
      state := state.(documents := state.documents + [document]);
    }

    /** `deleteDocument(id)`. */
    method DeleteDocument(id: string)
      modifies this
      ensures state == old(state).(documents := WithoutDocument(old(state.documents), id))
    {
      state := state.(documents := WithoutDocument(state.documents, id));
    }

    method SetMessages(messages: seq<ChatMessage>)
      modifies this
      ensures state == old(state).(messages := messages)
    {
      state := state.(messages := messages);
    }

    /** `addMessage(message)`: appended at the end. */
    method AddMessage(message: ChatMessage)
      modifies this
      ensures state == old(state).(messages := old(state.messages) + [message])
    {
      state := state.(messages := state.messages + [message]);
    }

    /** `clearHistory()`: only the messages go. */
    method ClearHistory()
      modifies this
      ensures state == old(state).(messages := [])
    {
      state := state.(messages := []);
    }

    method SetStreaming(isStreaming: bool)
      modifies this
      ensures state == old(state).(isStreaming := isStreaming)
    {
      state := state.(isStreaming := isStreaming);
    }

    method SetLoading(isLoading: bool)
      modifies this
      ensures state == old(state).(isLoading := isLoading)
    {
      state := state.(isLoading := isLoading);
    }

    method SetError(error: Option<string>)
      modifies this
      ensures state == old(state).(error := error)
    {
      state := state.(error := error);
    }
  }
}
