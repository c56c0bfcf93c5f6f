/**
 * The document table of components/DocumentList.tsx: the documents of one context, a search box that filters
 * them by file name, per-row delete and a status badge. Backend answers and the user's answer to the confirm
 * dialog are inputs.
 */
module DocumentList {
  import opened Base
  import opened Strings
  import opened Types
  import opened Lists
  import AppStore
  import ApiClient

  /** A row is shown when its lower-cased file name contains the lower-cased query. */
  predicate Matches(query: string, d: Document) {
    Contains(Lower(d.filename), Lower(query))
  }

  /** `filteredDocuments`: the matching documents, in their original order. */
  function FilteredDocuments(documents: seq<Document>, query: string): (r: seq<Document>)
    ensures forall d :: d in r <==> d in documents && Matches(query, d)
  {
    Filter(documents, (d: Document) => Matches(query, d))
  }

  /** An empty query shows every document. */
  lemma EmptyQueryShowsAll(documents: seq<Document>)
    ensures FilteredDocuments(documents, "") == documents
  {
    forall d | d in documents ensures Matches("", d) {
      ContainsEmpty(Lower(d.filename));
    }
    FilterAll(documents, (d: Document) => Matches("", d));
  }

  /** The search ignores the case of the query. */
  lemma SearchIgnoresQueryCase(documents: seq<Document>, query: string)
    ensures FilteredDocuments(documents, Lower(query)) == FilteredDocuments(documents, query)
  {
    LowerIdempotent(query);
    FilterCongruent(documents, (d: Document) => Matches(Lower(query), d), (d: Document) => Matches(query, d));
  }

  /** The badge a status string gets. */
  datatype Badge = PendingBadge | ProcessingBadge | CompletedBadge | FailedBadge | UnknownBadge {
    function Label(): string {
      match this
      case PendingBadge => "Pending"
      case ProcessingBadge => "Processing"
      case CompletedBadge => "Completed"
      case FailedBadge => "Failed"
      case UnknownBadge => "Unknown"
    }
  }

  function BadgeFor(status: DocumentStatus): Badge {
    match status
    case Pending => PendingBadge
    case Processing => ProcessingBadge
    case Completed => CompletedBadge
    case Failed => FailedBadge
  }

  /** `getStatusBadge(status)`: each of the four wire names has its badge; anything else is Unknown. */
  function StatusBadge(status: string): (r: Badge)
    ensures forall st: DocumentStatus :: status == st.Name() ==> r == BadgeFor(st)
    ensures r == UnknownBadge <==> forall st: DocumentStatus :: status != st.Name()
  {
    if status == Pending.Name() then PendingBadge
    else if status == Processing.Name() then ProcessingBadge
    else if status == Completed.Name() then CompletedBadge
    else if status == Failed.Name() then FailedBadge
    else UnknownBadge
  }

  /** The text of the confirm dialog before a document is deleted. */
  const DeletePrompt := "Are you sure you want to delete this document?"

  class DocumentListView {
    const contextId: string
    var documents: seq<Document>
    var isLoading: bool
    var searchQuery: string
    /** The prompt of every confirm dialog shown so far. */
    var prompts: seq<string>

    constructor (contextId: string)
      ensures this.contextId == contextId && documents == [] && isLoading && searchQuery == "" && prompts == []
    {
      prompts := [];
      this.contextId := contextId;
      documents := [];
      isLoading := true;
      searchQuery := "";
    }

    /** The rows on screen. */
    function Visible(): (r: seq<Document>)
      reads this
      ensures forall d :: d in r <==> d in documents && Matches(searchQuery, d)
    {
      FilteredDocuments(documents, searchQuery)
    }

    method SetSearchQuery(query: string)
      modifies this
      ensures searchQuery == query && documents == old(documents) && isLoading == old(isLoading)
      ensures prompts == old(prompts)
    {
      searchQuery := query;
    }

    /** `fetchDocuments()`: a success replaces the list, a failure keeps it; loading ends either way. */
    method FetchDocuments(reply: Result<seq<Document>, ApiClient.Failure>)
      modifies this
      ensures documents == (if reply.Ok? then reply.value else old(documents))
      ensures !isLoading && searchQuery == old(searchQuery) && prompts == old(prompts)
    {
      if reply.Ok? {
        documents := reply.value;
      }
      isLoading := false;
    }

    /**
     * `handleDeleteDocument(id)`: `confirmed` is the user's answer, `reply` the backend's. The list changes only
     * after both agree; the result says whether the backend was called.
     */
    method HandleDeleteDocument(id: string, confirmed: bool, reply: Result<(), ApiClient.Failure>)
      returns (called: bool)
      modifies this
      ensures prompts == old(prompts) + [DeletePrompt]
      ensures called == confirmed
      ensures documents == (if confirmed && reply.Ok? then AppStore.WithoutDocument(old(documents), id) else old(documents))
      ensures isLoading == old(isLoading) && searchQuery == old(searchQuery)
    {
      prompts := prompts + [DeletePrompt];
      if !confirmed {
        return false;
      }
      called := true;
      if reply.Ok? {
        documents := AppStore.WithoutDocument(documents, id);
      }
    }
  }
}
