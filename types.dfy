/** The entities the front end exchanges with the backend (lib/types.ts). */
module Types {
  import opened Base
  import opened JsonValues

  datatype User = User(id: string, fullName: string, email: string, avatarUrl: Option<string>)

  /** A chat context: a named collection of documents owned by a user. */
  datatype Context = Context(id: string, name: string, createdAt: string, userId: string, documentCount: int)

  /** A document passage cited by an answer. */
  datatype Source = Source(filename: string, contentPreview: string, downloadUrl: string)

  /**
   * A browser `File`: `handle` stands for the object's identity, so two files alike in name, size and type are
   * still told apart, as `===` tells them apart.
   */
  datatype BrowserFile = BrowserFile(handle: nat, name: string, size: int, mimeType: string)

  /** The two roles a chat message has in this front end. */
  const UserRole := "user"
  const AssistantRole := "assistant"

  /**
   * A chat message. `role` is normally one of the two roles above; `sources` is the value the backend sent for
   * the answer's sources (a list of `Source` records), kept as received because no code here inspects it.
   * `timestamp` is absent from the messages the chat component builds.
   */
  datatype ChatMessage = ChatMessage(role: string, content: string, sources: Option<Json>, timestamp: Option<string>)

  datatype DocumentStatus = Pending | Processing | Completed | Failed {
    /** The wire value of the status. */
    function Name(): string {
      match this
      case Pending => "PENDING"
      case Processing => "PROCESSING"
      case Completed => "COMPLETED"
      case Failed => "FAILED"
    }
  }

  /** A document; `status` is the wire string, which need not be one of the four known values. */
  datatype Document = Document(id: string, filename: string, createdAt: string, status: string, downloadUrl: string)

  /** The wire names of the statuses are pairwise distinct, so a status string names at most one status. */
  lemma StatusNamesDistinct(a: DocumentStatus, b: DocumentStatus)
    ensures a.Name() == b.Name() <==> a == b
  {
    if a != b {
      assert a.Name()[0] != b.Name()[0] || a.Name()[1] != b.Name()[1];
    }
  }
}
