/**
 * The dashboard of app/page.tsx: the user's contexts, loaded on mount and deletable one at a time after a
 * confirm dialog. Backend answers and the user's answer to the dialog are inputs.
 */
module Dashboard {
  import opened Base
  import opened Types
  import AppStore
  import ApiClient

  /** The text of the confirm dialog for deleting `name`. */
  function DeletePrompt(name: string): string {
    "Are you sure you want to delete \"" + name + "\"?"
  }

  class DashboardPage {
    var contexts: seq<Context>
    var isLoading: bool
    /** The prompt of every confirm dialog shown so far. */
    var prompts: seq<string>

    constructor ()
      ensures contexts == [] && isLoading && prompts == []
    {
      contexts := [];
      isLoading := true;
      prompts := [];
    }

    /** `fetchContexts()`: a success replaces the list, a failure keeps it; loading ends either way. */
    method FetchContexts(reply: Result<seq<Context>, ApiClient.Failure>)
      modifies this
      ensures contexts == (if reply.Ok? then reply.value else old(contexts))
      ensures !isLoading && prompts == old(prompts)
    {
      if reply.Ok? {
        contexts := reply.value;
      }
      isLoading := false;
    }

    /**
     * `handleDeleteContext(id, name)`: `confirmed` is the user's answer, `reply` the backend's. A cancelled
     * dialog makes no call; the result says whether the backend was called.
     */
    method HandleDeleteContext(id: string, name: string, confirmed: bool, reply: Result<(), ApiClient.Failure>)
      returns (called: bool)
      modifies this
      ensures prompts == old(prompts) + [DeletePrompt(name)]
      ensures called == confirmed
      ensures contexts == (if confirmed && reply.Ok? then AppStore.WithoutContext(old(contexts), id) else old(contexts))
      ensures isLoading == old(isLoading)
    {
      prompts := prompts + [DeletePrompt(name)];
      if !confirmed {
        return false;
      }
      called := true;
      if reply.Ok? {
        contexts := AppStore.WithoutContext(contexts, id);
      }
    }
  }
}
