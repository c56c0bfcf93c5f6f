/**
 * The "create context" dialog of components/CreateContextModal.tsx: a name, one PDF, a loading flag and an error
 * line. The backend's answer to the create request is an input; the `onSuccess` and `onOpenChange` calls are
 * recorded.
 */
module CreateContextModal {
  import opened Base
  import opened Strings
  import opened JsonValues
  import Types
  import ApiClient

  const PdfType := "application/pdf"
  const PdfExtension := ".pdf"
  /** 10 MiB: the largest accepted file, in bytes. */
  const MaxFileBytes := 10 * 1024 * 1024

  const OnlyPdfMessage := "Only PDF files are allowed"
  const TooLargeMessage := "File size must be less than 10MB"
  const NameRequiredMessage := "Please enter a context name"
  const FileRequiredMessage := "Please select a PDF file"
  const CreateFailedMessage := "Failed to create context"

  /** Why a dropped file is refused, if it is: the type is checked before the size. */
  function DropError(f: Types.BrowserFile): (r: Option<string>)
    ensures r == Some(OnlyPdfMessage) <==> f.mimeType != PdfType
    ensures r == Some(TooLargeMessage) <==> f.mimeType == PdfType && f.size > MaxFileBytes
    ensures r.None? <==> f.mimeType == PdfType && f.size <= MaxFileBytes
  {
    if f.mimeType != PdfType then Some(OnlyPdfMessage)
    else if f.size > MaxFileBytes then Some(TooLargeMessage)
    else None
  }

  /** The name proposed for a file: its name with the first `.pdf` taken out. */
  function AutoName(fileName: string): string {
    ReplaceFirst(fileName, PdfExtension, "")
  }

  /** A name that ends in its only `.pdf` loses exactly that extension. */
  lemma AutoNameStripsExtension(base: string)
    requires IndexOf(base, PdfExtension).None?
    ensures AutoName(base + PdfExtension) == base
  {
    var s := base + PdfExtension;
    assert OccursAt(s, PdfExtension, |base|) by {
      assert s[|base|..|base| + 4] == PdfExtension;
    }
    forall k: nat | k < |base| ensures !OccursAt(s, PdfExtension, k) {
      if k + 4 <= |base| {
        assert s[k..k + 4] == base[k..k + 4];
        assert !OccursAt(base, PdfExtension, k);
      } else {
        // The only '.' of the extension would have to meet the extension's own 'p', 'd' or 'f'.
        assert s[|base|] == '.';
        assert PdfExtension[|base| - k] != '.';
        assert s[k..k + 4][|base| - k] == s[|base|];
      }
    }
    var i := IndexOf(s, PdfExtension);
    assert i == Some(|base|);
    assert s[|base| + |PdfExtension|..] == [];
    assert s[..|base|] == base;
  }

  /** The first validation `handleSubmit` fails, if any: a blank name is reported before a missing file. */
  function SubmitError(name: string, file: Option<Types.BrowserFile>): (r: Option<string>)
    ensures IsBlank(name) <==> r == Some(NameRequiredMessage)
    ensures !IsBlank(name) && file.None? <==> r == Some(FileRequiredMessage)
    ensures r.None? <==> !IsBlank(name) && file.Some?
  {
    if IsBlank(name) then Some(NameRequiredMessage)
    else if file.None? then Some(FileRequiredMessage)
    else None
  }

  /** The submit button's `disabled`. */
  predicate SubmitDisabled(isLoading: bool, name: string, file: Option<Types.BrowserFile>) {
    isLoading || file.None? || IsBlank(name)
  }

  /** Out of loading, the button is enabled exactly when a submit would pass validation. */
  lemma SubmitDisabledIffInvalid(name: string, file: Option<Types.BrowserFile>)
    ensures SubmitDisabled(false, name, file) <==> SubmitError(name, file).Some?
  {
    if SubmitError(name, file).None? {
      assert !IsBlank(name) && file.Some?;
    }
  }

  /** The request `createContext` makes: the trimmed name and the file. */
  datatype CreateRequest = CreateRequest(name: string, file: Types.BrowserFile)

  class CreateContextForm {
    var name: string
    var file: Option<Types.BrowserFile>
    var isLoading: bool
    var error: string
    /** How often `onSuccess` has been called. */
    var successCalls: nat
    /** The arguments of every `onOpenChange` call so far. */
    var openChanges: seq<bool>

    constructor ()
      ensures name == "" && file.None? && !isLoading && error == "" && successCalls == 0 && openChanges == []
    {
      name := "";
      file := None;
      isLoading := false;
      error := "";
      successCalls := 0;
      openChanges := [];
    }

    method SetName(text: string)
      modifies this
      ensures name == text && file == old(file) && error == old(error) && isLoading == old(isLoading)
      ensures successCalls == old(successCalls) && openChanges == old(openChanges)
    {
      name := text;
    }

    /** `onDrop(acceptedFiles)`: only the first file is looked at. */
    method OnDrop(accepted: seq<Types.BrowserFile>)
      modifies this
      ensures |accepted| == 0 ==> name == old(name) && file == old(file) && error == old(error)
      ensures |accepted| > 0 && DropError(accepted[0]).Some? ==>
        name == old(name) && file == old(file) && error == DropError(accepted[0]).value
      ensures |accepted| > 0 && DropError(accepted[0]).None? ==>
        file == Some(accepted[0]) && error == "" &&
        name == (if old(name) == "" then AutoName(accepted[0].name) else old(name))
      ensures isLoading == old(isLoading) && successCalls == old(successCalls) && openChanges == old(openChanges)
    {
      if |accepted| == 0 {
        return;
      }
      var selected := accepted[0];
      if selected.mimeType != PdfType {
        error := OnlyPdfMessage;
        return;
      }
      if selected.size > MaxFileBytes {
        error := TooLargeMessage;
        return;
      }
      file := Some(selected);
      error := "";
      if name == "" {
        name := AutoName(selected.name);
      }
    }

    /** `removeFile()`. */
    method RemoveFile()
      modifies this
      ensures file.None? && error == "" && name == old(name) && isLoading == old(isLoading)
      ensures successCalls == old(successCalls) && openChanges == old(openChanges)
    {
      file := None;
      error := "";
    }

    /**
     * `handleSubmit()`, with the backend's answer `reply`; the request made, if any, is returned. A failed
     * validation sends nothing; success resets the form and closes the dialog.
     */
    method HandleSubmit(reply: Result<Json, ApiClient.Failure>) returns (request: Option<CreateRequest>)
      modifies this
      ensures var invalid := SubmitError(old(name), old(file));
        invalid.Some? ==>
          request.None? && error == invalid.value && name == old(name) && file == old(file) &&
          isLoading == old(isLoading) && successCalls == old(successCalls) && openChanges == old(openChanges)
      ensures SubmitError(old(name), old(file)).None? ==>
        request == Some(CreateRequest(Trim(old(name)), old(file).value)) && !isLoading
      ensures SubmitError(old(name), old(file)).None? && reply.Ok? ==>
        name == "" && file.None? && error == "" &&
        successCalls == old(successCalls) + 1 && openChanges == old(openChanges) + [false]
      ensures SubmitError(old(name), old(file)).None? && reply.Err? ==>
        name == old(name) && file == old(file) && error == ApiClient.DetailOr(reply.error, CreateFailedMessage) &&
        successCalls == old(successCalls) && openChanges == old(openChanges)
    {
      if IsBlank(name) {
        error := NameRequiredMessage;
        return None;
      }
      if file.None? {
        error := FileRequiredMessage;
        return None;
      }
      isLoading := true;
      error := "";
      request := Some(CreateRequest(Trim(name), file.value));
      match reply {
        case Ok(_) =>
          name := "";
          file := None;
          error := "";
          successCalls := successCalls + 1;
          openChanges := openChanges + [false];
        case Err(failure) =>
          error := ApiClient.DetailOr(failure, CreateFailedMessage);
      }
      isLoading := false;
    }
  }
}
