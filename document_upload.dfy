/**
 * The upload-document page: its zod schema, its default values, the file
 * picker, the rule that enables the Upload button and the simulated upload.
 */
module UploadDocument {
  import opened Wrappers
  import opened Text
  import opened Forms

  datatype UploadForm = UploadForm(
    name: string,
    category: Option<string>,
    expiryDate: Option<string>,
    document: Option<FileRef>)

  /** The keys of `formSchema`. */
  datatype UploadField = Name | Category | ExpiryDate | Document

  /** `formSchema`: `category` only has to be present; `expiryDate` and `document` are optional. */
  function Issues(f: UploadForm): (r: seq<Issue<UploadField>>)
    ensures Flagged(r, Name) <==> Utf16Length(f.name) < 2
    ensures Flagged(r, Category) <==> f.category.None?
    ensures !Flagged(r, ExpiryDate) && !Flagged(r, Document)
  {
    var name := Check(MinLength(f.name, 2), Name, "Document name must be at least 2 characters.");
    var category := Check(f.category.Some?, Category, "Please select a category.");
    FlaggedAppend(name, category);
    name + category
  }

  predicate Valid(f: UploadForm) {
    Issues(f) == []
  }

  lemma ValidIff(f: UploadForm)
    ensures Valid(f) <==> Utf16Length(f.name) >= 2 && f.category.Some?
  {
  }

  /** No value of `expiryDate` or `document`, nor their absence, changes the verdict. */
  lemma OptionalFieldsIgnored(f: UploadForm, expiry: Option<string>, document: Option<FileRef>)
    ensures Issues(f.(expiryDate := expiry, document := document)) == Issues(f)
  {
  }

  const DefaultForm := UploadForm("", Some(""), Some(""), None)

  /** Of the defaults only the empty name is rejected: the empty category passes. */
  lemma DefaultFormIssues()
    ensures Issues(DefaultForm) == [Issue(Name, "Document name must be at least 2 characters.")]
    ensures Issues(DefaultForm.(name := "ab")) == []
  {
    assert MinLength("ab", 2) by { MinLengthOfChars("ab", 2); }
  }

  class UploadDocumentPage {
    var isLoading: bool
    var selectedFile: Option<FileRef>
    /** The last path given to `router.push`, if any. */
    var location: Option<string>

    constructor ()
      ensures !isLoading && selectedFile == None && location == None
    {
      isLoading := false;
      selectedFile := None;
      location := None;
    }

    /** `handleFileChange`; the file input is `disabled={isLoading}`, so while loading nothing changes. */
    method HandleFileChange(files: Option<seq<FileRef>>)
      modifies this`selectedFile
      ensures old(isLoading) ==> selectedFile == old(selectedFile)
      ensures !old(isLoading) ==> selectedFile == SelectFile(old(selectedFile), files)
    {
      if isLoading {
        return;
      }
      if files.Some? && files.value != [] {
        selectedFile := Some(files.value[0]);
      }
    }

    /** The Upload button's `disabled={isLoading || !selectedFile}`, negated. */
    function CanSubmit(): (enabled: bool)
      reads this
      ensures enabled <==> !isLoading && selectedFile.Some?
    {
      !(isLoading || selectedFile.None?)
    }

    /**
     * The Upload button: does nothing while disabled; otherwise the schema runs
     * and only a valid form reaches `onSubmit`, which sets the loading flag.
     */
    method Submit(f: UploadForm) returns (issues: seq<Issue<UploadField>>)
      modifies this`isLoading
      ensures !old(CanSubmit()) ==> issues == [] && isLoading == old(isLoading)
      ensures old(CanSubmit()) ==> issues == Issues(f) && isLoading == (issues == [])
    {
      if !CanSubmit() {
        return [];
      }
      issues := Issues(f);
      if issues == [] {
        isLoading := true;
      }
    }

    /** The simulated upload finishing: loading ends and the page returns to the list. */
    method UploadCompleted()
      modifies this`isLoading, this`location
      ensures !isLoading && location == Some("/dashboard/documents")
    {
      isLoading := false;
      location := Some("/dashboard/documents");
    }
  }
}
