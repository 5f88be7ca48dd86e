/**
 * The add-certification page: its zod schema, its default (empty) values, the
 * file picker and the simulated save that returns to the certification list.
 */
module AddCertification {
  import opened Wrappers
  import opened Text
  import opened Forms

  datatype CertificationForm = CertificationForm(
    name: string,
    issuer: string,
    issueDate: string,
    expiryDate: string,
    certificateNumber: Option<string>,
    document: Option<FileRef>)

  /** The keys of `formSchema`. */
  datatype CertificationField = Name | Issuer | IssueDate | ExpiryDate | CertificateNumber | Document

  /** `formSchema`: the issues of a submission, in field order. */
  function Issues(f: CertificationForm): (r: seq<Issue<CertificationField>>)
    ensures Flagged(r, Name) <==> Utf16Length(f.name) < 2
    ensures Flagged(r, Issuer) <==> Utf16Length(f.issuer) < 2
    ensures Flagged(r, IssueDate) <==> f.issueDate == []
    ensures Flagged(r, ExpiryDate) <==> f.expiryDate == []
    ensures !Flagged(r, CertificateNumber) && !Flagged(r, Document)
  {
    var name := Check(MinLength(f.name, 2), Name, "Certification name must be at least 2 characters.");
    var issuer := Check(MinLength(f.issuer, 2), Issuer, "Issuer name must be at least 2 characters.");
    var issueDate := Check(MinLength(f.issueDate, 1), IssueDate, "Issue date is required.");
    var expiryDate := Check(MinLength(f.expiryDate, 1), ExpiryDate, "Expiry date is required.");
    FlaggedAppend4(name, issuer, issueDate, expiryDate);
    MinLengthOne(f.issueDate);
    MinLengthOne(f.expiryDate);
    name + issuer + issueDate + expiryDate
  }

  predicate Valid(f: CertificationForm) {
    Issues(f) == []
  }

  /** The form passes exactly when name and issuer have two code units and both dates are filled. */
  lemma ValidIff(f: CertificationForm)
    ensures Valid(f) <==>
      Utf16Length(f.name) >= 2 && Utf16Length(f.issuer) >= 2 && f.issueDate != [] && f.expiryDate != []
  {
    MinLengthOne(f.issueDate);
    MinLengthOne(f.expiryDate);
  }

  /** `certificateNumber` and `document` never cause a rejection. */
  lemma OptionalFieldsIgnored(f: CertificationForm, number: Option<string>, document: Option<FileRef>)
    ensures Issues(f.(certificateNumber := number, document := document)) == Issues(f)
  {
  }

  /** Nothing relates the two dates: exchanging them keeps a valid form valid. */
  lemma DatesUnordered(f: CertificationForm)
    ensures Valid(f) <==> Valid(f.(issueDate := f.expiryDate, expiryDate := f.issueDate))
  {
    ValidIff(f);
    ValidIff(f.(issueDate := f.expiryDate, expiryDate := f.issueDate));
  }

  const DefaultForm := CertificationForm("", "", "", "", Some(""), None)

  /** The empty default form is rejected, with one issue for each required field. */
  lemma DefaultFormRejected()
    ensures Issues(DefaultForm) == [
      Issue(Name, "Certification name must be at least 2 characters."),
      Issue(Issuer, "Issuer name must be at least 2 characters."),
      Issue(IssueDate, "Issue date is required."),
      Issue(ExpiryDate, "Expiry date is required.")]
    ensures !Valid(DefaultForm)
  {
  }

  class AddCertificationPage {
    var isLoading: bool
    var selectedFile: Option<FileRef>
    /** The last path given to `router.push`, if any. */
    var location: Option<string>

    constructor ()
      ensures !isLoading && selectedFile == None && location == None
    {
      isLoading := false;
      selectedFile := None;
      location := None;
    }

    /** `handleFileChange`; the file input is `disabled={isLoading}`, so while loading nothing changes. */
    method HandleFileChange(files: Option<seq<FileRef>>)
      modifies this`selectedFile
      ensures old(isLoading) ==> selectedFile == old(selectedFile)
      ensures !old(isLoading) ==> selectedFile == SelectFile(old(selectedFile), files)
    {
      if isLoading {
        return;
      }
      if files.Some? && files.value != [] {
        selectedFile := Some(files.value[0]);
      }
    }

    /**
     * The Save button: disabled while loading; otherwise the schema runs and
     * only a valid form reaches `onSubmit`, which sets the loading flag.
     */
    method Submit(f: CertificationForm) returns (issues: seq<Issue<CertificationField>>)
      modifies this`isLoading
      ensures old(isLoading) ==> issues == [] && isLoading
      ensures !old(isLoading) ==> issues == Issues(f) && isLoading == (issues == [])
    {
      if isLoading {
        return [];
      }
      issues := Issues(f);
      if issues == [] {
        isLoading := true;
      }
    }

    /** The simulated save finishing: loading ends and the page returns to the list. */
    method SaveCompleted()
      modifies this`isLoading, this`location
      ensures !isLoading && location == Some("/dashboard/certifications")
    {
      isLoading := false;
      location := Some("/dashboard/certifications");
    }
  }
}
