/**
 * The company profile page: the basic-information and contact-information
 * forms, their zod schemas and default values, and the page's tab and loading
 * flags. zod's `url()` and `email()` are the parameters `isUrl` and `isEmail` of
 * the submit handlers; the schemas receive their verdict on the entered website
 * and e-mail address as `websiteIsUrl` and `emailIsValid`.
 */
module Profile {
  import opened Wrappers
  import opened Text
  import opened Forms

  datatype BasicInfo = BasicInfo(
    companyName: string,
    companyWebsite: string,
    companyDescription: string,
    yearEstablished: string,
    numberOfEmployees: Option<string>,
    businessType: Option<string>)

  datatype ContactInfo = ContactInfo(
    addressLine1: string,
    addressLine2: Option<string>,
    city: string,
    state: string,
    postalCode: string,
    country: string,
    phone: string,
    email: string)

  /** The keys of `basicInfoSchema`. */
  datatype BasicField =
    CompanyName | CompanyWebsite | CompanyDescription | YearEstablished | NumberOfEmployees | BusinessType

  /** The keys of `contactInfoSchema`. */
  datatype ContactField = AddressLine1 | AddressLine2 | City | State | PostalCode | Country | Phone | Email

  function DigitChar(c: char): bool {
    '0' <= c <= '9'
  }

  /** The regular expression `/^\d{4}$/`: exactly four ASCII digits. */
  predicate IsFourDigitYear(s: string) {
    |s| == 4 && forall i :: 0 <= i < |s| ==> DigitChar(s[i])
  }

  /** `basicInfoSchema`: the issues of a submission, in field order. */
  function BasicInfoIssues(f: BasicInfo, websiteIsUrl: bool): (r: seq<Issue<BasicField>>)
    ensures Flagged(r, CompanyName) <==> Utf16Length(f.companyName) < 2
    ensures Flagged(r, CompanyWebsite) <==> !websiteIsUrl
    ensures Flagged(r, CompanyDescription) <==> Utf16Length(f.companyDescription) < 10
    ensures Flagged(r, YearEstablished) <==> !IsFourDigitYear(f.yearEstablished)
    ensures Flagged(r, NumberOfEmployees) <==> f.numberOfEmployees.None?
    ensures Flagged(r, BusinessType) <==> f.businessType.None?
  {
    var name := Check(MinLength(f.companyName, 2), CompanyName, "Company name must be at least 2 characters.");
    var website := Check(websiteIsUrl, CompanyWebsite, "Please enter a valid URL.");
    var description := Check(MinLength(f.companyDescription, 10), CompanyDescription,
                             "Company description must be at least 10 characters.");
    var year := Check(IsFourDigitYear(f.yearEstablished), YearEstablished, "Please enter a valid year (e.g., 2010).");
    var employees := Check(f.numberOfEmployees.Some?, NumberOfEmployees, "Please select the number of employees.");
    var businessType := Check(f.businessType.Some?, BusinessType, "Please select a business type.");
    FlaggedAppend6(name, website, description, year, employees, businessType);
    name + website + description + year + employees + businessType
  }

  predicate BasicInfoValid(f: BasicInfo, websiteIsUrl: bool) {
    BasicInfoIssues(f, websiteIsUrl) == []
  }

  /** The basic-information form passes exactly when each of its rules does. */
  lemma BasicInfoValidIff(f: BasicInfo, websiteIsUrl: bool)
    ensures BasicInfoValid(f, websiteIsUrl) <==>
      && Utf16Length(f.companyName) >= 2
      && websiteIsUrl
      && Utf16Length(f.companyDescription) >= 10
      && |f.yearEstablished| == 4 && (forall i :: 0 <= i < 4 ==> '0' <= f.yearEstablished[i] <= '9')
      && f.numberOfEmployees.Some? && f.businessType.Some?
  {
  }

  /** `contactInfoSchema`: the issues of a submission, in field order; `addressLine2` has no rule. */
  function ContactInfoIssues(f: ContactInfo, emailIsValid: bool): (r: seq<Issue<ContactField>>)
    ensures Flagged(r, AddressLine1) <==> f.addressLine1 == []
    ensures !Flagged(r, AddressLine2)
    ensures Flagged(r, City) <==> f.city == []
    ensures Flagged(r, State) <==> f.state == []
    ensures Flagged(r, PostalCode) <==> f.postalCode == []
    ensures Flagged(r, Country) <==> f.country == []
    ensures Flagged(r, Phone) <==> Utf16Length(f.phone) < 5
    ensures Flagged(r, Email) <==> !emailIsValid
  {
    var line1 := Check(MinLength(f.addressLine1, 1), AddressLine1, "Address line 1 is required.");
    var city := Check(MinLength(f.city, 1), City, "City is required.");
    var state := Check(MinLength(f.state, 1), State, "State/Province is required.");
    var postalCode := Check(MinLength(f.postalCode, 1), PostalCode, "Postal code is required.");
    var country := Check(MinLength(f.country, 1), Country, "Country is required.");
    var phone := Check(MinLength(f.phone, 5), Phone, "Phone number is required.");
    var email := Check(emailIsValid, Email, "Please enter a valid email address.");
    FlaggedAppend7(line1, city, state, postalCode, country, phone, email);
    MinLengthOne(f.addressLine1);
    MinLengthOne(f.city);
    MinLengthOne(f.state);
    MinLengthOne(f.postalCode);
    MinLengthOne(f.country);
    line1 + city + state + postalCode + country + phone + email
  }

  predicate ContactInfoValid(f: ContactInfo, emailIsValid: bool) {
    ContactInfoIssues(f, emailIsValid) == []
  }

  /** The contact form passes exactly when each of its rules does. */
  lemma ContactInfoValidIff(f: ContactInfo, emailIsValid: bool)
    ensures ContactInfoValid(f, emailIsValid) <==>
      && f.addressLine1 != [] && f.city != [] && f.state != [] && f.postalCode != [] && f.country != []
      && Utf16Length(f.phone) >= 5
      && emailIsValid
  {
    MinLengthOne(f.addressLine1);
    MinLengthOne(f.city);
    MinLengthOne(f.state);
    MinLengthOne(f.postalCode);
    MinLengthOne(f.country);
  }

  /** `addressLine2` is optional: no value of it, or its absence, changes the verdict. */
  lemma AddressLine2Optional(f: ContactInfo, line2: Option<string>, emailIsValid: bool)
    ensures ContactInfoIssues(f.(addressLine2 := line2), emailIsValid) == ContactInfoIssues(f, emailIsValid)
  {
  }

  const DefaultBasicInfo := BasicInfo(
    "Acme Inc.",
    "https://acme.example.com",
    "Acme Inc. is a leading provider of innovative solutions for the construction industry.",
    "2010",
    Some("50-100"),
    Some("manufacturer"))

  const DefaultContactInfo := ContactInfo(
    "123 Main Street",
    Some("Suite 100"),
    "San Francisco",
    "CA",
    "94105",
    "United States",
    "+1 (555) 123-4567",
    "contact@acme.example.com")

  /** A form whose characters already meet every length rule is valid exactly when its URL is. */
  lemma BasicInfoValidByChars(f: BasicInfo, websiteIsUrl: bool)
    requires |f.companyName| >= 2 && |f.companyDescription| >= 10 && IsFourDigitYear(f.yearEstablished)
    requires f.numberOfEmployees.Some? && f.businessType.Some?
    ensures BasicInfoValid(f, websiteIsUrl) <==> websiteIsUrl
  {
    assert MinLength(f.companyName, 2) by { MinLengthOfChars(f.companyName, 2); }
    assert MinLength(f.companyDescription, 10) by { MinLengthOfChars(f.companyDescription, 10); }
  }

  /** The default basic information satisfies every rule but the opaque URL check. */
  lemma DefaultBasicInfoValid(websiteIsUrl: bool)
    ensures BasicInfoValid(DefaultBasicInfo, websiteIsUrl) <==> websiteIsUrl
  {
    var f := DefaultBasicInfo;
    assert |f.companyName| >= 2 && |f.companyDescription| >= 10;
    assert IsFourDigitYear(f.yearEstablished) by {
      assert f.yearEstablished == ['2', '0', '1', '0'];
    }
    BasicInfoValidByChars(f, websiteIsUrl);
  }

  /** The default contact information satisfies every rule but the opaque e-mail check. */
  lemma DefaultContactInfoValid(emailIsValid: bool)
    ensures ContactInfoValid(DefaultContactInfo, emailIsValid) <==> emailIsValid
  {
  }

  /** The page's `activeTab` and `isLoading` flags. */
  class ProfilePage {
    var activeTab: string
    var isLoading: bool

    constructor ()
      ensures activeTab == "basic-info" && !isLoading
    {
      activeTab := "basic-info";
      isLoading := false;
    }

    /** The tab list's `onValueChange` and the Next/Back buttons. */
    method SetActiveTab(tab: string)
      modifies this`activeTab
      ensures activeTab == tab
    {
      activeTab := tab;
    }

    /**
     * The Save button of the basic-information form: disabled while loading;
     * otherwise the schema runs, and only a valid form reaches
     * `onBasicInfoSubmit`, which sets the loading flag.
     */
    method SubmitBasicInfo(f: BasicInfo, isUrl: string -> bool) returns (issues: seq<Issue<BasicField>>)
      modifies this`isLoading
      ensures old(isLoading) ==> issues == [] && isLoading
      ensures !old(isLoading) ==> issues == BasicInfoIssues(f, isUrl(f.companyWebsite)) && isLoading == (issues == [])
    {
      if isLoading {
        return [];
      }
      issues := BasicInfoIssues(f, isUrl(f.companyWebsite));
      if issues == [] {
        isLoading := true;
      }
    }

    /** The Save button of the contact form, as `SubmitBasicInfo`. */
    method SubmitContactInfo(f: ContactInfo, isEmail: string -> bool) returns (issues: seq<Issue<ContactField>>)
      modifies this`isLoading
      ensures old(isLoading) ==> issues == [] && isLoading
      ensures !old(isLoading) ==> issues == ContactInfoIssues(f, isEmail(f.email)) && isLoading == (issues == [])
    {
      if isLoading {
        return [];
      }
      issues := ContactInfoIssues(f, isEmail(f.email));
      if issues == [] {
        isLoading := true;
      }
    }

    /** The simulated save finishing (the `setTimeout` callback of either submit). */
    method SaveCompleted()
      modifies this`isLoading
      ensures !isLoading
    {
      isLoading := false;
    }
  }
}
