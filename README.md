# Vendor dashboard logic, modelled in Dafny

This project models the logic inside the React components of a vendor-management
dashboard (VendorHub). The components hold their state in memory, so the model
lifts that state out of the UI:

- **Messages page.** Conversations with their messages. Selecting a conversation
  marks it read. Sending appends a vendor message whose id is one more than the
  largest id in the conversation. There is a search by company name.
- **Documents and certifications pages.** A delete in two steps: confirm, then
  delete by id. The documents list also has a search-and-tab filter and a
  status badge on each card.
- **Forms.** The zod schemas of the profile, add-certification and
  upload-document forms, written as lists of validation issues. Also their
  default values, the file picker and the upload button's enable rule.
- **Sign-up and sign-in forms.** The submit handlers, with the awaited external
  results given as parameters. The model states when each external call is
  made, which error state is set, where the page navigates, and what the
  loading flag does.
- **Under-construction page.** The "Go Back" link computed from the `from`
  query parameter.

Each page whose handlers replace component state is a `class`. Its fields are
the `useState` variables and its methods are the handlers. Row transforms and
filters are functions. `Array.prototype.filter` is `Seqs.Filter`, which is
proved to return an ordered sub-list (`Subsequence`) holding exactly the
matching elements, with their multiplicities.

The string operations are in module `Text`:
- `Trim` follows ECMAScript's whitespace set.
- `Includes` is substring search.
- `Utf16Length` is JavaScript's `length` in UTF-16 code units, which zod's
  `min(n)` measures.
- `Lower` is an ASCII approximation of `toLowerCase`.

Opaque library checks are function parameters:
- zod's `url()` and `email()` are `isUrl` and `isEmail` of the profile page's
  submit handlers; the schemas receive their verdict on the entered website
  and e-mail address as the booleans `websiteIsUrl` and `emailIsValid`;
- `decodeURIComponent` is `decode`;
- the browser's `type="email"` check is `emailAccepted`;
- `new Date().toISOString()` is the string `now`.

Files: `wrappers.dfy`, `seqs.dfy`, `text.dfy`, `forms.dfy`, `auth_shared.dfy`
(shared), and one file per source component: `messages.dfy`, `documents.dfy`,
`certifications.dfy`, `profile.dfy`, `certification_add.dfy`,
`document_upload.dfy`, `sign_up.dfy`, `sign_in.dfy`, `under_construction.dfy`.

Two behaviours of the sign-in form are worth knowing before reading the model:
- Sign-in success navigates to `callbackUrl`, whose default is `/dashboard`.
- The social sign-in of `SmartSignIn` does not await the provider call, so its
  loading flag stays true unless the call throws.

Every input and button of the two auth forms, and the file inputs of the
upload forms, are `disabled={isLoading}`, so their handlers do nothing while
loading. The auth forms' inputs are `required` and their e-mail inputs are
`type="email"`, with no `noValidate`: the browser blocks a submit with an
empty field or a rejected address before `handleSubmit` runs
(`Submittable`), and the browser's verdict on the address is the parameter
`emailAccepted`. The error state is rendered only
when it is a non-empty string (`{error && (`).

## Model

| member | source | states |
|---|---|---|
| Text.Lower | app/dashboard/messages/page.tsx:195-197 | same length; no upper-case ASCII letter is left: each becomes its lower-case letter (+32) and every other character is kept |
| Text.Includes | app/dashboard/messages/page.tsx:195-197 | every string includes ""; a match is never longer than the string; a prefix is always included |
| Text.Trim | app/dashboard/messages/page.tsx:168 | the trimmed draft neither starts nor ends with an ECMAScript whitespace character |
| Text.TrimDropsOnlyWhitespace | app/dashboard/messages/page.tsx:168 | the trimmed draft occurs in the draft at some offset, with only whitespace before and after it |
| Text.TrimEmptyIff | app/dashboard/messages/page.tsx:168 | `!s.trim()` holds exactly when every character of the draft is ECMAScript whitespace |
| Text.IncludesIff | app/dashboard/messages/page.tsx:195-197 | `includes` is true exactly when the query occurs as a contiguous piece at some index |
| Text.Utf16Length | app/dashboard/profile/page.tsx:19-21 | the length zod compares lies between the character count and twice it, and is 0 only for "" |
| Messages.MarkAllRead | app/dashboard/messages/page.tsx:157 | every message becomes read; ids, contents, senders and timestamps keep their places |
| Messages.MarkRead | app/dashboard/messages/page.tsx:153-158 | the selected conversation gets unread 0 and every message read, keeps its message ids, and no other field changes |
| Messages.MarkConversationRead | app/dashboard/messages/page.tsx:152-161 | same length and order; rows with the selected id become read, all others are unchanged |
| Messages.MarkConversationReadEffect | app/dashboard/messages/page.tsx:152-161 | field by field: the selected row gets unread 0, all messages read, the same message ids, and its other fields unchanged; other rows are identical |
| Messages.MarkConversationReadIdempotent | app/dashboard/messages/page.tsx:152-161 | selecting the same conversation twice gives the same list as selecting it once |
| Messages.Max | app/dashboard/messages/page.tsx:173 | the result bounds every id and is one of them |
| Messages.NextId | app/dashboard/messages/page.tsx:173 | the new id is greater than every existing id and is one more than one of them (1 when there are none) |
| Messages.NextIdAsWritten | app/dashboard/messages/page.tsx:173 | `Math.max(...ids) + 1` is -Infinity exactly when there is no finite id; otherwise it exceeds every finite id |
| Messages.NextIdAsWrittenAgrees | app/dashboard/messages/page.tsx:173 | on a non-empty conversation, the page's `Math.max(...ids) + 1` equals `NextId` |
| Messages.EmptyConversationIdsCollide | app/dashboard/messages/page.tsx:173 | with no messages, the page's id is -Infinity, and the next send computes the same id again |
| Messages.AppendVendorMessage | app/dashboard/messages/page.tsx:172-185 | old messages are kept as a prefix; the one new last message has the fresh id, the untrimmed draft, sender vendor, timestamp `now` and read true |
| Messages.AppendKeepsIdsUnique | app/dashboard/messages/page.tsx:172-184 | if ids were unique before a send, they stay unique, and the new id exceeds every earlier one |
| Messages.SendToConversation | app/dashboard/messages/page.tsx:170-188 | same length and order; rows with the selected id get the appended message, other rows are unchanged |
| Messages.SendEffect | app/dashboard/messages/page.tsx:170-188 | field by field: lastMessage becomes the draft, timestamp becomes "Just now", unread, id, company and avatar are kept; other rows are identical |
| Messages.FindById | app/dashboard/messages/page.tsx:191 | `find`: absent exactly when no row has the id; otherwise a row with that id |
| Messages.FindByIdFirst | app/dashboard/messages/page.tsx:191 | what `find` returns is a row of the list, and no earlier row has the id: it is the first match |
| Messages.FindAfterSend | app/dashboard/messages/page.tsx:190-191 | after a send, the new selection is the first conversation with the selected id, with the new message appended |
| Messages.FilterConversations | app/dashboard/messages/page.tsx:195-197 | ordered sub-list; every entry's lower-cased company includes the lower-cased query; each matching conversation is kept with its multiplicity |
| Messages.EmptySearchShowsAll | app/dashboard/messages/page.tsx:195-197 | an empty query returns the whole list |
| Messages.MessagesPage.constructor | app/dashboard/messages/page.tsx:146-148 | the selection starts at the first conversation (absent for none); draft and search are ""; the invariant `Valid` (a selection is a row of the list, by id) holds |
| Messages.MessagesPage.SelectConversation | app/dashboard/messages/page.tsx:150-165 | for a row of the list (the page offers only rows of `filteredConversations`, lines 224-230): the list becomes `MarkConversationRead` of the old list, the selection is the conversation as passed in, and `Valid` is kept |
| Messages.MessagesPage.SetNewMessage | app/dashboard/messages/page.tsx:316 | the draft becomes the typed value; `Valid` is kept |
| Messages.MessagesPage.SetSearchQuery | app/dashboard/messages/page.tsx:218 | the search query becomes the typed value; `Valid` is kept |
| Messages.MessagesPage.SendMessage | app/dashboard/messages/page.tsx:167-193 | blank draft or no selection: nothing changes. Otherwise the list becomes `SendToConversation`, the selection is `FindById` on the new list, which is the stored row with that id with the draft appended, and the draft is ""; `Valid` is kept |
| Messages.MessagesPage.Filtered | app/dashboard/messages/page.tsx:195-197 | the shown conversations are an ordered sub-list of the state, each matching the search |
| Documents.BadgeFor | app/dashboard/documents/page.tsx:371-386 | Active exactly for "active", Expiring Soon exactly for "expiring-soon", Expired for every other status |
| Documents.BadgeMatchesStatus | app/dashboard/documents/page.tsx:40 | each of the three declared statuses gets its own badge |
| Documents.Shown | app/dashboard/documents/page.tsx:143-156 | a document is shown exactly when it matches the search and, when the tab names a category, has exactly that category |
| Documents.FilterDocuments | app/dashboard/documents/page.tsx:143-156 | ordered sub-list of the documents, keeping each shown document with its multiplicity |
| Documents.FilterDocumentsSpec | app/dashboard/documents/page.tsx:143-156 | a document is shown exactly when its name or category includes the query, ignoring case, and, on the certifications/compliance/marketing tab, its category is exactly "Certification"/"Compliance"/"Marketing"; "all" and unknown tabs apply only the search |
| Documents.TabFiltersSearchResult | app/dashboard/documents/page.tsx:150-155 | a category tab's result is the "all" result further filtered by the exact category |
| Documents.EmptySearchAllTabShowsAll | app/dashboard/documents/page.tsx:143-150 | an empty query on tab "all" shows every document |
| Seqs.RemoveKey | app/dashboard/documents/page.tsx:128 | `filter(x => x.id !== id)`: ordered sub-list with no element of that id; every element with another id keeps its multiplicity |
| Documents.DocumentsPage.constructor | app/dashboard/documents/page.tsx:121-124 | the dialog starts closed with nothing pending; search "" and tab "all" |
| Documents.DocumentsPage.ConfirmDelete | app/dashboard/documents/page.tsx:138-141 | records the pending id and opens the dialog; the documents are unchanged |
| Documents.DocumentsPage.HandleDelete | app/dashboard/documents/page.tsx:126-136 | nothing pending: no change at all. Otherwise the list becomes `RemoveById`, the dialog closes and the pending id is cleared |
| Documents.DocumentsPage.SetDeleteDialogOpen | app/dashboard/documents/page.tsx:260-270 | `onOpenChange` and Cancel set only the dialog flag |
| Documents.DocumentsPage.SetSearchQuery | app/dashboard/documents/page.tsx:181 | the search query becomes the typed value |
| Documents.DocumentsPage.SetActiveTab | app/dashboard/documents/page.tsx:192-200 | the active tab becomes the chosen one |
| Documents.DocumentsPage.Filtered | app/dashboard/documents/page.tsx:143-156 | the shown documents are an ordered sub-list of the state, each passing the search and tab test |
| Seqs.RemoveAbsentKey | app/dashboard/certifications/page.tsx:58 | removing an id that no element has leaves the list as it is |
| Seqs.RemoveKeyIdempotent | app/dashboard/certifications/page.tsx:58 | deleting the same id twice equals deleting it once |
| Certifications.CertificationsPage.constructor | app/dashboard/certifications/page.tsx:53-54 | the dialog starts closed with nothing pending |
| Certifications.CertificationsPage.ConfirmDelete | app/dashboard/certifications/page.tsx:68-71 | records the pending id and opens the dialog; the list is unchanged |
| Certifications.CertificationsPage.HandleDelete | app/dashboard/certifications/page.tsx:56-66 | nothing pending: no change at all. Otherwise the list becomes `RemoveById`, the dialog closes and the pending id is cleared |
| Certifications.CertificationsPage.SetDeleteDialogOpen | app/dashboard/certifications/page.tsx:186-196 | Cancel closes the dialog without touching the list or the pending id |
| Forms.SelectFile | app/dashboard/certifications/add/page.tsx:67-71 | the selection becomes the first file when one is present; otherwise it is unchanged |
| Forms.SelectionNeverCleared | app/dashboard/documents/upload/page.tsx:60-64 | once a file is selected, no change event clears the selection |
| Profile.BasicInfoIssues | app/dashboard/profile/page.tsx:18-37 | each field is flagged exactly when its rule fails: companyName under 2 UTF-16 units, a website that is no URL, a description under 10 units, a year that is not four digits, an absent employees or business-type select |
| Profile.BasicInfoValidIff | app/dashboard/profile/page.tsx:18-37 | valid exactly when: companyName has at least 2 UTF-16 units; the website passes `url()`; the description has at least 10 units; the year is four ASCII digits; employees and business type are present |
| Profile.BasicInfoValidByChars | app/dashboard/profile/page.tsx:18-37 | a form whose character counts already meet the minimums, with a four-digit year and both selects present, is valid exactly when its URL is |
| Profile.ContactInfoIssues | app/dashboard/profile/page.tsx:39-62 | each field is flagged exactly when its rule fails: an empty address line 1, city, state, postal code or country, a phone under 5 units, an e-mail that `email()` rejects; address line 2 is never flagged |
| Profile.ContactInfoValidIff | app/dashboard/profile/page.tsx:39-62 | valid exactly when address line 1, city, state, postal code and country are non-empty, the phone has at least 5 units, and the e-mail passes `email()` |
| Profile.AddressLine2Optional | app/dashboard/profile/page.tsx:43 | no value of addressLine2, and no absence of it, changes the issues |
| Profile.DefaultBasicInfoValid | app/dashboard/profile/page.tsx:71-78 | the default basic information passes every rule; only the opaque URL check remains |
| Profile.DefaultContactInfoValid | app/dashboard/profile/page.tsx:83-92 | the default contact information passes every rule; only the opaque e-mail check remains |
| Profile.ProfilePage.constructor | app/dashboard/profile/page.tsx:66-67 | the page starts on "basic-info", not loading |
| Profile.ProfilePage.SetActiveTab | app/dashboard/profile/page.tsx:130 | the active tab becomes the chosen one |
| Profile.ProfilePage.SubmitBasicInfo | app/dashboard/profile/page.tsx:95-106 | while loading, nothing. Otherwise it returns the schema's issues, and loading starts exactly when there are none |
| Profile.ProfilePage.SubmitContactInfo | app/dashboard/profile/page.tsx:108-119 | while loading, nothing. Otherwise it returns the schema's issues, and loading starts exactly when there are none |
| Profile.ProfilePage.SaveCompleted | app/dashboard/profile/page.tsx:99-100 | the simulated save ends loading |
| AddCertification.Issues | app/dashboard/certifications/add/page.tsx:19-34 | name and issuer are flagged exactly when under 2 UTF-16 units, each date exactly when empty; certificateNumber and document are never flagged |
| AddCertification.ValidIff | app/dashboard/certifications/add/page.tsx:19-34 | valid exactly when name and issuer have at least 2 UTF-16 units and both dates are non-empty |
| AddCertification.OptionalFieldsIgnored | app/dashboard/certifications/add/page.tsx:32-33 | certificateNumber and document never change the issues |
| AddCertification.DatesUnordered | app/dashboard/certifications/add/page.tsx:26-31 | exchanging issue and expiry date keeps validity: no order between the dates is checked |
| AddCertification.DefaultFormRejected | app/dashboard/certifications/add/page.tsx:44-50 | the all-empty default form is rejected, with exactly the four required-field messages in field order |
| AddCertification.AddCertificationPage.constructor | app/dashboard/certifications/add/page.tsx:39-40 | not loading, no file selected |
| AddCertification.AddCertificationPage.HandleFileChange | app/dashboard/certifications/add/page.tsx:67-71 | while loading (the file input is `disabled={isLoading}`, line 202) nothing changes; otherwise the selection becomes `SelectFile` of the old selection and the event's files |
| AddCertification.AddCertificationPage.Submit | app/dashboard/certifications/add/page.tsx:53-54 | while loading, nothing. Otherwise it returns the schema's issues, and loading starts exactly when there are none |
| AddCertification.AddCertificationPage.SaveCompleted | app/dashboard/certifications/add/page.tsx:57-63 | loading ends and the page navigates to "/dashboard/certifications" |
| UploadDocument.Issues | app/dashboard/documents/upload/page.tsx:20-29 | the name is flagged exactly when under 2 UTF-16 units, the category exactly when absent; expiryDate and document are never flagged |
| UploadDocument.ValidIff | app/dashboard/documents/upload/page.tsx:20-29 | valid exactly when the name has at least 2 UTF-16 units and a category is present, even "" |
| UploadDocument.OptionalFieldsIgnored | app/dashboard/documents/upload/page.tsx:27-28 | expiryDate and document never change the issues |
| UploadDocument.DefaultFormIssues | app/dashboard/documents/upload/page.tsx:39-43 | of the defaults only the empty name is rejected; the "" category passes |
| UploadDocument.UploadDocumentPage.CanSubmit | app/dashboard/documents/upload/page.tsx:200 | the button is enabled exactly when the page is not loading and a file is selected |
| UploadDocument.UploadDocumentPage.constructor | app/dashboard/documents/upload/page.tsx:34-35 | not loading, no file selected |
| UploadDocument.UploadDocumentPage.HandleFileChange | app/dashboard/documents/upload/page.tsx:60-64 | while loading (the file input is `disabled={isLoading}`, line 174) nothing changes; otherwise the selection becomes `SelectFile` of the old selection and the event's files |
| UploadDocument.UploadDocumentPage.Submit | app/dashboard/documents/upload/page.tsx:197-200 | a disabled button does nothing. Otherwise it returns the schema's issues, and loading starts exactly when there are none |
| UploadDocument.UploadDocumentPage.UploadCompleted | app/dashboard/documents/upload/page.tsx:50-56 | loading ends and the page navigates to "/dashboard/documents" |
| AuthShared.OrElse | components/SmartSignUp.tsx:81 | `a \|\| b`: `a` when it is present and non-empty, `b` otherwise |
| SignUp.WithField | components/SmartSignUp.tsx:31-34 | the named field gets the value; the other three are unchanged |
| SignUp.SubmitDecision | components/SmartSignUp.tsx:55-90 | once `handleSubmit` runs: registration is called exactly when the passwords match, with name, e-mail and password only; the page navigates exactly when registration succeeded; every submit either sets the error state or navigates, never both |
| SignUp.MismatchNeverRegisters | components/SmartSignUp.tsx:61-65 | once `handleSubmit` runs, differing passwords set the error state to "Passwords do not match", with no registration call and no navigation, whatever registration would have answered |
| SignUp.OutcomeDecides | components/SmartSignUp.tsx:77-89 | an error result sets the error state to exactly its error without navigating; success navigates to a truthy redirectUrl, else to callbackUrl; an exception sets the error state to the generic message |
| SignUp.SmartSignUp.constructor | components/SmartSignUp.tsx:20-29 | callbackUrl defaults to "/dashboard"; not loading, no error, empty fields |
| SignUp.SmartSignUp.HandleChange | components/SmartSignUp.tsx:31-34 | while loading (the inputs are disabled) nothing changes; otherwise the form data becomes `WithField` of the old data |
| SignUp.SmartSignUp.HandleSubmit | components/SmartSignUp.tsx:55-90 | while loading (the button is disabled), or when the browser's constraint validation blocks the form (an empty `required` input or an e-mail the browser rejects, lines 140-189), nothing is sent and nothing changes, so a sent registration has no empty field; otherwise the call made, the error state and the navigation follow `SubmitDecision`, no earlier error survives, and loading is false afterwards |
| SignUp.SmartSignUp.HandleSocialSignIn | components/SmartSignUp.tsx:39-50 | while loading (the buttons are disabled) no request is made and nothing changes; otherwise the provider is dispatched with the callbackUrl, the error state is cleared, or set to the social-sign-in message on a throw, and loading ends |
| SignIn.SubmitDecision | components/SmartSignIn.tsx:47-81 | once `handleSubmit` runs: sign-in is called exactly when validation passed, with the same e-mail and password; the page navigates, to callbackUrl, exactly when both calls succeed; it sets the error state exactly when it does not navigate |
| SignIn.ValidationErrorVerbatim | components/SmartSignIn.tsx:61-62 | a validation error becomes the error state verbatim, with no sign-in call and no navigation |
| SignIn.SignInResultDecides | components/SmartSignIn.tsx:64-79 | success navigates to callbackUrl; failure sets the error state to its error, or to "Authentication failed" when it has none; an exception sets it to the generic message |
| SignIn.SmartSignIn.constructor | components/SmartSignIn.tsx:20-25 | callbackUrl defaults to "/dashboard"; not loading, no error, empty fields |
| SignIn.SmartSignIn.SetEmail | components/SmartSignIn.tsx:137-138 | the e-mail becomes the typed value, unless loading disables the input |
| SignIn.SmartSignIn.SetPassword | components/SmartSignIn.tsx:157-158 | the password becomes the typed value, unless loading disables the input |
| SignIn.SmartSignIn.HandleSubmit | components/SmartSignIn.tsx:47-81 | while loading (the button is disabled), or when the browser's constraint validation blocks the form (an empty `required` input or an e-mail the browser rejects, lines 131-159), nothing is sent and nothing changes, so validated credentials have no empty field; otherwise the credentials go to validation, the sign-in call, the error state and the navigation follow `SubmitDecision`, and loading is false afterwards |
| SignIn.SmartSignIn.HandleSocialSignIn | components/SmartSignIn.tsx:30-41 | while loading (the buttons are disabled) no provider is requested and nothing changes; otherwise the provider is requested, and loading stays true unless the call throws, which sets the error state and ends loading |
| UnderConstruction.FromPath | app/under-construction/page.tsx:16 | an absent or empty `from` gives no path; otherwise the path is the decoded value |
| UnderConstruction.BackHref | app/under-construction/page.tsx:54 | an absent, empty or "/" path links to "/"; any other path links to ".." followed by the path, with a "/" put in front when it has none |
| UnderConstruction.BackHrefShape | app/under-construction/page.tsx:54 | every link other than "/" starts with "../" |
| UnderConstruction.BackHrefHomeIff | app/under-construction/page.tsx:54 | the link is "/" exactly for an absent, empty or "/" path |
| UnderConstruction.BackHrefRecoversPath | app/under-construction/page.tsx:54 | after the leading "../", the link holds the path without its leading slash |

## Findings

| source | as written | input that shows it | evidently intended | confidence | as-written member | corrected member |
|---|---|---|---|---|---|---|
| app/dashboard/messages/page.tsx:173 | `Math.max(...conv.messages.map((m) => m.id)) + 1` | a selected conversation with no messages: `Math.max()` is -Infinity, so the new message's id is -Infinity. A second send computes -Infinity again, and two messages share an id | a fresh id greater than every existing id (1 in an empty conversation) | low (every mock conversation has messages; reachable once a conversation starts empty), not executed | Messages.EmptyConversationIdsCollide | Messages.NextId |

The rest of the model uses `Messages.NextId`. `Messages.NextIdAsWrittenAgrees`
proves that it equals the page's computation whenever the conversation has at
least one message.

## Left out

- Rendering, layout, icons, toasts, `router.refresh` and the other pages
  (landing, dashboard overview and layout, sign-in/sign-up shells, demo,
  redirect actions, build configuration). They draw things or wrap the
  framework and hold no logic to model.
- The delays of the simulated saves (`setTimeout`) are not modelled. A save's
  start (`Submit…`) and its end (`SaveCompleted`, `UploadCompleted`) are
  separate methods.
- The async handlers run as one step, with the awaited results as parameters.
  So the moment during an await when `isLoading` is true cannot be observed.
  The auth handlers' loading guards matter after `SmartSignIn`'s social
  sign-in, which leaves loading on.
- The external calls (`registerUser`, `authenticateWithCredentials`,
  `signInWithCredentials`, `signInClient`, `signInWithProvider`) appear only as
  their possible outcomes: an error result, success, or an exception. A
  rejected promise from the un-awaited `signInWithProvider` is not modelled.
- Text.Lower: only ASCII letters are lower-cased, because full Unicode case
  mapping is outside the model.
- Profile.BasicInfoIssues: the verdict of `url()` on the website is the
  boolean `websiteIsUrl` (`isUrl` in the page's handler), because zod's URL
  grammar is not modelled. Profile.ContactInfoIssues treats `email()` the same
  way, as `emailIsValid` (`isEmail` in the handler).
- UnderConstruction.FromPath: `decodeURIComponent` is the parameter `decode`.
  Its `URIError` on malformed escapes is not modelled.
- The timestamp of a sent message (`new Date().toISOString()`) is the string
  parameter `now`. The pages' initial mock records are constructor parameters,
  not the literal data.
- zod's rejection of non-string values is not modelled, because the form fields
  are typed as strings here. A `z.string({ required_error })` field is an
  `Option`, and only absence fails.
- SignUp.SmartSignUp.HandleChange: the changed input is one of the four
  `Field`s. The page only renders inputs with those four names, so a foreign
  name that would add a new key is not modelled.
- The submit buttons' `disabled` flags are modelled as the `Submit…` methods
  doing nothing while disabled. react-hook-form's `handleSubmit` is modelled as
  "run the schema, and call the submit callback only when there are no issues".
- Messages.AppendVendorMessage and Messages.MessagesPage.SendMessage give the
  first message of an empty conversation the id 1, where the page computes
  -Infinity; the page's own computation is `Messages.NextIdAsWritten` (see
  Findings).
- SignUp.SubmitDecision and SignIn.SubmitDecision describe the error state that
  is set. A registration or validation error of "" sets that state, but the
  page renders nothing for it (`{error && (`, SmartSignUp.tsx line 99 and
  SmartSignIn.tsx line 90).
- Message and document ids are unbounded integers. JavaScript's floating-point
  numbers appear only in `Messages.JsNumber`, for the -Infinity of the finding.
