# Consent negotiation and authorization, modelled in Dafny

This project models the core of a "the bank asks your data vault for personal data" demo. The demo has a TypeScript
front end and a Python consent/data back end. The model covers:

- **The bank's home page** (`IndexPage`). Choosing a service opens an authentication dialog. A successful
  authentication switches to a consent-waiting view. Completing consent greets the user and resets the page.
- **The authentication dialog** (`AuthModal`). A password form and a certificate upload. Each is checked for missing
  input before a simulated authentication, which always succeeds after a timer.
- **The vault's consent page** (`SolidPodInterface`, with `FieldCatalog`, `Reasons`, `Text` and `Uri`):
  - a fixed catalog of nine data fields, two of them required;
  - the selection the user ticks;
  - the required-field gate;
  - the audit events;
  - the three redirects back to the bank: `success` with the comma-joined selection, `insufficient`, and `declined`.
- **The back end's consent records** (`ConsentModel`) and their dictionary form (`to_dict`/`from_dict`).
- **The consent service** (`ConsentService`): grant, revoke, history, status and verify, over an in-memory consent
  store.
- **The data service** (`DataService`):
  - the structural validator `_validate_data`;
  - `update_user_data`, which validates before it writes;
  - the `get_user_data` dispatch;
  - `create_data_request`.

State that the source updates in place is modelled as classes with `modifies` clauses:

- the page and dialog state cells;
- the consent store;
- the data store.

Expression-level code is modelled as functions with lemmas: the catalog filters, the reasons, the serialisation and
the queries. `_validate_data` is a method with nested loops, proved against a specification function of the first
error.

Supporting modules:

- `Wrappers`: `Option` and `Result`.
- `Text`: JavaScript `join` and `split`.
- `Uri`: `encodeURIComponent`, and rendering and reading a query string.
- `PyData`: Python dictionary values, `get` and truthiness.

## Model

| member | source | states |
|---|---|---|
| `SolidPodInterface.ParamOr` | src/pages/SolidPodInterface.tsx:22-23 | A missing or empty query parameter gives the fallback (`unknown-service`, `Banking Service`); otherwise the parameter itself |
| `SolidPodInterface.ConsentPage.constructor` | src/pages/SolidPodInterface.tsx:22-35 | Mounting: defaults applied, empty selection, not processing, and one `data_request` event with every catalog id and the GDPR reason |
| `FieldCatalog.CatalogIds` | src/pages/SolidPodInterface.tsx:32 | `dataFields.map(f => f.id)`: the ids the page requests, in catalog order; `CatalogIdsDistinct` shows there are nine, all different |
| `FieldCatalog.RequiredFields` | src/pages/SolidPodInterface.tsx:49 | `dataFields.filter(field => field.required)`; `RequiredFieldsAreNameAndEmail` shows it is `name` then `email` |
| `FieldCatalog.HasRequiredData` | src/pages/SolidPodInterface.tsx:50 | Every required field's id is in the selection, as `every`/`includes`; `HasRequiredDataIff` reduces it to `name` and `email` being selected |
| `FieldCatalog.CategoryFields` | src/pages/SolidPodInterface.tsx:91-93 | `getCategoryFields`: the catalog fields of one category, in catalog order; the section lemmas below list each result |
| `FieldCatalog.CatalogIdsDistinct` | src/pages/SolidPodInterface.tsx:37-47 | The catalog has nine fields with pairwise distinct ids |
| `FieldCatalog.RequiredFieldsAreNameAndEmail` | src/pages/SolidPodInterface.tsx:37-49 | The required fields are exactly `name` and `email`, in catalog order |
| `FieldCatalog.FilterMembers` | src/pages/SolidPodInterface.tsx:49 | A field survives `filter` iff it is in the list and meets the criterion |
| `FieldCatalog.FilterAppend` | src/pages/SolidPodInterface.tsx:92 | Filtering keeps catalog order: it distributes over concatenation |
| `FieldCatalog.HasRequiredDataIff` | src/pages/SolidPodInterface.tsx:49-50 | `hasRequiredData` holds iff `name` and `email` are both selected, whatever else is selected |
| `FieldCatalog.CategoriesPartitionCatalog` | src/pages/SolidPodInterface.tsx:91-100 | The four categories' fields, concatenated in category order, are exactly the catalog |
| `FieldCatalog.BasicSection` | src/pages/SolidPodInterface.tsx:91-93 | `getCategoryFields('basic')` is the `name` field |
| `FieldCatalog.ContactSection` | src/pages/SolidPodInterface.tsx:91-93 | `getCategoryFields('contact')` is `email`, `phone`, `address` in catalog order |
| `FieldCatalog.PersonalSection` | src/pages/SolidPodInterface.tsx:91-93 | `getCategoryFields('personal')` is `dateOfBirth`, `maritalStatus` |
| `FieldCatalog.ProfessionalSection` | src/pages/SolidPodInterface.tsx:91-93 | `getCategoryFields('professional')` is `jobPosition`, `employer`, `income` |
| `FieldCatalog.UnknownCategoryIsEmpty` | src/pages/SolidPodInterface.tsx:91-93 | A category name that is none of the four gives no fields |
| `SolidPodInterface.Without` | src/pages/SolidPodInterface.tsx:56 | `prev.filter(id => id !== fieldId)`; the `Without…` lemmas below state what it keeps and removes |
| `SolidPodInterface.Toggled` | src/pages/SolidPodInterface.tsx:52-58 | The selection after a toggle: the id appended when checked, otherwise every occurrence removed |
| `SolidPodInterface.ConsentPage.IsChecked` | src/pages/SolidPodInterface.tsx:167 | A checkbox is ticked iff its id is in the selection |
| `SolidPodInterface.ConsentPage.HasRequired` | src/pages/SolidPodInterface.tsx:50 | `hasRequiredData` for the page's current selection |
| `SolidPodInterface.ConsentPage.ProvideButtonEnabled` | src/pages/SolidPodInterface.tsx:234 | The provide button is enabled iff the required data is selected and the page is not processing |
| `SolidPodInterface.ConsentPage.DeclineButtonEnabled` | src/pages/SolidPodInterface.tsx:227 | The decline button is enabled iff the page is not processing |
| `SolidPodInterface.ConsentPage.HandleDataToggle` | src/pages/SolidPodInterface.tsx:52-58 | Ticking appends the id and keeps every earlier entry; unticking leaves the id nowhere in the selection; nothing else changes |
| `SolidPodInterface.WithoutAppend` | src/pages/SolidPodInterface.tsx:56 | Unticking keeps the other ids in their relative order |
| `SolidPodInterface.WithoutCounts` | src/pages/SolidPodInterface.tsx:56 | Unticking removes every occurrence of the id, and every other id keeps its number of occurrences |
| `SolidPodInterface.WithoutAbsent` | src/pages/SolidPodInterface.tsx:56 | Unticking an id that is not selected changes nothing |
| `SolidPodInterface.WithoutIdempotent` | src/pages/SolidPodInterface.tsx:56 | Unticking twice is unticking once |
| `SolidPodInterface.WithoutMembers` | src/pages/SolidPodInterface.tsx:56 | After unticking, an id is selected iff it was selected before and is not the unticked one |
| `SolidPodInterface.WithoutKeepsDistinct` | src/pages/SolidPodInterface.tsx:56 | Unticking never creates a duplicate |
| `SolidPodInterface.TickThenUntick` | src/pages/SolidPodInterface.tsx:52-58 | Ticking an unselected id and then unticking it restores the selection |
| `SolidPodInterface.CheckboxClickKeepsDistinct` | src/pages/SolidPodInterface.tsx:165-168 | A checkbox passes the negation of its current state, so clicks keep the selection free of duplicates |
| `SolidPodInterface.TickKeepsGate` | src/pages/SolidPodInterface.tsx:49-54 | Ticking never closes the required-field gate |
| `SolidPodInterface.UntickAndGate` | src/pages/SolidPodInterface.tsx:49-56 | Unticking `name` or `email` closes the gate; unticking any other id leaves it as it was |
| `SolidPodInterface.ProvideOutcome` | src/pages/SolidPodInterface.tsx:73-79 | Providing consent yields `success` iff the required data is selected, `insufficient` otherwise, never `declined` |
| `SolidPodInterface.RedirectParams` | src/pages/SolidPodInterface.tsx:75-88 | The redirect's query parameters: `consent` and the encoded `service`, then `data` with the comma-joined selection on success only |
| `SolidPodInterface.RedirectUrl` | src/pages/SolidPodInterface.tsx:75-88 | The `navigate` target: `/` with the query of those parameters; the three literal lemmas write it out per outcome |
| `SolidPodInterface.RedirectParamsListed` | src/pages/SolidPodInterface.tsx:75-88 | The success redirect carries `consent`, `service` and `data`; the other two carry only `consent` and `service` |
| `SolidPodInterface.GrantedRedirectLiteral` | src/pages/SolidPodInterface.tsx:75 | The success target is `/?consent=success&service=<encoded name>&data=<ids joined by ,>` |
| `SolidPodInterface.InsufficientRedirectLiteral` | src/pages/SolidPodInterface.tsx:78 | The insufficient target is `/?consent=insufficient&service=<encoded name>` |
| `SolidPodInterface.DeclinedRedirectLiteral` | src/pages/SolidPodInterface.tsx:88 | The decline target is `/?consent=declined&service=<encoded name>` |
| `SolidPodInterface.CatalogIdsAreSafe` | src/pages/SolidPodInterface.tsx:37-47 | No catalog id contains `,` or `&` |
| `SolidPodInterface.CatalogSelectionIsSafe` | src/pages/SolidPodInterface.tsx:75 | A selection made of catalog ids survives being joined into the `data` value |
| `SolidPodInterface.RedirectParamsWellFormed` | src/pages/SolidPodInterface.tsx:75-88 | Every redirect's keys and values can be read back from the query unchanged |
| `SolidPodInterface.ReadRedirect` | src/pages/SolidPodInterface.tsx:75-88 | The reference reader recovers exactly the parameters the page wrote into the redirect |
| `SolidPodInterface.SuccessRedirectCarriesSelection` | src/pages/SolidPodInterface.tsx:73-75 | On success, a relying party that reads the query with the reference reader (`Uri.ReadQuery`) gets `consent=success`, the encoded service name, and a `data` value that splits on `,` into exactly the selection, in order |
| `SolidPodInterface.OtherRedirectsCarryNoData` | src/pages/SolidPodInterface.tsx:76-89 | Insufficient and declined redirects say which outcome they are, carry the service, and have no `data` parameter |
| `SolidPodInterface.OutcomesDistinguishable` | src/pages/SolidPodInterface.tsx:73-88 | The `consent` value alone tells the three outcomes apart |
| `SolidPodInterface.ConsentPage.HandleProvideConsent` | src/pages/SolidPodInterface.tsx:60-81 | Processing starts and both buttons are disabled. The `consent_provided` event records the selection, the gate and the reason. The redirect is the success or insufficient target for the selection at the click |
| `SolidPodInterface.ConsentPage.HandleDeclineConsent` | src/pages/SolidPodInterface.tsx:83-89 | One `consent_declined` event and the declined target, whatever is selected; the selection is unchanged |
| `SolidPodInterface.ScenarioGrantNameAndEmail` | src/pages/SolidPodInterface.tsx:52-75 | Ticking `name` and `email` and providing consent for `Investment Services` lands on `/?consent=success&service=<encoded name>&data=name,email` |
| `Reasons.ServiceDetail` | src/lib/reasons.ts:2-8 | The table entry for the three known ids; for any other id, `to provide ` followed by the service name |
| `Reasons.GdprReason` | src/lib/reasons.ts:1-11 | The reason is the fixed GDPR prefix, then the service detail, then `.` |
| `Reasons.KnownServiceIgnoresName` | src/lib/reasons.ts:2-8 | For the three known service ids the detail is that service's fixed text, whatever the name |
| `Reasons.UnknownServiceNamesService` | src/lib/reasons.ts:8-10 | For any other id the detail is `to provide <serviceName>` |
| `Reasons.UnknownServiceReasonInjective` | src/lib/reasons.ts:8-10 | For an unknown id, different service names give different reasons |
| `Reasons.ConsentProvidedReason` | src/lib/reasons.ts:13-15 | The reason is `User provided consent to access personal data for ` + name + `.` |
| `Text.Split` | src/pages/SolidPodInterface.tsx:75 | Reader-side definition, not code of the application, used to state what the line 75 redirect promises: JavaScript `split`, with at least one piece and no piece containing the separator |
| `Text.SplitJoin` | src/pages/SolidPodInterface.tsx:75 | Reader-side definition, not code of the application, used to state what the line 75 redirect promises: splitting a join of one or more separator-free strings gives them back |
| `Text.JoinAvoids` | src/pages/SolidPodInterface.tsx:75 | A character in no element, and not the separator, is not in the join |
| `Text.SplitAtFirstOf` | src/pages/SolidPodInterface.tsx:75 | Reader-side definition, not code of the application, used to state what the line 75 redirect promises: splitting at the first occurrence of a character recovers a key without it and the rest |
| `Uri.EncodeURIComponent` | src/pages/SolidPodInterface.tsx:75 | The encoding uses only unreserved characters and `%`, and leaves an unreserved text unchanged |
| `Uri.EncodingAvoids` | src/pages/SolidPodInterface.tsx:75 | An encoded name contains no character outside the unreserved set and `%`, so no `&`, `=` or `?` |
| `Uri.QueryRoundTrip` | src/pages/SolidPodInterface.tsx:75-88 | Reader-side definition, not code of the application, used to state what the lines 75-88 redirects promise: a rendered `path?k=v&...` reads back as its parameters, when keys have no `=`/`&` and values no `&` |
| `Uri.QueryValue` | src/pages/SolidPodInterface.tsx:75 | Reader-side definition, not code of the application, used to state what the line 75 redirect promises: a key's value is absent iff no parameter has that key, and is otherwise a parameter's value |
| `Uri.QueryValueFirst` | src/pages/SolidPodInterface.tsx:75 | Reader-side definition, not code of the application, used to state what the line 75 redirect promises: a parameter with no earlier parameter of its name is what the lookup finds |
| `ConsentModel.ToDict` | models/consent.py:22-33 | `to_dict`: the eight entries in source order; its keys and values are stated by `ToDictKeys` and `ToDictEntries` |
| `ConsentModel.FromDict` | models/consent.py:35-47 | `from_dict`: `id` and `revoked_at` through `get`, the other keys by subscript (a missing one is a `KeyError`), times parsed; `FromDictToDict` inverts `ToDict` with it |
| `ConsentModel.ToDictKeys` | models/consent.py:22-33 | `to_dict` writes exactly `id`, `user_id`, `third_party_id`, `data_types`, `purpose`, `granted_at`, `status`, `revoked_at`, each once |
| `ConsentModel.ToDictEntries` | models/consent.py:22-33 | Each key maps to its field; times are formatted; an unrevoked consent writes `None` |
| `ConsentModel.NotRevokedWritesNone` | models/consent.py:32 | `revoked_at = None` is written as `None` |
| `ConsentModel.FromDictToDict` | models/consent.py:22-47 | `from_dict(to_dict(c)) == c` whenever formatting and parsing times round-trip |
| `ConsentModel.MissingIdGivesNone` | models/consent.py:39 | Without an `id` key, a consent that reads back has no id |
| `ConsentModel.FalsyRevokedGivesNone` | models/consent.py:46 | A missing or falsy `revoked_at` reads back as not revoked |
| `ConsentModel.MissingRequiredKeyFails` | models/consent.py:40-45 | A missing `user_id`, `third_party_id`, `data_types`, `purpose`, `granted_at` or `status` is an error |
| `ConsentModel.RequiredText` | models/consent.py:40-45 | `data[key]` fails with `KeyError(key)` when the key is missing, and otherwise yields the stored string |
| `PyData.GetFinds` | models/consent.py:39 | `get` finds a key iff the dictionary has it, and then returns one of its entries |
| `PyData.StringsRoundTrip` | models/consent.py:28 | A list of strings written as a value reads back as the same list |
| `ConsentService.IndexOfId` | services/solid_service.py:31-34 | The lookup finds a consent iff one has that id, and then the one it returns has it |
| `ConsentService.ConsentStore.GrantConsent` | services/consent_service.py:9-27 | Exactly one new record is appended: `active`, with the request's fields and the fresh id. The receipt is `granted` with that id and the formatted time. Ids stay distinct |
| `ConsentService.NewConsent` | services/consent_service.py:11-18 | The new consent copies third party, data types and purpose, is `active`, and has no revocation time |
| `ConsentService.ConsentStore.RevokeConsent` | services/consent_service.py:29-46 | An absent consent, or one owned by another user, fails with `Consent not found or unauthorized` and the store is unchanged. Otherwise only that record's status and revocation time change. The third party is not checked |
| `ConsentService.Revoke` | services/consent_service.py:36-37 | Revocation sets status `revoked` and the revocation time; every other field is kept |
| `ConsentService.UserConsents` | services/consent_service.py:48-50 | `get_user_consents(user_id)` over the store: the user's consents in store order |
| `ConsentService.ActiveConsents` | services/consent_service.py:55-58 | The comprehension: the consents active for the third party, in order |
| `ConsentService.StatusOf` | services/consent_service.py:52-71 | `get_consent_status`: `has_consent` is a non-empty active list, and `active_consents` its views |
| `ConsentService.AnyCovers` | services/consent_service.py:76-81 | The `any(...)`: some consent in the list is active for the third party and lists the data type |
| `ConsentService.VerifyConsent` | services/consent_service.py:73-81 | `verify_consent`: `any(...)` over the user's consents |
| `ConsentService.ConsentStore.History` | services/consent_service.py:48-50 | `get_consent_history` on the store's records |
| `ConsentService.ConsentStore.Status` | services/consent_service.py:52-71 | `get_consent_status` on the store's records |
| `ConsentService.ConsentStore.Verify` | services/consent_service.py:73-81 | `verify_consent` on the store's records |
| `ConsentService.UserConsentsMembers` | services/consent_service.py:48-50 | A user's history holds exactly that user's consents |
| `ConsentService.UserConsentsAppend` | services/consent_service.py:48-50 | The history keeps store order |
| `ConsentService.ActiveConsentsMembers` | services/consent_service.py:55-58 | The comprehension keeps exactly the consents active for the third party |
| `ConsentService.ActiveConsentsAppend` | services/consent_service.py:55-58 | The active consents are listed in store order |
| `ConsentService.Views` | services/consent_service.py:62-70 | Each listed consent shows its id, data types, purpose and formatted grant time |
| `ConsentService.HasConsentIff` | services/consent_service.py:52-61 | `has_consent` iff some consent of the user is active for the third party |
| `ConsentService.ActiveConsentsExactly` | services/consent_service.py:55-71 | `active_consents` shows exactly the views of the user's consents active for the third party |
| `ConsentService.AnyCoversIff` | services/consent_service.py:76-81 | `any(...)` holds iff some consent in the list is active for the third party and covers the data type |
| `ConsentService.VerifyConsentIff` | services/consent_service.py:73-81 | `verify_consent` iff some consent of the user is active for the third party and lists the data type |
| `ConsentService.VerifyImpliesHasConsent` | services/consent_service.py:55-81 | A verified data type implies `has_consent` |
| `ConsentService.RevokedNeverCovers` | services/consent_service.py:76-81 | A revoked consent never verifies anything |
| `ConsentService.GrantExtendsHistory` | services/consent_service.py:9-27 | A grant adds the new consent at the end of the user's history; other users' histories are unchanged |
| `ConsentService.GrantEnablesVerify` | services/consent_service.py:9-27 | After a grant, every requested data type verifies for that third party |
| `ConsentService.GrantKeepsVerified` | services/consent_service.py:9-27 | A grant takes nothing away from `verify_consent` |
| `ConsentService.RevokeOnlyWithdraws` | services/consent_service.py:29-46 | Whatever verifies after a revocation verified before it |
| `ConsentService.RevokeWithdrawsCover` | services/consent_service.py:29-46 | Revoking the only consent covering a data type makes `verify_consent` false for it |
| `DataService.FieldError` | services/data_service.py:61-69 | The first failing check on one record: not a dictionary, missing `type`, missing `value`, unknown `type` |
| `DataService.FirstError` | services/data_service.py:60-69 | The error of the first record, in dictionary order, that fails a check; none when all pass |
| `DataService.ValidateData` | services/data_service.py:56-69 | The nested loops return exactly the first error: records in dictionary order, and in each the checks in source order |
| `DataService.FieldErrorNoneIff` | services/data_service.py:60-69 | A record is accepted iff it is a dictionary with `type` and `value` and a `type` among `string`, `number`, `boolean`, `array`, `object` |
| `DataService.FieldErrorPrecedence` | services/data_service.py:60-69 | Within a record: not-a-dictionary first, then missing `type`, then missing `value`, then an unknown type |
| `DataService.FirstErrorNoneIff` | services/data_service.py:56-69 | The data is accepted iff every record is well formed; so the empty dictionary is accepted |
| `DataService.FirstErrorIsFirstBad` | services/data_service.py:60-69 | A reported error is that of a bad record all of whose predecessors are well formed |
| `DataService.DataStore.UpdateUserData` | services/data_service.py:16-28 | Validation fails iff the data has an error, and then nothing is written. Otherwise exactly one write, and the receipt is `success` with the keys in order |
| `DataService.UserDataLookup` | services/data_service.py:10-14 | The single-type lookup iff `data_type` is given and non-empty; otherwise all data |
| `DataService.DataStore.CreateDataRequestAsWritten` | services/data_service.py:30-54 | As written, the call raises `NameError` for `datetime` and stores nothing |
| `DataService.CreateDataRequestOutcome` | services/data_service.py:44 | Every call fails with `NameError('datetime')` |
| `DataService.DataStore.CreateDataRequest` | services/data_service.py:30-54 | With `datetime` imported: one `pending` request under the fresh id, and a receipt naming it; ids stay distinct |
| `DataService.FreshIdStaysUnique` | services/solid_service.py:61-65 | A fresh id keeps request ids distinct, and only the new request has it |
| `IndexPage.FindTitle` | src/pages/Index.tsx:213 | `find` gives no title iff nothing is selected or no service has the id, and otherwise that service's title |
| `IndexPage.ServiceTitle` | src/pages/Index.tsx:15-40 | `FindTitle` over the three offered services |
| `IndexPage.AuthServiceName` | src/pages/Index.tsx:213 | The dialog's service name is the selected service's title, or `''` when there is none |
| `IndexPage.WelcomeText` | src/pages/Index.tsx:56 | The greeting is `Welcome! You can now access ` followed by the title, or `undefined` when there is none |
| `IndexPage.EveryServiceHasItsTitle` | src/pages/Index.tsx:15-40 | Each offered service's id finds its own title |
| `IndexPage.UnknownServiceHasNoTitle` | src/pages/Index.tsx:213 | An id not on offer, or no selection, gives no title and the name `''` |
| `IndexPage.BankHome.constructor` | src/pages/Index.tsx:10-13 | All four flags start cleared |
| `IndexPage.BankHome.View` | src/pages/Index.tsx:62-64 | While waiting for consent only the waiting view is shown; otherwise the home page, with the dialog iff `showAuth` |
| `IndexPage.BankHome.HandleServiceSelect` | src/pages/Index.tsx:42-45 | Selects the service and opens the dialog; nothing else changes |
| `IndexPage.BankHome.HandleAuthSuccess` | src/pages/Index.tsx:47-51 | Authenticated, dialog closed, waiting for consent; the waiting view is shown |
| `IndexPage.BankHome.HandleConsentComplete` | src/pages/Index.tsx:53-60 | Greets with the selected service's title, then clears the waiting flag, the selection and authentication |
| `IndexPage.BankHome.HandleAuthClose` | src/pages/Index.tsx:211 | Only the dialog closes |
| `IndexPage.Journey` | src/pages/Index.tsx:42-60 | Select, authenticate and complete: the page returns to its initial flags with one greeting naming the service |
| `AuthModal.Dialog.PasswordButtonEnabled` | src/components/AuthModal.tsx:145 | The password button is enabled iff not loading |
| `AuthModal.Dialog.CertificateButtonEnabled` | src/components/AuthModal.tsx:190 | The certificate button is enabled iff not loading and a file is selected |
| `AuthModal.Dialog.constructor` | src/components/AuthModal.tsx:20-23 | Empty email and password, not loading, no certificate |
| `AuthModal.Dialog.SetEmail` | src/components/AuthModal.tsx:127 | Only the email changes |
| `AuthModal.Dialog.SetPassword` | src/components/AuthModal.tsx:138 | Only the password changes |
| `AuthModal.Dialog.HandlePasswordLogin` | src/components/AuthModal.tsx:26-48 | An empty email or password: the `Missing credentials` toast, loading not set, no authentication started. Otherwise loading starts, both buttons are disabled, and one check is pending |
| `AuthModal.Dialog.HandleCertificateLogin` | src/components/AuthModal.tsx:50-71 | No file: the `No certificate selected` toast, loading not set, no authentication started. Otherwise loading starts and one check is pending |
| `AuthModal.Dialog.FireTimer` | src/components/AuthModal.tsx:40-47 | The oldest pending check shows its success toast, loading ends, and `onAuthSuccess` is called exactly once |
| `AuthModal.CompletionToast` | src/components/AuthModal.tsx:41-44 | A completed check shows a non-destructive toast, the password one iff it was a password check |
| `AuthModal.Dialog.HandleFileChange` | src/components/AuthModal.tsx:73-78 | The first chosen file replaces the certificate; choosing no file keeps the previous one |
| `AuthModal.PasswordLoginSucceedsOnce` | src/components/AuthModal.tsx:26-48 | With both credentials, one login ends not loading, with one success toast and exactly one `onAuthSuccess` call |
| `AuthModal.CertificateLoginWithoutFile` | src/components/AuthModal.tsx:50-58 | Without a file, loading never starts and `onAuthSuccess` is never called |

## Left out

- JSX markup and rendering. Only the decisions a render makes are modelled: the view switch, the dialog's service
  name, and the buttons' `disabled` conditions.
- The `setTimeout` before the redirect in `handleProvideConsent` is folded into the click. The redirect uses the
  selection and gate captured at the click, as the closure does.
- The two `setTimeout`s of the dialog are a pending queue, and `FireTimer` fires the oldest. The 2000 ms and 2500 ms
  delays are not modelled, so a password check and a certificate check pending together would fire in start order.
  The dialog's disabled buttons keep that from happening.
- The dialog's state resetting when it unmounts and remounts is not modelled.
- `logEvent` is a best-effort network POST. The events it is given are a ghost append-only log. Timestamps and
  delivery are not modelled.
- `ConsentWaiting.tsx` is a timer-driven progress animation with no decision logic. Only its call of
  `onConsentComplete` is modelled, as `HandleConsentComplete`.
- The pod storage behind the services is a stub: `get_consent` returns `None` and `get_user_consents` returns `[]`.
  With those stubs, every revocation fails and every query is empty. The model replaces the stubs with an in-memory
  store in store order. `uuid4` is a fresh id the caller supplies, with a requirement that it is unused.
- The Flask routes, JWT, CORS and HTTP status mapping are not modelled.
- `datetime.utcnow()` is a `now` parameter. `isoformat` and `fromisoformat` are an abstract codec. The round trip
  assumes that parsing reads a formatted time back and that a formatted time is never empty.
- `ConsentModel.FromDict`: the dataclass stores whatever value it is given. The model rejects a non-string where a
  string field is expected, and a non-list of strings for `data_types`, with `IllTyped`. This is deliberately
  narrower than the source.
- Python floats and other value types are not modelled. Values are `None`, booleans, integers, strings, lists and
  dictionaries.
- `DataService.ValidateData`: the error messages are represented by the parts interpolated into them. Python's
  `str()` of a non-string `type` value is not rendered.
- `encodeURIComponent` is UTF-8 percent-encoding of each code point. The `URIError` for a lone surrogate is not
  modelled.
- No code in the source reads the redirect's parameters. The bank's home page (`src/pages/Index.tsx`) never reads
  `consent`, `service` or `data`, and it ignores the outcome: the waiting view calls `onConsentComplete` on its timer
  whatever happened, so the bank greets the user even after a decline. `Uri.ReadQuery`, `Uri.QueryValue` and
  `Text.Split` are a reference reader standing for any relying party of the handoff; the redirect lemmas state what
  such a reader recovers.
- `Uri.QueryValue`: the reference reader splits the query on `&` and `=` only. It does not percent-decode or turn `+`
  into a space as `URLSearchParams.get` does, so it sees the encoded service name.
- `SolidPodInterface.ParamOr`: the values `searchParams.get` returns are taken as already decoded.
- JavaScript object-prototype lookups in `serviceDetails[serviceId]` (for example `toString`) are not modelled. The
  table is a three-entry map.
- Actual credential verification is not modelled. The source simulates success unconditionally.
- The consent page's handlers carry no guard against being called twice. Only the buttons' `disabled` conditions
  stand in the way, and those are modelled as predicates.
- A Python dictionary is a sequence of entries in insertion order. `ValidateData` and `UpdateUserData` require the
  top-level dictionary's keys to be distinct, as every Python dictionary's are; nested records are read by the first
  entry with a key, which is the only one when they come from Python.
- The code does not reject toggled ids outside the catalog, does not deduplicate ticks, and does not refuse a
  second decision with an error; the model does the same.

## Findings

| source | as written | input that shows it | evidently intended | confidence | as-written member | corrected member |
|---|---|---|---|---|---|---|
| services/data_service.py:44 | `create_data_request` calls `datetime.utcnow()`, but the module imports only `typing`, `SolidService` and `ConsentService` (lines 1-3). | Any call, for example `create_data_request('bank', 'u1', ['email'], 'kyc')`, raises `NameError` before anything is stored. | Store a `pending` request stamped with the current time under a fresh id, and return that id. | not executed; high: the name is unbound on every path | `DataService.DataStore.CreateDataRequestAsWritten` | `DataService.DataStore.CreateDataRequest` |
