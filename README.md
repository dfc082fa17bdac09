# Hospital record management — a verified model

This project models the core of a small bilingual (French/Arabic) hospital
record application. The model covers:

- The application shell (`App.tsx`). It holds a state machine over five
  screens: role selection, patient login, doctor search, a patient's record
  page and the patient's chat. It also holds the roster of patients, which
  record edits are written back to.
- Patient lookup by CIN (the national identity card number). The doctor's
  search ignores case and runs over the live roster. The patient's login
  compares exactly and runs over the seed data.
- The record page. A new record is put in front of the stored list and gets
  its id from the clock. Records are shown newest first with a stable sort.
  The add-record form is offered only to doctors and the chat button only to
  patients.
- The add-record form, whose five fields are emitted together on submit and
  then reset.
- The chat screen. It holds the message log, the welcome message and the
  send step with its typing indicator. It builds the prompt for the
  generative-model service and picks the fallback replies. The service's
  answer enters the model as an abstract outcome.
- The translation function `t`. It falls back to the key itself, and French
  is the default language.
- The header. It holds the language toggle, the role badge, the "logged in
  as" line and the logout control.
- The attachment gallery. It maps each attachment kind to a label and a
  colour, hides an empty list, and selects an image for enlargement.
- The seed patients, with the facts the screens rely on. Their CINs are
  distinct even ignoring case. Records are stored newest first. Record and
  attachment ids are distinct. Every attachment kind is a known one.

Modules follow the source files: `App` (`src/App.tsx`), `CinLookup`,
`CinSearch` and `PatientLogin` (`src/components/CINSearch.tsx`,
`src/components/PatientLogin.tsx`), `PatientRecords`, `AddRecordForm`,
`ChatBot`, `Header` and `MedicalAttachments` (the components of the same
names), `LanguageContext` (`src/contexts/LanguageContext.tsx`) and `MockData`
(`src/data/mockData.ts`). Three small modules support them:
`Wrappers` (`Option`), `UserRoles` and `Text` (upper-casing, trimming and
decimal rendering of numbers). Where the source updates state in place, the
model uses a class with methods: the app shell, the forms, the record page,
the gallery, the chat and the language provider. Everything else is
functions and lemmas.

Three behaviours of the program are easy to overlook:

- The patient login looks a CIN up with exact equality, and only in the
  seed data (`mockPatients`). It does not ignore case and does not see
  records added during the session. `PatientLogin.LoginIsCaseSensitive`
  shows one input where the login and the doctor's search disagree.
- Record ids are the clock reading at the time of adding. Nothing makes them
  unique, so the model claims no uniqueness.
- Every chat reply comes from the generative-model service. An empty answer
  is replaced by a French line whatever the language.

The translation function `t` of a provider is `LanguageContext.Translate`
applied to the provider's current language.

An attachment's `type` field is called `kind` in the model, because `type`
is a Dafny keyword.

## Model

| member | source | states |
|---|---|---|
| App.HomeView | src/App.tsx:21-28 | A doctor lands on the search screen and a patient on the login screen; the two cases are exactly the two roles |
| App.UpdateRoster | src/App.tsx:55-63 | Same length; each patient whose CIN equals the open patient's exactly takes the new records, every other patient is kept |
| App.UpdateKeepsCins | src/App.tsx:57-59 | Writing records back never changes the roster's CIN list |
| App.UpdateKeepsFindIndex | src/App.tsx:57-59 | A CIN lookup over the updated roster stops at the same position as over the old one, in either match mode |
| App.UpdateVisibleToSearch | src/App.tsx:55-63 | After records are written back, a search that found the patient now finds it with the new records |
| App.AppState.constructor | src/App.tsx:16-19 | Opens on the role screen, no role, no patient, roster = seed; the screen invariant holds |
| App.AppState.LogoutOffered | src/App.tsx:79 | Logout is offered exactly when the current screen is not the role screen |
| App.AppState.HeaderBadge | src/App.tsx:77 | The badge shows exactly off the role screen; on every screen with a role, including the record page, it is "doctorRole" for a doctor and "patientRole" for a patient; the search screen shows the doctor badge, the login and chat screens the patient badge |
| App.AppState.RecordPageRendered | src/App.tsx:100 | Under the invariant the record page renders exactly when its view is current |
| App.AppState.ChatRendered | src/App.tsx:110 | Under the invariant the chat renders exactly when its view is current |
| App.AppState.SelectRole | src/App.tsx:21-28 | Sets the role and moves to its home screen, keeping roster and patient; the invariant is kept |
| App.AppState.ClickRoleButton | src/components/RoleSelection.tsx:23-36 | The button's and the card's handlers both fire; the second selection changes nothing and the outcome is that of one selection |
| App.AppState.LogInPatient | src/App.tsx:30-33 | Opens the logged-in seed patient on the record page, role and roster unchanged |
| App.AppState.OpenFoundPatient | src/App.tsx:35-38 | Opens the found roster patient on the record page, role and roster unchanged |
| App.AppState.Back | src/App.tsx:40-47 | Closes the patient and returns to the role's home screen |
| App.AppState.Logout | src/App.tsx:49-53 | Forgets role and patient and shows the role screen; the roster survives |
| App.AppState.UpdateRecords | src/App.tsx:55-63 | With a patient open, roster and open patient take the new records; with none, nothing changes; the screen never changes |
| App.AppState.OpenChat | src/App.tsx:65-67 | From a patient's own record page the chat opens for the same patient |
| App.AppState.CloseChat | src/App.tsx:69-71 | Back from the chat to the same patient's record page |
| CinLookup.FindIndex | src/components/CINSearch.tsx:23 | No result exactly when no CIN matches; otherwise the first matching position |
| CinLookup.Find | src/components/CINSearch.tsx:23 | No result exactly when no CIN matches; a result is the first roster patient whose CIN matches |
| CinLookup.DistinctIgnoringCaseIsDistinct | src/components/CINSearch.tsx:23 | CINs distinct ignoring case are distinct |
| CinLookup.FindCaseVariant | src/components/CINSearch.tsx:23 | With CINs distinct ignoring case, any case variant of a patient's CIN finds exactly that patient |
| CinLookup.FindExactOwnCin | src/components/PatientLogin.tsx:23 | With distinct CINs, a patient's own CIN finds exactly that patient under exact matching |
| CinLookup.SeedDistinctIgnoringCase | src/data/mockData.ts:30-150 | The seed CINs are distinct even ignoring case |
| CinSearch.SearchLookup | src/components/CINSearch.tsx:23 | A hit is the first roster patient whose upper-cased CIN equals the upper-cased query; a miss happens exactly when no roster CIN does |
| CinSearch.ExampleFindsItsPatient | src/components/CINSearch.tsx:33 | Each example CIN button, and any case variant of it, finds its own patient |
| CinSearch.SearchMissIff | src/components/CINSearch.tsx:23-30 | The search misses exactly when no roster CIN equals the query ignoring case |
| CinSearch.SearchForm.constructor | src/components/CINSearch.tsx:18-19 | Empty field, no error |
| CinSearch.SearchForm.Edit | src/components/CINSearch.tsx:53 | Typing sets the field and leaves the error shown as it was |
| CinSearch.SearchForm.UseExample | src/components/CINSearch.tsx:82 | An example button fills in a CIN that the search then finds |
| CinSearch.SearchForm.Submit | src/components/CINSearch.tsx:21-31 | Returns the lookup's result; the error shows exactly on a miss; a hit is a roster patient |
| PatientLogin.LoginLookup | src/components/PatientLogin.tsx:23 | A hit is a seed patient whose CIN equals the typed text exactly; a miss happens exactly when no seed CIN does |
| PatientLogin.LoginFindsSeedPatient | src/components/PatientLogin.tsx:23 | Every seed patient logs in with its own CIN; a login only ever finds a seed patient with exactly that CIN |
| PatientLogin.LoginIsCaseSensitive | src/components/PatientLogin.tsx:23 | A lower-case seed CIN fails to log in although the doctor's search finds it |
| PatientLogin.LoginForm.constructor | src/components/PatientLogin.tsx:18-19 | Empty field, no error |
| PatientLogin.LoginForm.Edit | src/components/PatientLogin.tsx:57-60 | Typing sets the field and clears the error |
| PatientLogin.LoginForm.UseExample | src/components/PatientLogin.tsx:74-81 | An example button, shown with the error, fills in a CIN that logs in as that patient and clears the error |
| PatientLogin.LoginForm.Submit | src/components/PatientLogin.tsx:21-30 | Returns the exact lookup over the seed; a miss sets the error, a hit leaves it and is a seed patient |
| PatientRecords.NewRecord | src/components/PatientRecords.tsx:31-35 | The new record carries the submitted fields unchanged (dropping its id gives back the draft), its id is the clock reading in decimal, and it has no attachments |
| PatientRecords.Key | src/components/PatientRecords.tsx:42 | The sort key of a record is non-negative exactly when its date is well formed |
| PatientRecords.NewRecordId | src/components/PatientRecords.tsx:31-35 | A new record has no attachments, its id reads back as the clock value, and different clock values give different ids |
| PatientRecords.Insert | src/components/PatientRecords.tsx:41-43 | One insertion step of the sort: one longer, and every element is the inserted one or an old one |
| PatientRecords.InsertPermutes | src/components/PatientRecords.tsx:41-43 | An insertion step adds exactly the inserted element to the multiset |
| PatientRecords.InsertOrdered | src/components/PatientRecords.tsx:41-43 | An insertion step keeps a descending list descending |
| PatientRecords.SortDescending | src/components/PatientRecords.tsx:41-43 | The sort returns a permutation of its input in descending key order |
| PatientRecords.WithKeyInsert | src/components/PatientRecords.tsx:41-43 | An insertion step places the new element before every equal-key element |
| PatientRecords.SortStable | src/components/PatientRecords.tsx:41-43 | Stability: elements with the same key keep their relative order |
| PatientRecords.SortKeepsOrdered | src/components/PatientRecords.tsx:41-43 | A list already in descending key order is returned unchanged |
| PatientRecords.SortedHeadIff | src/components/PatientRecords.tsx:41-43 | An element put in front stays first exactly when no other element has a larger key |
| PatientRecords.SortNewestFirst | src/components/PatientRecords.tsx:41-43 | The displayed records are a permutation of the stored ones, newest day first |
| PatientRecords.DisplayedByDate | src/components/PatientRecords.tsx:41-43 | When every record is dated, no displayed record names an earlier day than one shown below it |
| PatientRecords.SameDayKeepsStoredOrder | src/components/PatientRecords.tsx:41-43 | Records of the same day keep their stored order on screen |
| PatientRecords.StrictlyNewestFirstIsNewestFirst | src/components/PatientRecords.tsx:41-43 | Strictly newest-first storage is newest-first in the sort's sense |
| PatientRecords.SeedDisplayedAsStored | src/components/PatientRecords.tsx:41-43 | Each seed patient's records show in their stored order |
| PatientRecords.NewRecordShownFirstIff | src/components/PatientRecords.tsx:36-43 | A newly added record shows at the top exactly when no stored record is dated later |
| PatientRecords.ShowsChatButton | src/components/PatientRecords.tsx:89 | The chat button shows exactly when a chat callback was passed and the viewer is a patient, that is, not the doctor who may add records |
| PatientRecords.ShowsAddRecord | src/components/PatientRecords.tsx:95 | The add button and the form are offered exactly to a doctor |
| PatientRecords.AffordancesExclusive | src/components/PatientRecords.tsx:89-100 | The chat button and the add-record button never show together |
| PatientRecords.ShowsNoRecordsMessage | src/components/PatientRecords.tsx:104-110 | The "no records" card shows exactly when the list is empty |
| PatientRecords.RecordsPanel.constructor | src/components/PatientRecords.tsx:28-29 | Starts from the patient's records with the form closed |
| PatientRecords.RecordsPanel.RecordCount | src/components/PatientRecords.tsx:86 | The badge count is the number of stored records, which is also the number listed |
| PatientRecords.RecordsPanel.SortedRecords | src/components/PatientRecords.tsx:41-43 | The cards are a permutation of the stored records, newest first |
| PatientRecords.RecordsPanel.OpenAddForm | src/components/PatientRecords.tsx:95-96 | A doctor's button opens the form, records unchanged |
| PatientRecords.RecordsPanel.CloseAddForm | src/components/PatientRecords.tsx:153 | Closing the form keeps the records |
| PatientRecords.RecordsPanel.AddRecord | src/components/PatientRecords.tsx:31-39 | The new record is put in front of the stored list, and the same list goes to the shell |
| PatientRecords.RecordsPanel.SubmitForm | src/components/PatientRecords.tsx:150-156 | Submitting the form adds its data as a new record, resets the form and closes it |
| AddRecordForm.BlankDraft | src/components/AddRecordForm.tsx:19-25 | A fresh form is dated today with four empty fields |
| AddRecordForm.RecordForm.constructor | src/components/AddRecordForm.tsx:19-25 | The form opens blank |
| AddRecordForm.RecordForm.Change | src/components/AddRecordForm.tsx:43-48 | The named field takes the value; the other four keep theirs |
| AddRecordForm.RecordForm.Submit | src/components/AddRecordForm.tsx:27-41 | Emits the data as it stood and resets to a blank form; only a form with every field filled submits |
| ChatBot.Prompt | src/components/ChatBot.tsx:52-55 | The prompt is the language's instruction, then the question unaltered, then a closing double quote |
| ChatBot.PromptRoundTrip | src/components/ChatBot.tsx:52-55 | The question can always be read back out of its prompt |
| ChatBot.PromptInjective | src/components/ChatBot.tsx:52-55 | Different questions make different prompts |
| ChatBot.Reply | src/components/ChatBot.tsx:49-65 | Never empty; a non-empty answer as given, an empty one the French "not understood" line, a failure the apology in the request's language |
| ChatBot.Conversation.constructor | src/components/ChatBot.tsx:25-27 | Empty log, empty field, no indicator |
| ChatBot.Conversation.ShowWelcome | src/components/ChatBot.tsx:30-41 | An empty log gets the welcome with id "1"; a non-empty log is kept |
| ChatBot.Conversation.EditInput | src/components/ChatBot.tsx:186-191 | The field is editable only while no reply is awaited |
| ChatBot.Conversation.CanSend | src/components/ChatBot.tsx:193 | The send button is enabled exactly when the field is not all whitespace and no reply is awaited |
| ChatBot.Conversation.BeginSend | src/components/ChatBot.tsx:67-81 | A blank field does nothing; otherwise the untrimmed text is posted as a user message, the field clears, the indicator turns on and the prompt for that text is returned; it posts exactly when the send button was enabled |
| ChatBot.Conversation.PostQuestion | src/components/ChatBot.tsx:68-79 | The state change of the first half of a send, posted exactly when the field is not blank |
| ChatBot.Conversation.FinishSend | src/components/ChatBot.tsx:81-91 | The reply in the request's language is appended as a bot message and the indicator turns off |
| ChatBot.Conversation.Send | src/components/ChatBot.tsx:67-92 | A non-blank question adds exactly two messages, question then a non-empty reply, with distinct ids when the clock does not go back, and leaves the field empty; a blank one adds none and keeps the field |
| LanguageContext.Translate | src/contexts/LanguageContext.tsx:313-315 | An unknown key is returned as itself; a known key gives its phrase in the language (or the key) |
| LanguageContext.TranslateKnownKey | src/contexts/LanguageContext.tsx:313-315 | A key in the table gives its phrase in the language, never empty |
| LanguageContext.TranslateNonEmpty | src/contexts/LanguageContext.tsx:313-315 | `t` never returns an empty text for a non-empty key |
| LanguageContext.TranslationsComplete | src/contexts/LanguageContext.tsx:12-300 | Every key of the table has a non-empty French and a non-empty Arabic phrase |
| LanguageContext.UnionComplete | src/contexts/LanguageContext.tsx:12-300 | Joining two complete sections gives a complete table |
| LanguageContext.HeaderSectionComplete | src/contexts/LanguageContext.tsx:13-30 | The header section is complete in both languages |
| LanguageContext.CinSearchSectionComplete | src/contexts/LanguageContext.tsx:31-60 | The search section is complete in both languages |
| LanguageContext.PatientInfoSectionComplete | src/contexts/LanguageContext.tsx:61-94 | The patient-information section is complete in both languages |
| LanguageContext.MedicalRecordsSectionComplete | src/contexts/LanguageContext.tsx:95-128 | The medical-records section is complete in both languages |
| LanguageContext.AddRecordFormSectionComplete | src/contexts/LanguageContext.tsx:129-170 | The add-record section is complete in both languages |
| LanguageContext.ChatbotSectionComplete | src/contexts/LanguageContext.tsx:171-200 | The chat section is complete in both languages |
| LanguageContext.RoleSelectionSectionComplete | src/contexts/LanguageContext.tsx:201-226 | The role-selection section is complete in both languages |
| LanguageContext.PatientLoginSectionComplete | src/contexts/LanguageContext.tsx:227-244 | The login section is complete in both languages |
| LanguageContext.UserInfoSectionComplete | src/contexts/LanguageContext.tsx:245-254 | The user-information section is complete in both languages |
| LanguageContext.AttachmentsSectionComplete | src/contexts/LanguageContext.tsx:255-300 | The attachments section is complete in both languages |
| LanguageContext.SectionKeysInTable | src/contexts/LanguageContext.tsx:12-300 | The header, role and attachment keys used by the screens are in the table |
| LanguageContext.LanguageProvider.constructor | src/contexts/LanguageContext.tsx:311 | The language starts as French |
| LanguageContext.LanguageProvider.SetLanguage | src/contexts/LanguageContext.tsx:318 | Sets the language |
| Header.Toggled | src/components/Header.tsx:16-18 | The toggle always switches to the other language |
| Header.ToggleInvolution | src/components/Header.tsx:16-18 | Toggling twice restores the language |
| Header.ToggleButtonKey | src/components/Header.tsx:47 | The button is labelled with the name of the language a click switches to, a key of the header section |
| Header.RoleBadgeKey | src/components/Header.tsx:27-30 | A badge exactly when a role is set; "doctorRole" exactly for a doctor and "patientRole" for a patient; the key is in the table |
| Header.ShowsLoggedInAs | src/components/Header.tsx:34 | The line needs a name; an empty name hides it and a non-empty name shows it |
| Header.ToggleLanguage | src/components/Header.tsx:16-18 | A click hands the provider the other language |
| MedicalAttachments.LabelKey | src/components/MedicalAttachments.tsx:44-61 | A known kind reads as its own label key, an unknown one as the document label; the key is in the table |
| MedicalAttachments.LabelKeyInjective | src/components/MedicalAttachments.tsx:44-61 | Different known kinds get different labels |
| MedicalAttachments.ColorClasses | src/components/MedicalAttachments.tsx:63-80 | The grey classes go exactly to documents and unknown tags |
| MedicalAttachments.ColorClassesDistinct | src/components/MedicalAttachments.tsx:63-80 | The six known tags get six pairwise different colour classes |
| MedicalAttachments.ColorClassesInjective | src/components/MedicalAttachments.tsx:63-80 | Two known tags with the same colour classes are the same tag |
| MedicalAttachments.UnknownTagColoredAsDocument | src/components/MedicalAttachments.tsx:63-80 | An unknown kind gets exactly the document colours |
| MedicalAttachments.RendersGallery | src/components/MedicalAttachments.tsx:82-84 | The gallery renders exactly for a present, non-empty list |
| MedicalAttachments.Gallery.constructor | src/components/MedicalAttachments.tsx:23 | Nothing is selected at first |
| MedicalAttachments.Gallery.Select | src/components/MedicalAttachments.tsx:98 | A click on a thumbnail selects exactly that attachment and opens the dialog |
| MedicalAttachments.Gallery.CloseDialog | src/components/MedicalAttachments.tsx:124 | Closing the dialog clears the selection |
| MockData.DayKey | src/components/PatientRecords.tsx:42 | The day key is non-negative exactly for a date `YYYY-MM-DD` with month 01-12 and day 01-31; anything else gets a negative key |
| MockData.DayKeyOrder | src/components/PatientRecords.tsx:41-43 | One date's key is below another's exactly when its (year, month, day), read from its digits, comes first in lexicographic order |
| MockData.DayKeyInjective | src/components/PatientRecords.tsx:41-43 | Two dates have equal keys exactly when they are the same string |
| MockData.Cins | src/components/CINSearch.tsx:33 | The CINs of a roster, position by position |
| MockData.SeedCinsListed | src/data/mockData.ts:30-150 | The seed CINs are AB123456, CD789012 and EF345678, in that order |
| MockData.SeedCinsDistinct | src/data/mockData.ts:28-186 | Three seed patients with distinct CINs |
| MockData.SeedRecords | src/data/mockData.ts:28-186 | All seed records are the three patients' lists in order |
| MockData.AllAttachmentsAppend | src/data/mockData.ts:10-18 | Collecting attachments distributes over concatenation |
| MockData.AttachmentsOfShort | src/data/mockData.ts:10-18 | The attachments of up to three records, written out |
| MockData.SeedAttachments | src/data/mockData.ts:28-186 | The seed attachments are the records' attachments in order |
| MockData.SeedRecordIdsDistinct | src/data/mockData.ts:36-157 | The seed record ids are "1" to "6", all distinct |
| MockData.SeedAttachmentIdList | src/data/mockData.ts:44-176 | The seed attachment ids are att1 to att12 in order |
| MockData.SeedAttachmentIdsDistinct | src/data/mockData.ts:44-176 | The seed attachment ids are distinct |
| MockData.AttachmentIdListDistinct | src/data/mockData.ts:44-176 | The list att1 to att12 has no repeats |
| MockData.SeedAttachmentTags | src/data/mockData.ts:5 | Every seed attachment has one of the six known kinds |
| MockData.SeedRecordList | src/data/mockData.ts:34-181 | The seed records, one by one |
| MockData.SeedRecordsNewestFirst | src/data/mockData.ts:37-157 | Each seed patient's records are stored strictly newest first |
| MockData.SeedFirstPatient | src/data/mockData.ts:29-35 | The first seed patient is Ahmed Ben Salem, AB123456, with three records |
| MockData.SeedPatientsWellFormed | src/data/mockData.ts:32-153 | Every seed birth date is an ISO date and every gender is M or F |
| MockData.SeedRecordDates | src/data/mockData.ts:37-157 | Every seed record date is an ISO date |
| Text.ToUpper | src/components/CINSearch.tsx:23 | Same length; each character upper-cased |
| Text.ToUpperEqIff | src/components/CINSearch.tsx:23 | Upper-cased strings are equal exactly when the strings agree ignoring case |
| Text.ToUpperOfUpper | src/components/CINSearch.tsx:23 | Upper-casing yields an upper-case string and leaves one unchanged |
| Text.TrimStart | src/components/ChatBot.tsx:68 | Drops exactly the leading whitespace |
| Text.TrimEnd | src/components/ChatBot.tsx:68 | Drops exactly the trailing whitespace |
| Text.TrimEmptyIff | src/components/ChatBot.tsx:68 | A text trims to empty exactly when it is all whitespace |
| Text.DigitChar | src/components/PatientRecords.tsx:34 | A digit value renders as a digit character |
| Text.DigitValue | src/components/PatientRecords.tsx:34 | A digit character reads back as the value that renders it |
| Text.NatToString | src/components/PatientRecords.tsx:34 | A clock reading renders as a non-empty string of digits |
| Text.NatToStringRoundTrip | src/components/PatientRecords.tsx:34 | The rendered digits read back as the number |
| Text.NatToStringInjective | src/components/ChatBot.tsx:71-84 | Different numbers render differently, so the two ids of an exchange differ |

## Left out

- Rendering: JSX layout, CSS classes other than the attachment colours,
  icons, text direction, dialogs as widgets, the toast after adding a record,
  the scroll-to-bottom effect of the chat, and the role screen's cards (only
  their double-firing click is modelled).
- The generative-model SDK, its model name and the API key from the
  environment. A call's result is a parameter (`ServiceOutcome`); its error
  logging is left out.
- Asynchrony and React's scheduling. A send is modelled as two steps
  (`BeginSend`, `FinishSend`). Batched updates, stale closures and an
  interleaving of other events between the two steps are not modelled.
- Clocks. `Date.now()`, `new Date()` and `toISOString()` are parameters
  (`now`, `later`, `today`). Message timestamps are clock readings (`nat`),
  not `Date` objects.
- PatientRecords.Key: date comparison uses integer day keys (YYYYMMDD) in
  place of the floating-point `getTime()` difference. The model accepts only
  `YYYY-MM-DD` with month 01-12 and day 01-31, and gives anything else key
  -1. The JavaScript date parser differs in both directions. A day past the end of its
  month (`2024-09-31`, `2023-02-29`, `2024-02-30`) gets its own key in the
  model, but JavaScript engines either reject it or roll it over into the
  next month. The parser also accepts
  forms the model rejects, such as `2024/10/15`. The NaN comparisons
  that follow a rejected date are not reproduced either.
- Text.ToUpper: upper-cases ASCII letters only; the full Unicode case
  mapping of `toUpperCase` is not modelled.
- The provider-missing error that `useLanguage` throws outside a provider.
- Attachment images: the seed URLs are kept only as short photo
  identifiers, and image loading is not modelled.
- ChatBot.Conversation.ShowWelcome: takes the translated welcome text as a
  parameter instead of calling `t` itself.
- PatientRecords.NewRecordId: states that different clock readings give
  different ids, but record ids are not unique, because two additions in
  the same millisecond share one.
- CinSearch.SearchForm.Submit: does not model the browser's `required` check
  that keeps an empty CIN from being submitted; the model instead shows the
  error, as no roster CIN is empty.
- App.AppState.Valid keeps the roster's CINs equal to the seed's; the model
  has no operation that adds or removes patients, and neither has the source.
