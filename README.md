# NEC nomination user portal — a Dafny model

This project models the candidate-facing portal of the National Elections
Commission nomination system, a React application backed by Supabase. A
candidate signs up or logs in. The sign-up shows a passcode that is also
stored in `user_passcodes`. From the nomination dashboard the candidate can:

- walk through the three-step nomination wizard;
- submit a letter of intent, which gets an 8-character unique code that no
  earlier letter holds;
- upload and delete party documents in the candidate's own storage folder;
- fill in the aspirant questionnaire and the financial disclosure;
- edit the profile and avatar;
- request a password-reset link.

Each component becomes one Dafny module:

| module | file | models |
|---|---|---|
| `Common` | `common.dfy` | JavaScript idioms the components share: `s \|\| null`, `a \|\| b`, `.some`, `.filter((_, idx) => idx !== i)`, copy-and-assign on an array |
| `Text` | `text.dfy` | `trim()`, decimal printing and `padStart`, ASCII `toUpperCase`, `charAt(0)` |
| `Codes` | `codes.dfy` | the random 8-character code over `A-Z0-9` (the letter-of-intent code and the sign-up passcode) |
| `CodeAllocation` | `code_allocation.dfy` | the generate, look up and retry loop that looks for a free code |
| `LetterOfIntent` | `letter_of_intent.dfy` | the letter-of-intent form: validation, code allocation, today's date, the inserted row, the page's state |
| `Questionnaire` | `questionnaire.dfy` | the aspirant questionnaire |
| `FinancialDisclosure` | `financial_disclosure.dfy` | the candidate financial disclosure form |
| `Auth` | `auth.dfy` | login, sign-up, the passcode and the profile row created on first sign-in |
| `NominationForm` | `nomination_form.dfy` | the three-step wizard |
| `PartyDocs` | `party_docs.dfy` | party document upload, listing, deletion and preview links |
| `NominationDashboard` | `nomination_dashboard.dfy` | the dashboard's profile box, tabs and logout |
| `PasswordReset` | `password_reset.dfy` | the password reset panel |
| `ProfileEditor` | `profile_editor.dfy` | the profile editor and avatar upload |

## How the model is built

Randomness, the clock and the backend are parameters, not effects:

- `Math.random()` is a `RandomSource`, a function from draw number to
  symbol index.
- `new Date()` is a `Clock`, and `Date.now()` is a `nat`.
- `supabase.auth.getUser()` is an `Option<User>`.
- Each query, insert, upload or remove is given as its reply.
  - A lookup table is a `map`.
  - A failing storage call is an `Option<string>` error message.
  - Per-path upload errors are a `map` from path to message.

Each page's React state is a `class`. Its fields are the `useState`
variables. Each handler is a `method` whose `ensures` gives the whole new
state, in terms of specification functions. The lemmas beside them prove
what the page promises, for example:

- validation accepts exactly the complete forms, and names the first check
  that failed;
- an allocated code was free, and every earlier candidate was taken;
- the row inserted from an accepted form is trimmed and non-empty where
  validation demanded it;
- the passcode shown is the passcode stored;
- a user's file paths never collide with another user's.

Behaviour of the code worth noting:

- A failed uniqueness lookup is not reported with the backend's error. That
  lookup has no `data`, so reading `data.length` throws, and the page shows
  that TypeError's message. `CodeAllocation.NullDataLength` holds V8's
  wording of it (Chrome, Edge); other engines word it differently.
- Only some letter-of-intent fields are trimmed when stored. `citizenship`,
  `partyType`, `dateOfBirth` and `gender` are stored as chosen or typed.
- In the financial disclosure, asset and liability fields are not trimmed, so
  a field of spaces counts as filled (`FinancialDisclosure.SpacesCountAsFilled`).
  The candidate name is stored untrimmed.
- The step components the wizard renders take no props: `LetterOfIntentForm()`
  and `PartyDocs()` never call `onNext`, `onBack` or `onSubmit`. As written, the
  wizard cannot leave step 2 through its view, and `handleSubmit` is never
  reached. `NominationForm.Offers` and `NominationForm.OfferedStaysInRange`
  describe the callbacks the wizard hands to each step, not what the steps do
  with them.
- The dashboard navigates to `/` when there is no user, but it leaves
  `loadingProfile` true.
- When the file list becomes empty, the party-documents preview map keeps its
  old entries (`PartyDocs.PartyDocsPage.FetchSignedUrls`).

## Model

| member | source | states |
|---|---|---|
| Common.OrNull | user-portal/src/components/LetterOfIntentStep.jsx:127 | `s \|\| null` is null exactly for the empty string and otherwise holds `s` |
| Common.OrElse | user-portal/src/components/ProfileEditor.jsx:153 | `v \|\| fallback` on a nullable string is the fallback for null or "", otherwise the value |
| Common.OrDefault | user-portal/src/pages/AspirantQuestionnaire.jsx:167 | `s \|\| fallback` is `s` when non-empty, otherwise the fallback |
| Common.OrNullRoundTrip | user-portal/src/components/ProfileEditor.jsx:226 | storing "" as null and reading null back as "" returns the original string |
| Common.AnyOfIffExists | user-portal/src/pages/AspirantQuestionnaire.jsx:100-102 | `.some(p)` holds exactly when some element satisfies `p` |
| Common.FilterOutIndex | user-portal/src/pages/AspirantQuestionnaire.jsx:70 | filtering out index `i` leaves the list alone when `i` is out of range, otherwise removes exactly that element |
| Common.RemoveAt | user-portal/src/pages/AspirantQuestionnaire.jsx:67-71 | removing index `i`: one element shorter, elements before `i` kept, later ones shifted down; out of range changes nothing |
| Common.RemoveAppended | user-portal/src/pages/AspirantQuestionnaire.jsx:59-71 | removing the element just appended gives back the list |
| Common.CopyAndSet | user-portal/src/pages/AspirantQuestionnaire.jsx:53-57 | the copy has the same length, the new element at the index, every other element unchanged |
| Text.TrimStartSpec | user-portal/src/components/LetterOfIntentStep.jsx:38-52 | trimming the start keeps a suffix that is empty or starts with a non-space, and drops only white space |
| Text.TrimEndSpec | user-portal/src/components/LetterOfIntentStep.jsx:38-52 | trimming the end keeps a prefix that is empty or ends with a non-space, and drops only white space |
| Text.Trim | user-portal/src/components/LetterOfIntentStep.jsx:126 | the trimmed string is no longer than the input and is empty or starts and ends with a non-space |
| Text.BlankIffAllSpace | user-portal/src/components/LetterOfIntentStep.jsx:38-52 | `!s.trim()` holds exactly when every character of `s` is white space |
| Text.TrimIdempotent | user-portal/src/components/LetterOfIntentStep.jsx:126 | trimming twice is trimming once |
| Text.TrimmedFixed | user-portal/src/components/LetterOfIntentStep.jsx:126 | a string that is non-empty with non-space ends is unchanged by trimming |
| Text.TrimNonBlank | user-portal/src/components/LetterOfIntentStep.jsx:126 | a non-blank string trims to a non-empty string with non-space ends |
| Text.NatToString | user-portal/src/components/LetterOfIntentStep.jsx:75-76 | `String(n)` is a non-empty digit string with no leading zero |
| Text.IntToStringReadsBack | user-portal/src/components/LetterOfIntentStep.jsx:74-77 | the printed year reads back as the integer: digits alone when non-negative, a minus sign followed by the digits of its magnitude when negative |
| Text.DecimalRoundTrip | user-portal/src/components/LetterOfIntentStep.jsx:75-76 | reading the printed digits back gives the number |
| Text.PadStart | user-portal/src/components/LetterOfIntentStep.jsx:75-76 | `padStart(len, c)` has length `max(\|s\|, len)`, ends with `s`, and is filled with `c` in front |
| Text.ParseZeroPadded | user-portal/src/components/LetterOfIntentStep.jsx:75-76 | leading zeros do not change the value a digit string denotes |
| Text.UpperChar | user-portal/src/pages/NominationDashboard.jsx:95-98 | a lower-case Latin letter becomes its capital; any other character is unchanged |
| Text.Upper | user-portal/src/pages/NominationDashboard.jsx:95-98 | `toUpperCase()` maps each character by `UpperChar` and keeps the length |
| Text.CharAt0 | user-portal/src/pages/NominationDashboard.jsx:95-97 | `charAt(0)` is "" for the empty string, otherwise the first character |
| Codes.CodeFrom | user-portal/src/components/LetterOfIntentStep.jsx:62-69 | the generated code has the requested length |
| Codes.GenerateCode | user-portal/src/components/LetterOfIntentStep.jsx:62-69 | the loop's code equals the draws' code, has the requested length and uses only the 36 symbols |
| Codes.CodeFromSpells | user-portal/src/components/LetterOfIntentStep.jsx:65-67 | the code is the sequence of symbols its draws select |
| Codes.CodeFromWellFormed | user-portal/src/components/LetterOfIntentStep.jsx:62-69 | every generated code has the requested length and only uses symbols of the alphabet |
| Codes.AlphabetAt | user-portal/src/components/LetterOfIntentStep.jsx:63 | the alphabet has 36 symbols: `A`..`Z` at 0..25, then `0`..`9` |
| Codes.AlphabetIsUpperAlnum | user-portal/src/components/LetterOfIntentStep.jsx:63 | a character is in the alphabet exactly when it is a capital Latin letter or a digit |
| Codes.AlphabetDistinct | user-portal/src/components/LetterOfIntentStep.jsx:63 | different draws select different symbols |
| Codes.SpellInjective | user-portal/src/components/LetterOfIntentStep.jsx:65-67 | two draw sequences spell the same code exactly when they are equal |
| CodeAllocation.AttemptsBound | user-portal/src/components/LetterOfIntentStep.jsx:109-122 | an allocation makes at least one lookup and no more than there are candidates |
| CodeAllocation.EarlierTaken | user-portal/src/components/LetterOfIntentStep.jsx:112-120 | every candidate before the last one looked up was already taken |
| CodeAllocation.AcceptedIsFree | user-portal/src/components/LetterOfIntentStep.jsx:118 | an accepted code is the candidate of the last attempt and its lookup returned no row |
| CodeAllocation.FailureCause | user-portal/src/components/LetterOfIntentStep.jsx:118-122 | "Could not generate unique code" means every candidate was taken; any other failure is the null-data TypeError of a failed lookup |
| CodeAllocation.StepQueryError | user-portal/src/components/LetterOfIntentStep.jsx:113-118 | a failed lookup ends the allocation at once with the TypeError |
| CodeAllocation.StepFree | user-portal/src/components/LetterOfIntentStep.jsx:118 | a free candidate is accepted after one lookup |
| CodeAllocation.StepTaken | user-portal/src/components/LetterOfIntentStep.jsx:119-120 | a taken candidate costs one lookup and moves on to the next candidate |
| CodeAllocation.AllocationFacts | user-portal/src/components/LetterOfIntentStep.jsx:109-122 | the allocation from the first attempt: bounded lookups, earlier candidates taken, the accepted code free, and the reason for each failure |
| LetterOfIntent.RequiredIsChecked | user-portal/src/components/LetterOfIntentStep.jsx:37-53 | every field that can be required is one the validation chain tests |
| LetterOfIntent.MissingIffIncomplete | user-portal/src/components/LetterOfIntentStep.jsx:36-59 | validation rejects the form exactly when some required field is not filled in |
| LetterOfIntent.OptionalFields | user-portal/src/components/LetterOfIntentStep.jsx:44 | the middle name never matters, and the party name matters only for a political party |
| LetterOfIntent.InitialFormInvalid | user-portal/src/components/LetterOfIntentStep.jsx:5-23 | the initial form does not validate |
| LetterOfIntent.SmallDecimal | user-portal/src/components/LetterOfIntentStep.jsx:75-76 | a number below 100 prints in at most two digits |
| LetterOfIntent.TwoDigits | user-portal/src/components/LetterOfIntentStep.jsx:75-76 | a month or day padded to two places is two digits denoting the same number |
| LetterOfIntent.TodayDateFormat | user-portal/src/components/LetterOfIntentStep.jsx:72-78 | the received date is the year (whose digits read back as the year when it is not negative), a dash, the two-digit month (month index + 1), a dash and the two-digit day |
| LetterOfIntent.DashJoin | user-portal/src/components/LetterOfIntentStep.jsx:77 | the pieces of `${yyyy}-${mm}-${dd}` can be read back at their positions |
| LetterOfIntent.Candidates | user-portal/src/components/LetterOfIntentStep.jsx:109-121 | the first `n` attempts have `n` candidates |
| LetterOfIntent.CandidatesAt | user-portal/src/components/LetterOfIntentStep.jsx:109-121 | the candidate of attempt `t` is the code of the `t`-th block of eight draws |
| LetterOfIntent.AllocateCode | user-portal/src/components/LetterOfIntentStep.jsx:109-122 | the page's retry loop ends with the allocation the specification defines |
| LetterOfIntent.GenerateCandidate | user-portal/src/components/LetterOfIntentStep.jsx:119 | each regeneration is the code of the next block of draws |
| LetterOfIntent.PageCandidates | user-portal/src/components/LetterOfIntentStep.jsx:109-121 | each of the ten attempts looks up its own candidate |
| LetterOfIntent.PageAttempts | user-portal/src/components/LetterOfIntentStep.jsx:111-121 | at most ten lookups, and every candidate before the last one looked up was taken |
| LetterOfIntent.PageAccepted | user-portal/src/components/LetterOfIntentStep.jsx:118 | an allocated code is the last candidate looked up, and no row held it |
| LetterOfIntent.PageCodeWellFormed | user-portal/src/components/LetterOfIntentStep.jsx:109-122 | an allocated code is eight characters over `A-Z0-9` |
| CodeAllocation.AllTakenFails | user-portal/src/components/LetterOfIntentStep.jsx:112-122 | when every remaining candidate is taken, each is looked up and the allocation fails with "Could not generate unique code" |
| LetterOfIntent.PageAllTaken | user-portal/src/components/LetterOfIntentStep.jsx:109-122 | when all ten candidates are taken, the allocation fails with "Could not generate unique code" after ten lookups (and `Submitted` then inserts nothing) |
| LetterOfIntent.PageExhausted | user-portal/src/components/LetterOfIntentStep.jsx:122 | "Could not generate unique code" comes only after ten taken candidates |
| LetterOfIntent.CandidateWellFormed | user-portal/src/components/LetterOfIntentStep.jsx:62-69 | every candidate is eight characters over `A-Z0-9` |
| LetterOfIntent.RecordOfValidForm | user-portal/src/components/LetterOfIntentStep.jsx:124-148 | a row from a valid form has its required texts trimmed and non-empty; the middle name is null exactly when blank; the party name is present exactly for a political party; it carries the allocated code; it is not approved |
| LetterOfIntent.CompleteFields | user-portal/src/components/LetterOfIntentStep.jsx:37-53 | a complete form has each checked field non-blank or chosen |
| LetterOfIntent.ErrorText | user-portal/src/components/LetterOfIntentStep.jsx:180 | the error shown is never empty and is the thrown message when it has one |
| LetterOfIntent.LetterOfIntentPage.constructor | user-portal/src/components/LetterOfIntentStep.jsx:5-27 | the page starts with the initial form, no message, no error and not loading |
| LetterOfIntent.LetterOfIntentPage.Validate | user-portal/src/components/LetterOfIntentStep.jsx:36-59 | accepts exactly a complete form and sets or clears the error to match |
| LetterOfIntent.LetterOfIntentPage.HandleSubmit | user-portal/src/components/LetterOfIntentStep.jsx:93-184 | an invalid form only sets the error; with no user it fails before any lookup; otherwise allocation, insert, message and form reset happen as specified, and loading ends false |
| LetterOfIntent.LetterOfIntentPage.SubmitAs | user-portal/src/components/LetterOfIntentStep.jsx:108-178 | for a signed-in user: the allocated code is inserted with today's date and the success message; the form is reset; each failure shows its message and keeps the form |
| Questionnaire.AcceptedIffComplete | user-portal/src/pages/AspirantQuestionnaire.jsx:86-122 | validation accepts exactly a signed-in user's form whose every section is complete |
| Questionnaire.RejectionCause | user-portal/src/pages/AspirantQuestionnaire.jsx:86-122 | each error message appears exactly when its check fails and every earlier one passed |
| Questionnaire.IgnoredFields | user-portal/src/pages/AspirantQuestionnaire.jsx:107-119 | resignation details matter only when positions were resigned; government positions are never validated |
| Questionnaire.InitialFormRejected | user-portal/src/pages/AspirantQuestionnaire.jsx:91-98 | the initial form of a signed-in user is rejected for the current address and dates |
| Questionnaire.AddPreviousAddress | user-portal/src/pages/AspirantQuestionnaire.jsx:59-66 | appends one blank address and changes nothing else |
| Questionnaire.RemovePreviousAddress | user-portal/src/pages/AspirantQuestionnaire.jsx:67-71 | removes exactly the address at the index, or nothing when the index is out of range, and changes nothing else |
| Questionnaire.AddGovtPosition | user-portal/src/pages/AspirantQuestionnaire.jsx:72-79 | appends one blank position and changes nothing else |
| Questionnaire.RemoveGovtPosition | user-portal/src/pages/AspirantQuestionnaire.jsx:80-84 | removes exactly the position at the index, or nothing when out of range, and changes nothing else |
| Questionnaire.AddThenRemove | user-portal/src/pages/AspirantQuestionnaire.jsx:59-84 | removing the entry just added gives back the form |
| Questionnaire.AddedAddressRejected | user-portal/src/pages/AspirantQuestionnaire.jsx:99-106 | with the current address complete, a freshly added blank address makes validation ask for the previous addresses |
| Questionnaire.RemoveKeepsAccepted | user-portal/src/pages/AspirantQuestionnaire.jsx:67-71 | removing a previous address from an accepted form keeps it accepted |
| Questionnaire.SetAddress | user-portal/src/pages/AspirantQuestionnaire.jsx:55 | setting one field of an address entry changes that field only |
| Questionnaire.SetPosition | user-portal/src/pages/AspirantQuestionnaire.jsx:55 | setting one field of a position entry changes that field only |
| Questionnaire.RecordOfAcceptedForm | user-portal/src/pages/AspirantQuestionnaire.jsx:133-156 | a row from an accepted form has the trimmed texts non-empty, the dates set, every previous address complete, the resignation details present exactly when given, and each empty duration stored as null |
| Questionnaire.AddressChangeOnly | user-portal/src/pages/AspirantQuestionnaire.jsx:53-57 | editing one field of one address changes that field of that entry and nothing else |
| Questionnaire.QuestionnairePage.constructor | user-portal/src/pages/AspirantQuestionnaire.jsx:33-44 | the page starts with the initial form; without a user it shows the login-required error |
| Questionnaire.QuestionnairePage.Validate | user-portal/src/pages/AspirantQuestionnaire.jsx:86-122 | the error becomes the first failing check's message, or none, and the result is whether it passed |
| Questionnaire.QuestionnairePage.HandleAddressChange | user-portal/src/pages/AspirantQuestionnaire.jsx:53-57 | the form gets a copy of the address list with one field of one entry replaced |
| Questionnaire.QuestionnairePage.HandlePositionChange | user-portal/src/pages/AspirantQuestionnaire.jsx:53-57 | the form gets a copy of the position list with one field of one entry replaced |
| Questionnaire.QuestionnairePage.HandleSubmit | user-portal/src/pages/AspirantQuestionnaire.jsx:124-170 | a rejected form inserts nothing; an accepted one inserts its record; success shows the message, reveals the next form and notifies the parent; failure shows the error |
| FinancialDisclosure.RejectionCause | user-portal/src/pages/CandidateFinancialDisclosureForm.jsx:61-78 | each message appears exactly when its check fails after the earlier ones passed; acceptance means all checks pass |
| FinancialDisclosure.OptionalFields | user-portal/src/pages/CandidateFinancialDisclosureForm.jsx:61-78 | the party fields, assessment date and other income never affect validation; empty asset and liability lists are accepted |
| FinancialDisclosure.SpacesCountAsFilled | user-portal/src/pages/CandidateFinancialDisclosureForm.jsx:66-71 | asset fields holding only spaces pass validation, because they are not trimmed |
| FinancialDisclosure.InitialFormRejected | user-portal/src/pages/CandidateFinancialDisclosureForm.jsx:62-65 | the initial form is rejected for the name and position |
| FinancialDisclosure.AddAsset | user-portal/src/pages/CandidateFinancialDisclosureForm.jsx:35-42 | appends one blank asset and changes nothing else |
| FinancialDisclosure.RemoveAsset | user-portal/src/pages/CandidateFinancialDisclosureForm.jsx:43-47 | removes exactly the asset at the index, or nothing when out of range |
| FinancialDisclosure.AddLiability | user-portal/src/pages/CandidateFinancialDisclosureForm.jsx:49-53 | appends one blank liability and changes nothing else |
| FinancialDisclosure.RemoveLiability | user-portal/src/pages/CandidateFinancialDisclosureForm.jsx:54-58 | removes exactly the liability at the index, or nothing when out of range |
| FinancialDisclosure.AddThenRemove | user-portal/src/pages/CandidateFinancialDisclosureForm.jsx:35-58 | removing the entry just added gives back the form |
| FinancialDisclosure.AddedAssetRejected | user-portal/src/pages/CandidateFinancialDisclosureForm.jsx:66-71 | with the header filled in, a freshly added blank asset makes validation ask for the asset fields |
| FinancialDisclosure.RemoveKeepsAccepted | user-portal/src/pages/CandidateFinancialDisclosureForm.jsx:43-58 | removing an asset or a liability from an accepted form keeps it accepted |
| FinancialDisclosure.SetAsset | user-portal/src/pages/CandidateFinancialDisclosureForm.jsx:31 | setting one field of an asset changes that field only |
| FinancialDisclosure.SetLiability | user-portal/src/pages/CandidateFinancialDisclosureForm.jsx:31 | setting one field of a liability changes that field only |
| FinancialDisclosure.RecordOfAcceptedForm | user-portal/src/pages/CandidateFinancialDisclosureForm.jsx:89-103 | a row from an accepted form has the name and position as typed and non-blank, complete assets and liabilities, and each optional field null exactly when empty |
| FinancialDisclosure.AssetChangeOnly | user-portal/src/pages/CandidateFinancialDisclosureForm.jsx:29-33 | editing one asset field changes that field of that entry and nothing else |
| FinancialDisclosure.LiabilityChangeOnly | user-portal/src/pages/CandidateFinancialDisclosureForm.jsx:29-33 | editing one liability field changes that field of that entry and nothing else |
| FinancialDisclosure.DisclosurePage.constructor | user-portal/src/pages/CandidateFinancialDisclosureForm.jsx:4-22 | the page starts with the initial form for the given user, with nothing shown |
| FinancialDisclosure.DisclosurePage.Validate | user-portal/src/pages/CandidateFinancialDisclosureForm.jsx:61-78 | the error becomes the first failing check's message, or none |
| FinancialDisclosure.DisclosurePage.HandleAssetChange | user-portal/src/pages/CandidateFinancialDisclosureForm.jsx:29-33 | the form gets a copy of the asset list with one field of one entry replaced |
| FinancialDisclosure.DisclosurePage.HandleLiabilityChange | user-portal/src/pages/CandidateFinancialDisclosureForm.jsx:29-33 | the form gets a copy of the liability list with one field of one entry replaced |
| FinancialDisclosure.DisclosurePage.HandleSubmit | user-portal/src/pages/CandidateFinancialDisclosureForm.jsx:80-114 | a rejected form inserts nothing; an accepted one inserts its record; success shows the message, reveals the declaration and notifies the parent; failure shows the error |
| Auth.GeneratePasscode | user-portal/src/pages/Auth.jsx:122-129 | the passcode is eight characters over `A-Z0-9`, spelled by its draws |
| Auth.ProfileToInsert | user-portal/src/pages/Auth.jsx:132-162 | a profile row is inserted exactly when there is a user without a profile, with the user's id and e-mail, an empty name and no avatar |
| Auth.SignupMessageShowsPasscode | user-portal/src/pages/Auth.jsx:243-245 | the passcode can be read back from the sign-up message at a fixed position |
| Auth.SignupMessageInjective | user-portal/src/pages/Auth.jsx:243-245 | different passcodes give different sign-up messages |
| Auth.SubmitSucceeds | user-portal/src/pages/Auth.jsx:190-256 | the error flag is cleared exactly by a successful login or a sign-up whose passcode was saved; only a successful login navigates, to `/dashboard` |
| Auth.SubmitWrites | user-portal/src/pages/Auth.jsx:190-256 | a passcode row is written exactly for a sign-up that returned a user; a profile row only after success, and exactly when none existed |
| Auth.SignupShowsStoredPasscode | user-portal/src/pages/Auth.jsx:224-245 | after a successful sign-up, the passcode in the message is the one stored |
| Auth.FailureMessages | user-portal/src/pages/Auth.jsx:197-251 | a failed login shows the service's message; a failed sign-up shows the service's, the passcode-save or the unexpected-error message |
| Auth.AuthPage.constructor | user-portal/src/pages/Auth.jsx:167-175 | the page starts on the login form, with everything empty |
| Auth.AuthPage.ResetForm | user-portal/src/pages/Auth.jsx:177-183 | clears the e-mail, password, message, error flag and password visibility |
| Auth.AuthPage.ToggleForm | user-portal/src/pages/Auth.jsx:185-188 | switches between login and sign-up, and resets the form |
| Auth.AuthPage.HandleSubmit | user-portal/src/pages/Auth.jsx:190-256 | message, error flag, route and rows written are those of the specified outcome for the generated passcode; loading ends false |
| NominationForm.StepFor | user-portal/src/components/NominationForm.jsx:29-52 | steps 1, 2 and 3 show the checklist, the letter of intent and the party documents; any other step shows nothing |
| NominationForm.Merge | user-portal/src/components/NominationForm.jsx:16 | the merged data has both key sets, the new data winning on shared keys |
| NominationForm.MergeIdempotent | user-portal/src/components/NominationForm.jsx:16 | merging the same data twice is merging it once; merging nothing changes nothing |
| NominationForm.OfferedStaysInRange | user-portal/src/components/NominationForm.jsx:29-52 | using only the callbacks a step's view is given, the wizard stays within steps 1 to 3 |
| NominationForm.NextThenBack | user-portal/src/components/NominationForm.jsx:15-22 | back after next returns to the same step, keeping the merged data |
| NominationForm.Wizard.constructor | user-portal/src/components/NominationForm.jsx:12-13 | the wizard starts at step 1 with no data |
| NominationForm.Wizard.HandleNextStep | user-portal/src/components/NominationForm.jsx:15-18 | merges the new data and advances one step |
| NominationForm.Wizard.HandlePrevStep | user-portal/src/components/NominationForm.jsx:20-22 | goes back one step and keeps the data |
| NominationForm.Wizard.HandleSubmit | user-portal/src/components/NominationForm.jsx:24-27 | navigates to `/nomination-dashboard` and changes nothing else |
| PartyDocs.PathInFolder | user-portal/src/components/PartyDocs.jsx:31 | every file path lies in the listed folder, and the file name can be read back from it |
| PartyDocs.PathInjective | user-portal/src/components/PartyDocs.jsx:69 | within one user's folder, different names give different paths |
| PartyDocs.UsersDisjoint | user-portal/src/components/PartyDocs.jsx:69 | two different users whose ids have no `/` never share a path |
| PartyDocs.UploadPaths | user-portal/src/components/PartyDocs.jsx:68-69 | one path per selected file, each in the user's folder |
| PartyDocs.FirstFailure | user-portal/src/components/PartyDocs.jsx:68-81 | the first path whose upload fails: every earlier one succeeded |
| PartyDocs.FailureStops | user-portal/src/components/PartyDocs.jsx:80 | the loop stops no later than any failing path |
| PartyDocs.UploadSelected | user-portal/src/components/PartyDocs.jsx:68-81 | the files before the first failure are uploaded in order, and the failure is that path's error |
| PartyDocs.FetchError | user-portal/src/components/PartyDocs.jsx:19-47 | listing fails exactly when there is no user or the listing errs; no user gives "User not authenticated" |
| PartyDocs.SignedUrl | user-portal/src/components/PartyDocs.jsx:118-137 | a preview URL exists exactly when there is a user and the storage signs that file's path |
| PartyDocs.PreviewMapSpec | user-portal/src/components/PartyDocs.jsx:142-148 | a name is in the preview map exactly when it is listed and has a non-empty signed URL, which is its value |
| PartyDocs.PartyDocsPage.constructor | user-portal/src/components/PartyDocs.jsx:5-8 | nothing is listed, selected or previewed, and there is no error |
| PartyDocs.PartyDocsPage.FetchFiles | user-portal/src/components/PartyDocs.jsx:19-47 | on success the file list becomes the listing; otherwise it is kept and the error is shown |
| PartyDocs.PartyDocsPage.HandleUpload | user-portal/src/components/PartyDocs.jsx:53-92 | without a user or a selection nothing is uploaded; otherwise files before the first failure are uploaded; a complete upload clears the selection and relists |
| PartyDocs.PartyDocsPage.HandleDelete | user-portal/src/components/PartyDocs.jsx:94-115 | without confirmation nothing happens; otherwise the user's path of the file is removed and the folder relisted, or the error is shown |
| PartyDocs.PartyDocsPage.FetchSignedUrls | user-portal/src/components/PartyDocs.jsx:141-151 | a non-empty file list replaces the preview map by the specified one; an empty list leaves it |
| NominationDashboard.ProfileFrom | user-portal/src/pages/NominationDashboard.jsx:37-51 | the row's name, its e-mail or else the account's, and its avatar when non-empty; without a row, the account's e-mail alone |
| NominationDashboard.ProfileFromFacts | user-portal/src/pages/NominationDashboard.jsx:43-50 | the profile has an e-mail whenever the account does, and an avatar only when it is non-empty |
| NominationDashboard.InitialOf | user-portal/src/pages/NominationDashboard.jsx:95-98 | the fallback avatar letter is the capitalised first character of the name, or else of the e-mail |
| NominationDashboard.AvatarShows | user-portal/src/pages/NominationDashboard.jsx:85-100 | only the placeholder while loading; afterwards the image exactly when there is an avatar; otherwise a capital letter when the name or e-mail starts with a Latin letter |
| NominationDashboard.DisplayName | user-portal/src/pages/NominationDashboard.jsx:102 | the name, else the e-mail, else "User"; never empty |
| NominationDashboard.OnePanel | user-portal/src/pages/NominationDashboard.jsx:147-151 | the active tab key renders exactly its own panel, and a non-key renders none |
| NominationDashboard.Dashboard.constructor | user-portal/src/pages/NominationDashboard.jsx:12-20 | the dashboard opens on the party tab with an empty profile, loading |
| NominationDashboard.Dashboard.FetchProfile | user-portal/src/pages/NominationDashboard.jsx:26-53 | without a user it navigates to `/` and stays loading; otherwise it shows the specified profile |
| NominationDashboard.Dashboard.SelectTab | user-portal/src/pages/NominationDashboard.jsx:108-121 | a tab button switches the tab, except while logging out |
| NominationDashboard.Dashboard.HandleLogout | user-portal/src/pages/NominationDashboard.jsx:67-78 | a successful logout navigates to `/`; a failed one shows the error and re-enables the buttons |
| PasswordReset.ResetFacts | user-portal/src/components/PasswordReset.jsx:111-146 | the service is asked exactly when the user confirmed and gave an e-mail; only its acceptance clears the error; the success message is the same for every address |
| PasswordReset.ButtonDisabled | user-portal/src/components/PasswordReset.jsx:188 | the button is enabled exactly when confirmed and not loading |
| PasswordReset.EnabledButtonConfirmed | user-portal/src/components/PasswordReset.jsx:114-120 | a reset through the enabled button is never refused for want of confirmation |
| PasswordReset.ResetPanel.constructor | user-portal/src/components/PasswordReset.jsx:105-109 | the panel starts empty, unconfirmed and not loading |
| PasswordReset.ResetPanel.HandleReset | user-portal/src/components/PasswordReset.jsx:111-146 | message and error flag are those of the specified outcome; loading ends false after a request and is untouched by a refusal |
| ProfileEditor.FileExtensionSpec | user-portal/src/components/ProfileEditor.jsx:172 | `split(".").pop()` is the dot-free suffix after the last dot, or the whole name when it has none |
| ProfileEditor.ExtensionOfDotted | user-portal/src/components/ProfileEditor.jsx:172 | the extension of `base.ext` is `ext` when `ext` has no dot |
| ProfileEditor.AvatarPathExtension | user-portal/src/components/ProfileEditor.jsx:172-174 | the avatar's storage path keeps the chosen file's extension |
| ProfileEditor.AvatarPathDistinct | user-portal/src/components/ProfileEditor.jsx:173-174 | uploads of one file at different times get different paths |
| ProfileEditor.UpdateRow | user-portal/src/components/ProfileEditor.jsx:223-228 | the upserted row has the user's id, the name as typed, the time stamp, and a null avatar exactly when it is empty |
| ProfileEditor.AvatarRoundTrip | user-portal/src/components/ProfileEditor.jsx:226 | saving the avatar and loading it back (`avatar_url \|\| ""`) gives the avatar the editor held |
| ProfileEditor.Editor.constructor | user-portal/src/components/ProfileEditor.jsx:119-125 | the editor starts loading with empty fields and no message |
| ProfileEditor.Editor.FetchProfile | user-portal/src/components/ProfileEditor.jsx:128-157 | without a session or on a failed lookup it shows the error; a row fills the fields; no data leaves them; loading ends false |
| ProfileEditor.Editor.UploadAvatar | user-portal/src/components/ProfileEditor.jsx:161-202 | no file does nothing; no user shows "User not authenticated."; otherwise it uploads to the time-stamped path and either shows the storage error or takes the public URL as the avatar |
| ProfileEditor.Editor.HandleUpdate | user-portal/src/components/ProfileEditor.jsx:204-245 | without a session it shows the error; otherwise it upserts the specified row and shows success or the prefixed error; loading ends false |

## Left out

- Supabase is not modelled: authentication, tables, storage and their network
  calls. Each reply is a parameter of the operation that makes the call.
- Concurrency and timing are not modelled. The uniqueness lookup and the
  insert of a letter of intent are separate calls, so two submissions can
  race for one code. The model treats the lookup replies as fixed for the
  whole allocation.
- `checkUniqueCodeExists` in `LetterOfIntentStep.jsx` is never called; it is
  left out.
- The allocation loop does not look at the lookup's `error`. A failed lookup
  has no `data`, and reading `data.length` throws; `CodeAllocation.NullDataLength`
  holds V8's wording of that TypeError's message; Firefox, Safari and other
  engines word it differently. The eleventh code, generated after
  the tenth taken one, is never looked up; the model generates it as well.
- LetterOfIntent.LetterOfIntentPage.SubmitAs: `application_received_date` and `submitted_at`
  come from one `Clock` reading here. The source calls `new Date()` twice, so
  across midnight the two can fall on different days. `submitted_at` is a
  `Date` object in the source and an instant number here.
- `Math.random()` is a `RandomSource` parameter, and the clock is given as
  numbers. The model does not give `Date.getFullYear` and friends any calendar
  meaning beyond the ranges of month and day.
- Rendering, styles, focus state, `window.confirm` (a `confirmed` parameter)
  and console logging are left out. So are keyboard and file-input plumbing:
  `handleChange`, `handleNestedChange`, `handleFileChange`, the input setters
  and clearing the file input element.
- Questionnaire.QuestionnairePage.HandleAddressChange: this method does not
  model aliasing. The source's `handleArrayChange` copies the list but
  assigns into the shared entry object, so it also mutates the old state;
  entries here are values. An index out of range, which the source would
  throw on, is excluded by the `requires`. The same holds for
  `HandlePositionChange` and for the disclosure page's two handlers.
- The listing's `limit: 100`, its sort order, the files' `contentType` and
  `cacheControl`, and the 60-second lifetime of signed URLs are server-side;
  the listing is given as the list of names it returns.
- Text.CharAt0: a Dafny `char` is a whole Unicode scalar value, while
  `charAt(0)` returns one UTF-16 code unit. For a name that starts with a
  character outside the Basic Multilingual Plane, the source shows a lone
  surrogate and the model shows the whole character.
- Text.UpperChar: changes only the ASCII letters `a`-`z`. The
  non-ASCII case mappings of `toUpperCase` are not modelled.
- Auth.ProfileToInsert: the model records the profile row to insert. A
  failed profile insert is only logged by the source, so it changes nothing
  the page shows.
- An exception whose `message` is undefined is not modelled apart from the
  `|| fallback` texts the source gives. Every error reply here carries a
  string.
- Auth.GeneratePasscode: this is a separate copy of the code generator in
  `Auth.jsx`. It is modelled by the same `Codes.GenerateCode`, with the
  default length of eight.
- `Dashboard.jsx`, `NominationChecklist.jsx`, `main.jsx` and the checklist
  step are not part of this model.
- Avatar uploads use a shared `avatars/` folder with `upsert: true`. The upload
  itself is a parameter, so overwriting another user's file with the same time
  stamp is not modelled.
