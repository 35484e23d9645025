# starfish-pages form logic in Dafny

This project models the event-handler logic of the starfish-pages lead-generation front end. The site runs three wizards:

- **The multi-service flow.** Pick services, enter contact details, see matching contractors.
- **The results flow.** Tick contractors to request quotes from.
- **The single-service project and appointment flow.** Specifications, contact details and consent, a promo with a newsletter opt-in, then contractors who may contact the visitor directly.

Every step reads and writes one shared application context. The `Session` class models it, with the union of the fields that the provider defines and the fields that the steps read. The two shapes are not reconciled: the provider's type lacks `selectedService`, `promo`, `formId` and several others.

How the model is built:

- Each React component becomes a class holding its local state. Each handler becomes a method whose `modifies` clause names exactly the session and component fields the handler sets.
- A handler counts as one atomic transition.
- A step's `onNext`, `onBack` or `onCompleted` callback is either a `Signal` result or a call into the flow controller (`MultiStepForm`, `ResultsForm`).
- The pure parts become functions, with lemmas about them. These are the matching filters, the list toggles, the validation schema, the prefill precedence, the gates and the highlight window.

The form-progress store ("Forms" table) is a map from form id to record. What the remote store answers is a parameter: one `Outcome` for the lookup and one for the write. `FormStore.UpsertSpec` states the check-then-update-or-insert sequence as a function of those outcomes. The three steps that run it are proved against that function.

Behaviour that the code and the design description state differently follows the code:

- The submit of `Step2Specifications.tsx` and `Step3Specifications.tsx` has no empty-selection guard of its own. Only the button's `disabled` blocks it. The model's `HandleSubmit` runs on any selection, just as the code does.
- The appointment step's submit clears the contact preferences only for the next render. The posted block still carries the old ones. `AppointmentContractors.ContractorsStep.HandleSubmit` models this as written. `HandleSubmitCorrected` beside it builds the block after the clearing. See "Findings".

## Model

| member | source | states |
|---|---|---|
| Common.Filter | src/components/select-service/Step3.tsx:37-39 | `filter` keeps exactly the elements satisfying the predicate, in their original order, and never lengthens the sequence |
| Common.FilterCount | src/components/select-service/Step3.tsx:37-39 | each kept element occurs as often as in the input; a rejected one not at all |
| Common.FilterConcat | src/components/select-service/Step3.tsx:37-39 | filtering a concatenation is the concatenation of the filtered parts |
| Common.FilterKeepsAll | src/components/select-service/Step1.tsx:64-66 | a predicate that holds everywhere keeps the whole sequence |
| Common.RemoveAll | src/components/select-service/Step1.tsx:145 | `filter(id => id !== x)` keeps exactly the elements other than x, in order; the result is strictly shorter when x occurred |
| Common.RemoveAllCount | src/components/select-service/Step1.tsx:145 | x occurs no more; every other element occurs as often as before |
| Common.RemoveAllConcat | src/components/select-service/Step1.tsx:145 | removal distributes over concatenation |
| Common.RemoveAllAbsent | src/components/select-service/Step1.tsx:145 | removing an absent element changes nothing |
| Common.Toggle | src/components/select-service/Step1.tsx:109-113 | the include-or-append toggle flips membership of the clicked value and leaves every other value's membership as it was |
| Common.ToggleTwice | src/components/forms/Project/Step2Specifications.tsx:28-32 | toggling an absent value twice gives back the original list |
| Common.ToggleKeepsNoDuplicates | src/components/forms/Project/Step2Specifications.tsx:28-32 | a toggle keeps a duplicate-free list duplicate-free |
| Common.IndexOf | src/components/results/Step1.tsx:45 | `indexOf`: the first index holding the value, or -1 iff it is absent |
| Common.StrIndexOf | src/components/ui/gradual-spacing.tsx:30 | `String.indexOf`: the first position where the pattern occurs, or -1 iff it occurs nowhere |
| Common.Includes | src/components/select-service/Step1.tsx:65 | `String.includes` holds iff the pattern occurs at some position |
| AppContext.Ids | src/components/results/Step1.tsx:28 | `map(c => c.id)`: one id per record, in order |
| AppContext.IdsMembership | src/components/results/Step1.tsx:28 | an id is listed iff some record carries it |
| AppContext.FirstService | src/components/select-service/Step1.tsx:136 | `find` by id: `None` iff no entry has the id; otherwise a catalogue entry with the id such that no earlier entry has it |
| AppContext.OrNull | src/context/AppContext.tsx:71-74 | `value \|\| null`: null iff the value is absent or empty, otherwise the value itself |
| AppContext.CapitalizeFirstLetter | src/context/AppContext.tsx:47-52 | null and `''` come back unchanged; otherwise the first character is upper-cased, the rest kept and the length preserved |
| AppContext.CapitalizeIdempotent | src/context/AppContext.tsx:47-52 | capitalising twice is the same as capitalising once |
| AppContext.IdentityFromUrl | src/context/AppContext.tsx:67-75 | an absent parameter gives null; an empty zip, email, phone or state becomes null; an empty first or last name stays `''` |
| AppContext.Session.constructor | src/context/AppContext.tsx:56-65 | identity all null, `initialService` 0, every list empty |
| AppContext.Session.SeedFromUrl | src/context/AppContext.tsx:67-75 | the mount effect sets exactly the six identity fields, to `IdentityFromUrl` of the query string |
| MultiStep.Rendered | src/components/select-service/MultiStepForm.tsx:38-40 | steps 1, 2 and 3 render exactly one screen each; every other value renders none |
| MultiStep.RenderedOneScreenPerStep | src/components/select-service/MultiStepForm.tsx:38-40 | two step values that render the same screen are equal |
| MultiStep.MultiStepForm.constructor | src/components/select-service/MultiStepForm.tsx:18 | the step starts at 1 |
| MultiStep.MultiStepForm.HandleNextStep | src/components/select-service/MultiStepForm.tsx:20-22 | the step grows by exactly one and stays at least 1 |
| MultiStep.MultiStepForm.HandleRestart | src/components/select-service/MultiStepForm.tsx:24-28 | selected services and matches emptied, step back to 1, identity untouched |
| MultiStep.MultiStepForm.HandleHome | src/components/select-service/MultiStepForm.tsx:30-34 | the same two clears, with the step left where it was |
| ResultsFlow.Rendered | src/components/results/ResultsForm.tsx:18-19 | steps 1 and 2 render one screen each; every other value renders nothing |
| ResultsFlow.ResultsForm.constructor | src/components/results/ResultsForm.tsx:6 | the step starts at 1 |
| ResultsFlow.ResultsForm.HandleNextStep | src/components/results/ResultsForm.tsx:8-10 | the only transition moves forward by exactly one |
| ResultsFlow.PastLastStepRendersNothing | src/components/results/ResultsForm.tsx:6-19 | from step 3 on, nothing is rendered at that step or any later one |
| ContractorMatching.TempMatches | src/components/select-service/Step3.tsx:37-39 | the matched services are exactly the selected ids the contractor offers, in selection order |
| ContractorMatching.TempMatchesCount | src/components/select-service/Step3.tsx:37-39 | an offered id is matched as often as it was selected, duplicates included; an id not offered never |
| ContractorMatching.Matches | src/components/select-service/Step3.tsx:31-55 | the fold never yields more contractors than the directory holds |
| ContractorMatching.MatchesSound | src/components/select-service/Step3.tsx:36-49 | every result is a directory entry in the visitor's zip and state with a matched service, copied with only `matchingServices` replaced |
| ContractorMatching.MatchesComplete | src/components/select-service/Step3.tsx:36-49 | every such directory entry is in the result |
| ContractorMatching.MatchesMembership | src/components/select-service/Step3.tsx:36-43 | an entry is kept iff its zip and state equal the visitor's and it offers at least one selected service |
| ContractorMatching.MatchedServicesOffered | src/components/select-service/Step3.tsx:37-49 | each kept contractor has a non-empty `matchingServices`, all selected and all offered by it |
| ContractorMatching.MatchesConcat | src/components/select-service/Step3.tsx:31-55 | the result follows directory order: matching a concatenation concatenates the results |
| ContractorMatching.NothingToMatch | src/components/select-service/Step3.tsx:36-43 | no selected service, or a null zip or state, yields an empty result |
| ContractorMatching.MatchContractors | src/components/select-service/Step3.tsx:31-55 | the accumulator loop computes exactly `Matches` |
| ContractorMatching.ViewOf | src/components/select-service/Step3.tsx:91-95 | the "no experts" exits show iff loading is over and nothing matched |
| ContractorMatching.SingleContractorScenario | src/components/select-service/Step3.tsx:36-49 | one contractor in 90210/CA with services [5, 7]: selecting 7 keeps it with `[7]`, selecting 9 keeps nothing |
| ContractorMatching.MatchStep.constructor | src/components/select-service/Step3.tsx:15 | the step starts in the loading state |
| ContractorMatching.MatchStep.FindMatches | src/components/select-service/Step3.tsx:24-61 | the session's matches become the fold over the directory, and loading ends |
| ContractorMatching.MatchStep.HandleSelectDifferentServices | src/components/select-service/Step3.tsx:72-77 | selection and matches emptied, initial service 0, flow back at step 1, identity untouched |
| ContractorMatching.MatchStep.HandleDialogContinue | src/components/select-service/Step3.tsx:79-85 | the same three clears, then the home callback, with identity untouched |
| QuoteRequest.SpliceToggle | src/components/results/Step1.tsx:44-54 | an absent id is appended; for a present id exactly its first occurrence is cut out and everything else keeps its order |
| QuoteRequest.SpliceToggleIsToggle | src/components/results/Step1.tsx:44-54 | on a duplicate-free selection the splice toggle equals the include-or-append toggle |
| QuoteRequest.SelectAllToggle | src/components/results/Step1.tsx:85 | all selected gives `[]`; otherwise the selection is exactly the matching ids, one per match, in match order |
| QuoteRequest.RequestDisabled | src/components/results/Step1.tsx:204 | the request button is enabled iff some id is ticked and the terms are accepted |
| QuoteRequest.Chosen | src/components/results/Step1.tsx:36 | the recorded contractors are the matches whose id is ticked, in match order |
| QuoteRequest.InitialSelectionOk | src/components/results/Step1.tsx:28 | the initial selection is a duplicate-free list of matching ids |
| QuoteRequest.CheckboxKeepsSelectionOk | src/components/results/Step1.tsx:44-54 | a row checkbox keeps the selection a duplicate-free list of matching ids |
| QuoteRequest.SelectAllKeepsSelectionOk | src/components/results/Step1.tsx:85 | select-all keeps the selection a duplicate-free list of matching ids |
| QuoteRequest.AllSelectedMeansEveryMatch | src/components/results/Step1.tsx:42 | with distinct ids and a valid selection, the length test holds iff every match is ticked |
| QuoteRequest.EnabledRequestChoosesSomeone | src/components/results/Step1.tsx:31-39 | with the button enabled, the submit records at least one contractor |
| QuoteRequest.InitialSelectionChoosesAll | src/components/results/Step1.tsx:28-36 | submitting the untouched initial selection records every match, in order |
| QuoteRequest.QuoteForm.constructor | src/components/results/Step1.tsx:27-30 | every matching id is ticked and the terms are not accepted |
| QuoteRequest.QuoteForm.ClearOnMount | src/components/results/Step1.tsx:21-24 | the recorded contractors are cleared |
| QuoteRequest.QuoteForm.HandleCheckboxChange | src/components/results/Step1.tsx:44-56 | the in-place push or splice yields `SpliceToggle` of the old selection |
| QuoteRequest.QuoteForm.HandleSelectAll | src/components/results/Step1.tsx:85 | the selection becomes `SelectAllToggle` of the old one |
| QuoteRequest.QuoteForm.SetAcceptance | src/components/results/Step1.tsx:237-238 | the terms checkbox sets acceptance |
| QuoteRequest.QuoteForm.HandleSubmit | src/components/results/Step1.tsx:31-39 | without acceptance nothing changes and nothing advances; with it, the chosen matches are recorded and the flow advances by one |
| ServiceSelection.InitialSelection | src/components/select-service/Step1.tsx:26 | `[initialService]` when non-zero, otherwise `[]` |
| ServiceSelection.FilteredServices | src/components/select-service/Step1.tsx:64-66 | exactly the catalogue services whose lower-cased name contains the lower-cased term, in catalogue order |
| ServiceSelection.EmptySearchListsAll | src/components/select-service/Step1.tsx:64-66 | an empty term lists the whole catalogue |
| ServiceSelection.SearchIgnoresCase | src/components/select-service/Step1.tsx:64-66 | a term and its lower-cased form list the same services |
| ServiceSelection.SelectedRows | src/components/select-service/Step1.tsx:134-137 | each shown row is a catalogue entry of a selected id; every selected id with an entry shows that entry; there are no more rows than ids |
| ServiceSelection.SelectedRowsOne | src/components/select-service/Step1.tsx:135-137 | one id shows the first catalogue entry with that id, or nothing (`return null`) when there is none |
| ServiceSelection.SelectedRowsConcat | src/components/select-service/Step1.tsx:134-137 | the rows follow selection order: the rows of a concatenation are the concatenated rows |
| ServiceSelection.ClicksKeepSelectionDistinct | src/components/select-service/Step1.tsx:108-145 | clicking an entry and removing a row keep the selection duplicate-free |
| ServiceSelection.ServicePicker.constructor | src/components/select-service/Step1.tsx:20-26 | the selection starts as the initial selection and is remembered for resets; empty search; dropdown closed |
| ServiceSelection.ServicePicker.ConsumeInitialService | src/components/select-service/Step1.tsx:40-45 | afterwards the session's initial service is 0 |
| ServiceSelection.ServicePicker.HandleFocus | src/components/select-service/Step1.tsx:91 | focus opens the dropdown |
| ServiceSelection.ServicePicker.HandleClickOutside | src/components/select-service/Step1.tsx:52-56 | a press outside closes the dropdown |
| ServiceSelection.ServicePicker.SetSearchTerm | src/components/select-service/Step1.tsx:92 | the search box sets the term |
| ServiceSelection.ServicePicker.HandleServiceClick | src/components/select-service/Step1.tsx:108-115 | the clicked id is toggled and the dropdown closes |
| ServiceSelection.ServicePicker.HandleRemove | src/components/select-service/Step1.tsx:145 | every occurrence of the id is removed |
| ServiceSelection.ServicePicker.HandleSubmit | src/components/select-service/Step1.tsx:28-37 | an empty selection changes nothing; otherwise it is stored in the session, the form returns to its initial values and the flow advances by one |
| ContactValidation.ContactErrors | src/components/select-service/Step2.tsx:48-57 | a rule is listed iff it fails; nothing is listed iff every field is present, the address well formed and the phone ten digits |
| ContactValidation.NineDigitPhone | src/components/forms/Details/Step2Info.tsx:40-42 | an otherwise valid form with a nine-digit phone fails only "Phone number must be 10 digits" |
| ContactValidation.TenDigitsNotEmpty | src/components/forms/Details/Step2Info.tsx:40-42 | a phone that passes the digits rule is never empty |
| ContactValidation.EmptyPhoneFailsBothRules | src/components/select-service/Step2.tsx:54-56 | an empty phone fails both the digits rule and the required rule |
| ContactValidation.Prefill | src/components/forms/Details/Step2Info.tsx:22-27 | a non-empty URL value wins, then a non-empty session value, then `''`; the result is empty iff both are empty |
| ContactValidation.PrefillContact | src/components/select-service/Step2.tsx:36-44 | each of the six fields follows the prefill precedence |
| ContactValidation.PrefillAfterSeeding | src/components/select-service/Step2.tsx:37-42 | on a session seeded from the same URL, the form shows the raw URL values, not the capitalised names |
| ContactValidation.LowerCaseNameScenario | src/context/AppContext.tsx:69 | with `?firstname=john` the session holds "John" and the form shows "john" |
| ContactValidation.SubmittedIdentity | src/components/select-service/Step2.tsx:72-77 | a submit writes each of the six values as a string, never null |
| ContactValidation.PrefillShowsSubmitted | src/components/select-service/Step2.tsx:33-45 | round trip: without URL parameters the form prefills exactly the values that passed the schema |
| ContactDetails.ContactDetailsForm.constructor | src/components/select-service/Step2.tsx:60-68 | empty fields and area code "+1" |
| ContactDetails.ContactDetailsForm.Prefill | src/components/select-service/Step2.tsx:33-45 | the prefill precedence for the six fields, and area code "+1" |
| ContactDetails.ContactDetailsForm.HandleChange | src/components/select-service/Step2.tsx:103 | an edit replaces the values |
| ContactDetails.ContactDetailsForm.SetAreaCode | src/components/select-service/Step2.tsx:182-185 | the selector sets the area code |
| ContactDetails.ContactDetailsForm.HandleSubmit | src/components/select-service/Step2.tsx:70-80 | while a rule fails, nothing changes and nothing advances; otherwise the identity becomes the six values (no area code) and the flow advances by one |
| DetailsInfo.DetailsErrors | src/components/forms/Details/Step2Info.tsx:34-44 | the contact rules plus the opt-in rule, each listed iff it fails |
| DetailsInfo.SubmitDisabledIffErrors | src/components/forms/Details/Step2Info.tsx:263 | the button is disabled iff some rule fails, i.e. enabled iff the contact values are valid and the opt-in is ticked |
| DetailsInfo.PrefillDetails | src/components/forms/Details/Step2Info.tsx:19-31 | the contact precedence plus the session's opt-in |
| DetailsInfo.DetailsForm.constructor | src/components/forms/Details/Step2Info.tsx:47-55 | empty fields, opt-in false |
| DetailsInfo.DetailsForm.Prefill | src/components/forms/Details/Step2Info.tsx:19-31 | the mount effect writes `PrefillDetails` |
| DetailsInfo.DetailsForm.HandleChange | src/components/forms/Details/Step2Info.tsx:139 | an edit replaces the values |
| DetailsInfo.DetailsForm.HandleSubmit | src/components/forms/Details/Step2Info.tsx:57-116 | while a rule fails, it stays with the session unchanged; otherwise the seven values are stored and the step advances, whatever the lead post's outcome |
| PromoOptIn.PromoAfterSelect | src/components/forms/Details/Step2PromoOptIn.tsx:28-38 | clicking the current promo clears it; any other becomes current |
| PromoOptIn.SelectTwiceClears | src/components/forms/Details/Step2PromoOptIn.tsx:28-38 | clicking the same other promo twice leaves no promo |
| PromoOptIn.RequiredRule | src/components/forms/Details/Step2PromoOptIn.tsx:212-215 | the opt-in is required iff a promo is chosen and the newsletter opt-in is off |
| PromoOptIn.SubmitAllowed | src/components/forms/Details/Step2PromoOptIn.tsx:50 | the gate holds iff the general opt-in is on and the newsletter opt-in is on or not required |
| PromoOptIn.DisabledIsNegatedGate | src/components/forms/Details/Step2PromoOptIn.tsx:325 | the button is disabled exactly when the gate refuses |
| PromoOptIn.GateAfterSync | src/components/forms/Details/Step2PromoOptIn.tsx:212-215 | once the effect has run, the gate is general opt-in and (no promo or newsletter opt-in) |
| PromoOptIn.ServiceName | src/components/forms/Details/Step2PromoOptIn.tsx:52-54 | the first catalogue entry's name for the id, or "Unknown Service" when no entry has the id or its name is empty |
| PromoOptIn.PromoOptInStep.constructor | src/components/forms/Details/Step2PromoOptIn.tsx:24-26 | the shown promo is the session's; opt-in not required; not loading |
| PromoOptIn.PromoOptInStep.HandlePromoSelect | src/components/forms/Details/Step2PromoOptIn.tsx:28-38 | the promo becomes `PromoAfterSelect` of the old one, and the requirement is set iff a different promo was clicked |
| PromoOptIn.PromoOptInStep.SyncOptInRequirement | src/components/forms/Details/Step2PromoOptIn.tsx:212-215 | the effect sets the requirement to `RequiredRule` of the session's promo and newsletter opt-in |
| PromoOptIn.PromoOptInStep.HandleNewsletterOptInChange | src/components/forms/Details/Step2PromoOptIn.tsx:40-42 | the checkbox sets the newsletter opt-in |
| PromoOptIn.PromoOptInStep.HandleGeneralOptInChange | src/components/forms/Details/Step2PromoOptIn.tsx:44-46 | the checkbox sets the general opt-in |
| PromoOptIn.PromoOptInStep.HandleSubmit | src/components/forms/Details/Step2PromoOptIn.tsx:50-180 | refused by the gate, nothing changes; otherwise the consent flags are upserted as `UpsertSpec` states, whatever the lead post's outcome, and the step advances iff no error report was sent |
| FormStore.Touched | src/components/forms/Details/Step2PromoOptIn.tsx:130-139 | an update sets the update time (and, for the opt-in step, completion and the three flags), keeping creation time and phone |
| FormStore.Fresh | src/components/forms/Details/Step2PromoOptIn.tsx:151-162 | an insert has both timestamps `now`, the given phone, and the flags only for the opt-in step |
| FormStore.UpsertAdvancesIffBothSucceed | src/components/forms/Details/Step2PromoOptIn.tsx:113-180 | no report (so the step advances) iff the lookup proceeds and the write succeeds; on any report the table is unchanged |
| FormStore.UpsertReports | src/components/forms/Details/Step2PromoOptIn.tsx:121-177 | a lookup error other than PGRST116 reports "Error checking formId"; a failed write reports the updating or inserting message; anything thrown reports "Unexpected error" |
| FormStore.UpsertTouchesOnlyItsRow | src/components/forms/Project/Step2Specifications.tsx:63-92 | rows of other form ids are never added, removed or changed |
| FormStore.UpsertWritesRow | src/components/forms/Details/Step2PromoOptIn.tsx:128-162 | a successful write leaves a row with update time `now`: a found row is updated in place, a missing one inserted with creation time `now` |
| FormStore.InsertThenUpdate | src/components/forms/Project/Step2Specifications.tsx:63-92 | a new form id upserted twice keeps the first call's creation time, the second call's update time and the first call's phone |
| FormStore.FormsTable.Upsert | src/components/forms/Project/Step2Specifications.tsx:46-98 | the early-return sequence leaves the table and the report that `UpsertSpec` states |
| ProjectSpecifications.SpecOptions | src/components/forms/Project/Step2Specifications.tsx:154-188 | the buttons are the service's specifications in their order, followed by "Other", which is always offered |
| ProjectSpecifications.ClicksStayWithinOptions | src/components/forms/Project/Step2Specifications.tsx:28-32 | clicking offered buttons keeps the selection within the offered specifications and duplicate-free |
| ProjectSpecifications.ClickOnUnselectedEnables | src/components/forms/Project/Step2Specifications.tsx:221 | after a click on an unselected button the submit is enabled |
| ProjectSpecifications.PhoneFromUrl | src/components/forms/Project/Step2Specifications.tsx:48 | the inserted phone is the `phone` parameter, or null when it is absent or empty |
| ProjectSpecifications.SpecificationsStep.constructor | src/components/forms/Project/Step2Specifications.tsx:25-26 | the selection starts from the stored specifications; not loading |
| ProjectSpecifications.SpecificationsStep.SyncSelection | src/components/forms/Project/Step2Specifications.tsx:132-134 | the effect copies the stored specifications into the selection |
| ProjectSpecifications.SpecificationsStep.HandleSpecSelect | src/components/forms/Project/Step2Specifications.tsx:28-32 | the clicked specification is toggled |
| ProjectSpecifications.SpecificationsStep.HandleBack | src/components/forms/Project/Step2Specifications.tsx:34-37 | the stored specifications are emptied, then the step goes back |
| ProjectSpecifications.SpecificationsStep.HandleSubmit | src/components/forms/Project/Step2Specifications.tsx:39-102 | the selection is stored first; the row is upserted with only a touch and the URL phone; the step advances iff no report was sent |
| ProjectSpecificationsRemote.FetchedData | src/components/forms/Project/Step3Specifications.tsx:28-51 | a zero id skips the request; an error, a throw or a missing row keeps what was shown; a successful fetch of an id that has a row shows a row with that id |
| ProjectSpecificationsRemote.FetchShowsTheRow | src/components/forms/Project/Step3Specifications.tsx:28-51 | with the id unique in the table, a successful fetch shows exactly that row, and its specifications followed by "Other" become the buttons |
| ProjectSpecificationsRemote.NothingFetchedOffersOther | src/components/forms/Project/Step3Specifications.tsx:240-274 | before any record arrives, only "Other" is offered |
| ProjectSpecificationsRemote.RemoteSpecificationsStep.constructor | src/components/forms/Project/Step3Specifications.tsx:23-25 | the selection starts from the stored specifications; no record; not loading |
| ProjectSpecificationsRemote.RemoteSpecificationsStep.FetchServiceData | src/components/forms/Project/Step3Specifications.tsx:28-51 | the shown record becomes `FetchedData` of the old one |
| ProjectSpecificationsRemote.RemoteSpecificationsStep.SyncSelection | src/components/forms/Project/Step3Specifications.tsx:218-220 | the effect copies the stored specifications into the selection |
| ProjectSpecificationsRemote.RemoteSpecificationsStep.HandleSpecSelect | src/components/forms/Project/Step3Specifications.tsx:53-70 | the clicked specification is toggled |
| ProjectSpecificationsRemote.RemoteSpecificationsStep.HandleBack | src/components/forms/Project/Step3Specifications.tsx:73-83 | the stored specifications are emptied, then the step goes back |
| ProjectSpecificationsRemote.RemoteSpecificationsStep.HandleSubmit | src/components/forms/Project/Step3Specifications.tsx:119-188 | the selection is stored first; the row is upserted with only a touch and the URL phone; the step advances iff no report was sent |
| AppointmentContractors.FilterContractors | src/components/forms/Appointment/Step3Contractors.tsx:52-59 | the list is never longer than the directory |
| AppointmentContractors.FilterContractorsSound | src/components/forms/Appointment/Step3Contractors.tsx:52-59 | every listed record is an eligible directory entry with `optIn` false |
| AppointmentContractors.FilterContractorsComplete | src/components/forms/Appointment/Step3Contractors.tsx:52-59 | every eligible directory entry is listed |
| AppointmentContractors.FilterContractorsMembership | src/components/forms/Appointment/Step3Contractors.tsx:52-58 | an entry is listed iff it offers the service and its zip and state equal the visitor's |
| AppointmentContractors.FilterContractorsConcat | src/components/forms/Appointment/Step3Contractors.tsx:52-59 | the list follows directory order |
| AppointmentContractors.FilterContractorsDistinct | src/components/forms/Appointment/Step3Contractors.tsx:52-59 | distinct directory ids give distinct listed ids |
| AppointmentContractors.SetOptIn | src/components/forms/Appointment/Step3Contractors.tsx:65-67 | records with the id get the new flag; every other record, the length and the order are unchanged |
| AppointmentContractors.ClearOptIns | src/components/forms/Appointment/Step3Contractors.tsx:102-104 | every record's flag is cleared; ids and order are kept |
| AppointmentContractors.FindById | src/components/forms/Appointment/Step3Contractors.tsx:71 | a found record is listed and has the id; `None` iff no record has it |
| AppointmentContractors.RemoveById | src/components/forms/Appointment/Step3Contractors.tsx:81 | exactly the records of other ids remain, in order |
| AppointmentContractors.RemoveByIdDistinct | src/components/forms/Appointment/Step3Contractors.tsx:81 | removing by id keeps distinct ids distinct |
| AppointmentContractors.ConsentedAfterOptIn | src/components/forms/Appointment/Step3Contractors.tsx:70-85 | a tick appends the updated record only when the id is listed; an untick drops every record with the id and keeps the rest in order |
| AppointmentContractors.LoadedListHasNoConsent | src/components/forms/Appointment/Step3Contractors.tsx:52-61 | a freshly loaded list and an empty consent list satisfy the consent invariant |
| AppointmentContractors.SetOptInKeepsDistinctIds | src/components/forms/Appointment/Step3Contractors.tsx:65-67 | the update keeps ids distinct |
| AppointmentContractors.SetOptInKeepsOthers | src/components/forms/Appointment/Step3Contractors.tsx:65-67 | a record of another id is listed after the update iff it was before |
| AppointmentContractors.SetOptInSetsFlag | src/components/forms/Appointment/Step3Contractors.tsx:65-67 | every record with the id carries the new flag |
| AppointmentContractors.TickKeepsConsentInvariant | src/components/forms/Appointment/Step3Contractors.tsx:64-78 | ticking an unticked contractor keeps the consent list equal to the ticked contractors, one record per id |
| AppointmentContractors.UntickKeepsConsentInvariant | src/components/forms/Appointment/Step3Contractors.tsx:64-85 | unticking keeps the consent list equal to the ticked contractors |
| AppointmentContractors.OptInKeepsConsentInvariant | src/components/forms/Appointment/Step3Contractors.tsx:64-86 | every checkbox event the list can raise keeps the invariant and distinct ids |
| AppointmentContractors.UnknownIdChangesNothing | src/components/forms/Appointment/Step3Contractors.tsx:64-78 | an id that is not listed changes neither list |
| AppointmentContractors.ContactDirectlyOffClearsConsent | src/components/forms/Appointment/Step3Contractors.tsx:97-106 | after switching off, no contractor is ticked and none is consented |
| AppointmentContractors.PreferencesAfterChange | src/components/forms/Appointment/Step3Contractors.tsx:88-93 | a tick appends the value; an untick removes every occurrence and keeps the rest in order |
| AppointmentContractors.HeadingFor | src/components/forms/Appointment/Step3Contractors.tsx:228-232 | with no contractor "none available"; with fewer than the quotes asked for, "only N"; otherwise the full heading |
| AppointmentContractors.SentConsentAsWritten | src/components/forms/Appointment/Step3Contractors.tsx:108-146 | the posted consent block carries the consented contractors and the preferences of the render before the clearing |
| AppointmentContractors.AsWrittenLeaksPreferences | src/components/forms/Appointment/Step3Contractors.tsx:108-146 | for every input with nothing consented and some preference set, the posted block carries preferences without a contractor, unlike the intended block |
| AppointmentContractors.AsWrittenDiffersOnlyWithoutContractor | src/components/forms/Appointment/Step3Contractors.tsx:108-146 | the posted and intended blocks differ iff nothing is consented and a preference is set |
| AppointmentContractors.SentConsent | src/components/forms/Appointment/Step3Contractors.tsx:109-111 | the intended block has no preferences when nothing is consented, and the preferences otherwise |
| AppointmentContractors.StalePreferencesAreSent | src/components/forms/Appointment/Step3Contractors.tsx:108-146 | with nothing consented and "sms" picked, the posted block carries "sms", while the intended block carries nothing |
| AppointmentContractors.SentConsentNeedsContractor | src/components/forms/Appointment/Step3Contractors.tsx:109-111 | the intended block never carries preferences without a contractor |
| AppointmentContractors.ErrorAfter | src/components/forms/Appointment/Step3Contractors.tsx:157-165 | success keeps the banner; a non-2xx answer shows "Failed to send appointments"; a network error shows its message |
| AppointmentContractors.ContractorsStep.constructor | src/components/forms/Appointment/Step3Contractors.tsx:37-40 | no error, not contacting directly, no preferences, loading |
| AppointmentContractors.ContractorsStep.FinishLoading | src/components/forms/Appointment/Step3Contractors.tsx:44-46 | the timer's callback ends loading |
| AppointmentContractors.ContractorsStep.LoadMatches | src/components/forms/Appointment/Step3Contractors.tsx:51-62 | the session's list becomes the filtered directory |
| AppointmentContractors.ContractorsStep.HandleContractorOptInChange | src/components/forms/Appointment/Step3Contractors.tsx:64-86 | the list is updated by `SetOptIn`, and the consent list by `ConsentedAfterOptIn` of the updated list |
| AppointmentContractors.ContractorsStep.HandleContactPreferencesChange | src/components/forms/Appointment/Step3Contractors.tsx:88-95 | the preferences become `PreferencesAfterChange` of the old ones |
| AppointmentContractors.ContractorsStep.HandleContactDirectlyChange | src/components/forms/Appointment/Step3Contractors.tsx:97-106 | on: only the flag changes; off: no preferences, no consent, every flag cleared |
| AppointmentContractors.ContractorsStep.HandleSubmit | src/components/forms/Appointment/Step3Contractors.tsx:108-167 | the preferences are cleared for the next render when nothing is consented, but the posted block is `SentConsentAsWritten` of the render's values; the banner follows `ErrorAfter`; the flow always completes |
| AppointmentContractors.ContractorsStep.HandleSubmitCorrected | src/components/forms/Appointment/Step3Contractors.tsx:108-167 | the same submit with the block built after the clearing: the posted block is `SentConsent` and equals the new preferences |
| AppointmentContractors.ContractorsStep.PostOutcome | src/components/forms/Appointment/Step3Contractors.tsx:148-165 | the `try`/`catch` around the post leaves the banner `ErrorAfter` describes |
| GradualSpacing.HighlightedAsWritten | src/components/ui/gradual-spacing.tsx:29-32 | one flag per character of the text |
| GradualSpacing.Highlighted | src/components/ui/gradual-spacing.tsx:29-32 | the corrected window: exactly the characters of the first occurrence, and none when there is no occurrence |
| GradualSpacing.HighlightedSpellsHighlight | src/components/ui/gradual-spacing.tsx:30-32 | every accented character is the matching character of the highlight, and every character of the first occurrence is accented |
| GradualSpacing.AsWrittenAgreesWhenPresent | src/components/ui/gradual-spacing.tsx:30-32 | when the highlight occurs, the component's window is the corrected one |
| GradualSpacing.AbsentHighlightCoversPrefix | src/components/ui/gradual-spacing.tsx:30-32 | when the highlight does not occur, the component accents exactly the first `\|highlight\| - 1` characters |
| GradualSpacing.EmptyHighlightAccentsNothing | src/components/ui/gradual-spacing.tsx:30-32 | the default empty highlight accents nothing |
| GradualSpacing.AbsentHighlightScenario | src/components/ui/gradual-spacing.tsx:30-32 | heading "Hi" with highlight "Hey": the component accents both characters, the corrected window none |

## Left out

- Network I/O is not modelled. This covers the lead and appointment `fetch` posts, their JSON payloads and the consent texts. A post's outcome is a `Delivery` parameter, and only the parts of the payload that a finding concerns are modelled.
- The Supabase client is not modelled. The "Forms" and "Services" tables are a map and a sequence, and the store's answers are `Outcome` parameters. A failed lookup on "Forms" with `PGRST116` is treated as "no row". A lookup that answers without the row is treated the same way.
- `sendErrorWebhook` is not modelled beyond the message it reports (the `report` result). Its request and its own failure are swallowed by the source and have no effect on state.
- PostHog analytics events are not modelled: they have no effect on the session.
- `localStorage` mirroring is not modelled. It is browser storage that nothing in the core reads back.
- `window.location` and router navigation, including the results flow's `handleGoHome`, are not modelled.
- The `beforeunload` listener is not modelled.
- The reset and back buttons are not modelled beyond the `Signal` they return. The flow controllers of the appointment and project flows are not part of this model.
- The 3000 ms loading timer is modelled only as `FinishLoading`: the timer itself is not modelled.
- React's effect scheduling and render order are not modelled. Each effect is a method the caller runs after the change it depends on, and each handler is one atomic transition. The one place where render timing matters is logged under "Findings".
- Formik's touched and blur tracking, the choice of which message is shown first, and the timing of `isValid` are not modelled. The schema is modelled as the set of failed rules.
- The Yup email pattern is the `isEmail` parameter of the validation functions.
- Case mapping is ASCII only: Unicode `toLowerCase` and `toUpperCase` are not modelled.
- `ContactDetails.ContactDetailsForm.HandleSubmit` takes the area code as local state only. The source never stores it.
- The animation delays of the highlighted heading (`i * delayMultiple`, floating point), and all styling and hover handlers, are not modelled.
- The two `new Date()` reads of an insert are modelled as one `now` value.
- Display-only components are not part of this model: the confirmation screen, the tables, the navigation bar, the home page, the search box, the service cards and the project selection step.
- Session fields that the provider does not define start neutral: 0, `""`, `false` or `[]`. The client-generated form id is a constructor parameter.
- `QuoteRequest.AllSelected` is the length test as written. It means "every match is ticked" only under the conditions of `QuoteRequest.AllSelectedMeansEveryMatch`.
- The analytics events that the specification toggle, the back button and the step start record are not modelled: they change no state.

## Findings

| source | as written | input that shows it | evidently intended | confidence | as-written member | corrected member |
|---|---|---|---|---|---|---|
| src/components/forms/Appointment/Step3Contractors.tsx:109-146 | the submit calls `setContactPreferences([])` when nothing is consented, then builds the payload from the render's `contactPreferences`, so the clearing does not reach the posted consent block | tick a contractor, tick the "sms" preference, untick the contractor, submit: the block has `consentedContractors: []` and `contactPreferences: ["sms"]` | no contact preferences are posted without a consented contractor | not executed | AppointmentContractors.SentConsentAsWritten | AppointmentContractors.SentConsent |
| src/components/ui/gradual-spacing.tsx:30-32 | `startIndex = text.indexOf(highlightText)` is used without checking for -1, so an absent highlight accents the characters `0 .. \|highlightText\| - 2` | text "Hi" with `highlightText` "Hey": both characters are accented although "Hey" does not occur | nothing is accented when the highlight text does not occur | not executed | GradualSpacing.HighlightedAsWritten | GradualSpacing.Highlighted |
