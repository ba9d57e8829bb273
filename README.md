# Women's health records: a Dafny model of the screens' logic

This project models the behaviour of a React prototype for obstetric and
gynaecological records. It covers the same screens as the prototype:

- The application shell, with its navigation, the selected patient and the
  placeholder page titles.
- The patient directory, with its search, status facet, tab counts and badge
  styles.
- The record screen, with its section menu, breadcrumb label and profile
  modal.
- The two record sidebars, with initials, the G/P/L/A summary, the collapsible
  history panels and the profile editor.
- The four clinical forms:
  - the ANC case, with its path-based field update, automatic BMI, EDD by
    Naegele's rule, follow-up visits and past pregnancies;
  - the gynecology visits, with a copy-on-path update, automatic BMI and
    save-or-append;
  - the obstetric-history table, with add, remove-and-renumber and cell edits;
  - the medical-history check lists.
- The demo data, with its directory rows and the lookup by UHID.

Each component whose state React holds becomes a Dafny `class`. Its fields
are that component's `useState` variables, and its handlers are methods with
`modifies this`. Each handler's postcondition names the pure function that
computes the new state, and lemmas state the properties of those functions.

The two `any`-typed records, the ANC case and the gynecology visit, are
modelled as a JSON-like value tree (`Json.Value`, `Json.Record`). This way
the string paths of `updateField` keep their JavaScript meaning:

- the deep-clone walk that throws on a non-object;
- the copy-on-path walk that never fails;
- object and array spread;
- the truthiness tests.

The other records use the typed entities of `src/types.ts`.

Supporting modules:

- `Text`: `split`, `join`, `trim`, letter case, `includes` and
  number-to-text.
- `Lists`: `filter`, `map` and counts.
- `Dates`: the Gregorian calendar, ISO `YYYY-MM-DD` text and the 280-day EDD.

## Model

| member | source | states |
|---|---|---|
| Json.Get | src/components/forms/ANCFormV2.tsx:369-370 | A property read gives a value exactly when the key is present, and then the stored value. |
| Json.Spread | src/components/forms/GynecologyFormV2.tsx:203 | `{ ...v }` of an object is its fields, and of a number, boolean or `undefined` it is empty. |
| Json.IndexMap | src/components/forms/GynecologyFormV2.tsx:207 | Spreading a string or array into an object gives exactly the indices in decimal as keys, each holding its element. |
| Json.SpreadList | src/components/forms/ANCFormV2.tsx:406 | `[...v]` succeeds exactly on arrays and strings. It gives an array's own items, and one element per character of a string. |
| Json.FindTwo | src/components/forms/ANCFormV2.tsx:369-370 | A two-key path reads the second key of the object under the first. |
| Json.AssignSucceeds | src/components/forms/ANCFormV2.tsx:361-365 | The walking assignment succeeds exactly when the path without its last key leads to an object. |
| Json.AssignFind | src/components/forms/ANCFormV2.tsx:361-365 | After the walking assignment, the path reads the assigned value. |
| Json.AssignApart | src/components/forms/ANCFormV2.tsx:361-365 | After the walking assignment, every path apart from the assigned one reads as before. |
| Json.CopyAssignFind | src/components/forms/GynecologyFormV2.tsx:205-210 | The copy-on-path assignment always makes the path read the value. |
| Json.CopyAssignAgrees | src/components/forms/GynecologyFormV2.tsx:205-210 | Where the walking assignment succeeds, the copy-on-path one gives the same record. |
| Json.CopyAssignOtherKeys | src/components/forms/GynecologyFormV2.tsx:203-207 | Keys outside the path's first step keep their values. |
| Json.RoundTenth | src/components/forms/ANCFormV2.tsx:372 | `Math.round(x*10)/10` lies within half a tenth of `x`. |
| Json.RoundTenthIsTenths | src/components/forms/ANCFormV2.tsx:372 | The rounded BMI is a whole number of tenths. |
| Json.Bmi | src/components/forms/GynecologyFormV2.tsx:217 | The BMI is within half a tenth of weight / (height in metres)². |
| Json.WithBmi | src/components/forms/ANCFormV2.tsx:368-374 | The BMI step fails exactly when the section is missing. Otherwise every other top-level field is kept. |
| Json.WithBmiRule | src/components/forms/GynecologyFormV2.tsx:213-219 | On an object section, `bmi` is written exactly when height and weight are both positive, and then equals their BMI. No other field of the section changes. |
| Json.WithBmiAssigns | src/components/forms/ANCFormV2.tsx:371-373 | The BMI write is the path assignment of `section.bmi`. |
| Dates.NextDay | src/components/forms/ANCFormV2.tsx:380 | The rollover of `setDate` gives a valid calendar day. |
| Dates.AddDays | src/components/forms/ANCFormV2.tsx:380 | Adding days to a valid date gives a valid date. |
| Dates.NextDayNumber | src/components/forms/ANCFormV2.tsx:380 | The next day is exactly one day number on. |
| Dates.AddDaysNumber | src/components/forms/ANCFormV2.tsx:379-380 | Adding `n` days moves exactly `n` day numbers forward. |
| Dates.DayNumberInjective | src/components/forms/ANCFormV2.tsx:379-380 | Different valid days have different day numbers. |
| Dates.AddDaysUnique | src/components/forms/ANCFormV2.tsx:379-380 | The EDD is the one valid date whose day number is 280 further on. |
| Dates.ParseIso | src/components/forms/ANCFormV2.tsx:378 | `new Date(text)` of a date input gives a valid date with a four-digit year, or none. |
| Dates.ParseFormatIso | src/components/forms/ANCFormV2.tsx:378-381 | Printing a four-digit-year date and parsing it back gives the date. |
| Dates.FormatParseIso | src/components/forms/ANCFormV2.tsx:378-381 | A text that parses is exactly the printed form of its date. |
| Dates.EddOfDate | src/components/forms/ANCFormV2.tsx:377-382 | The EDD text is the printed date 280 day numbers after the LMP. |
| Dates.EddApril | src/components/forms/ANCFormV2.tsx:378-381 | An LMP of 2025-04-01 gives an EDD of 2026-01-06, across the new year. |
| Dates.EddJanuary | src/components/forms/ANCFormV2.tsx:378-381 | An LMP of 2025-01-01 gives an EDD of 2025-10-08. |
| AncForm.AssignPath | src/components/forms/ANCFormV2.tsx:358-365 | The walk loop over the keys computes the walking assignment `Json.Assign`. |
| AncForm.ChainFail | src/components/forms/ANCFormV2.tsx:362-365 | A walk that meets a non-object before the last key fails as a whole. |
| Json.BmiTriggerPaths | src/components/forms/ANCFormV2.tsx:368 | The BMI is derived exactly on the paths `section.weight` and `section.height`: `bookingVisit` here and `physicalExam` at GynecologyFormV2.tsx:213. |
| AncForm.LmpTriggerPath | src/components/forms/ANCFormV2.tsx:377 | The EDD is derived exactly on the path `obstetricStatus.lmp`. |
| AncForm.ApartSiblings | src/components/forms/ANCFormV2.tsx:369-381 | The derived fields are apart from their sibling trigger fields. |
| AncForm.DeriveKeepsApart | src/components/forms/ANCFormV2.tsx:367-382 | The derivations change nothing but the BMI or EDD they write. |
| AncForm.AncUpdateSetsLeaf | src/components/forms/ANCFormV2.tsx:355-385 | After a successful `updateField(path, value)`, the path reads `value`. |
| AncForm.AncUpdateKeepsApart | src/components/forms/ANCFormV2.tsx:355-385 | Every path apart from the updated one reads as before, except the BMI after a height or weight update and the EDD after an LMP update. |
| AncForm.AncUpdateFailsOffObject | src/components/forms/ANCFormV2.tsx:362-365 | A path through a non-object throws, so the update has no result. |
| AncForm.EddEditKeepsLmp | src/components/forms/ANCFormV2.tsx:377 | Editing the EDD by hand leaves the LMP alone. |
| AncForm.AncBmiRule | src/components/forms/ANCFormV2.tsx:368-374 | After a height or weight update, `bmi` is the BMI of the new measurements when both are positive. Otherwise it is unchanged. |
| AncForm.AncEddRule | src/components/forms/ANCFormV2.tsx:377-382 | A non-empty LMP succeeds exactly when it is a date and `obstetricStatus` is an object. The EDD is then the LMP plus 280 days. |
| AncForm.FalsyLmpKeepsEdd | src/components/forms/ANCFormV2.tsx:377 | Clearing the LMP, or writing any other falsy value there, leaves `obstetricStatus.edd` as it was. |
| AncForm.AncEddExample | src/components/forms/ANCFormV2.tsx:377-382 | Entering the LMP 2025-04-01 sets the EDD to 2026-01-06. |
| AncForm.WithFollowUpVisit | src/components/forms/ANCFormV2.tsx:404-407 | Adding a visit succeeds exactly when the visit list is spreadable, an array or a string; otherwise the spread throws. |
| AncForm.FollowUpVisitAppended | src/components/forms/ANCFormV2.tsx:387-408 | The earlier visits are kept in order, and one visit is added at the end: it has the new id and date, every other field is 0 or the empty text, and it is exactly the visit the handler builds. The other case fields stay. |
| AncForm.WithUpdatedVisit | src/components/forms/ANCFormV2.tsx:410-418 | The visit update succeeds exactly when the visits are an array. |
| AncForm.UpdatedVisitRule | src/components/forms/ANCFormV2.tsx:410-418 | The number and order of visits are kept. The visits with the id get the field set, and the others are unchanged. |
| AncForm.WithPastEntry | src/components/forms/ANCFormV2.tsx:420-435 | Adding a past pregnancy succeeds exactly when the list is spreadable. |
| AncForm.PastEntryNumbered | src/components/forms/ANCFormV2.tsx:420-435 | The new entry is numbered one past the old length, and the earlier entries are kept. |
| AncForm.WithPastRowEdit | src/components/forms/ANCFormV2.tsx:817-821 | The cell edit keeps the case's keys. |
| AncForm.PastRowEditRule | src/components/forms/ANCFormV2.tsx:817-833 | A cell edit changes only that key of that row. |
| AncForm.Toggled | src/components/forms/ANCFormV2.tsx:335-337 | The toggled section is present, and no other key is added. |
| AncForm.ToggleFlipsOne | src/components/forms/ANCFormV2.tsx:335-337 | Toggling flips the one section and leaves every other section as it was. |
| AncForm.ToggleTwice | src/components/forms/ANCFormV2.tsx:335-337 | Toggling twice shows every section as before. |
| AncForm.FreshCaseKept | src/components/forms/ANCFormV2.tsx:339-353 | Cancel drops a fresh case only if `today` is empty, so a new case survives cancel. |
| AncForm.Editor.constructor | src/components/forms/ANCFormV2.tsx:315-326 | No case, not editing, the initial tab (or booking), and the seven sections open. |
| AncForm.Editor.ToggleSection | src/components/forms/ANCFormV2.tsx:335-337 | The expanded map becomes the toggled one, and nothing else changes. |
| AncForm.Editor.NewCase | src/components/forms/ANCFormV2.tsx:339-342 | The case becomes the fresh case, and editing starts. |
| AncForm.Editor.StartEditing | src/components/forms/ANCFormV2.tsx:489 | Editing starts, and nothing else changes. |
| AncForm.Editor.Save | src/components/forms/ANCFormV2.tsx:344-346 | Editing ends, and the case is unchanged. |
| AncForm.Editor.Cancel | src/components/forms/ANCFormV2.tsx:348-353 | A case without a booking date is dropped and editing ends. If the read throws, nothing changes. |
| AncForm.Editor.SelectTab | src/components/forms/ANCFormV2.tsx:329-333 | The active tab becomes the chosen one. |
| AncForm.Editor.UpdateField | src/components/forms/ANCFormV2.tsx:355-385 | The case becomes the result of the update, or stays as it was when there is no case or the update throws. |
| AncForm.Editor.AddFollowUpVisit | src/components/forms/ANCFormV2.tsx:387-408 | The case becomes the case with the visit appended. |
| AncForm.Editor.UpdateFollowUpVisit | src/components/forms/ANCFormV2.tsx:410-418 | The case becomes the case with the visit edited. |
| AncForm.Editor.AddPastObstetricEntry | src/components/forms/ANCFormV2.tsx:420-435 | The case becomes the case with the numbered entry appended. |
| AncForm.Editor.EditPastRow | src/components/forms/ANCFormV2.tsx:817-821 | The case becomes the case with the cell edited. |
| GynecologyForm.EmptyVisitBlank | src/components/forms/GynecologyFormV2.tsx:95-157 | Every section of an empty visit holds only empty texts, zeros and falses. |
| GynecologyForm.EmptyVisitLeavesHeader | src/components/forms/GynecologyFormV2.tsx:95 | The empty visit has no id, date, name or age. |
| GynecologyForm.NewVisitRule | src/components/forms/GynecologyFormV2.tsx:169-179 | A new visit has the given id and date and the patient's name and age. Every other field is blank. |
| GynecologyForm.CopyAssignPath | src/components/forms/GynecologyFormV2.tsx:202-210 | The copy loop computes the copy-on-path assignment `Json.CopyAssign`. |
| GynecologyForm.GyneUpdateSetsLeaf | src/components/forms/GynecologyFormV2.tsx:199-222 | After `updateField(path, value)` the path reads `value`, whatever lay on the way. |
| GynecologyForm.GyneUpdateKeepsApart | src/components/forms/GynecologyFormV2.tsx:199-222 | Where every step of the path is an object, every path apart from the updated one is kept, except the BMI after a height or weight update. |
| GynecologyForm.CopyWhereWalkFails | src/components/forms/GynecologyFormV2.tsx:205-210 | Where the ANC walk would throw, the copy-on-path update still sets the leaf. |
| GynecologyForm.GyneBmiRule | src/components/forms/GynecologyFormV2.tsx:213-219 | After a height or weight update, `bmi` is the BMI of the new measurements when both are positive. Otherwise it is what the copy holds. |
| GynecologyForm.Upsert | src/components/forms/GynecologyFormV2.tsx:183-190 | The saved list is never empty. |
| GynecologyForm.UpsertReplaces | src/components/forms/GynecologyFormV2.tsx:184-187 | A visit with a listed id replaces the visits with that id in place. The length and the other visits are kept. |
| GynecologyForm.UpsertAppends | src/components/forms/GynecologyFormV2.tsx:188 | A visit with a new id is appended. |
| GynecologyForm.UpsertHoldsVisit | src/components/forms/GynecologyFormV2.tsx:183-190 | The saved visit is in the list, and saving it again changes nothing. |
| GynecologyForm.UpsertKeepsDistinct | src/components/forms/GynecologyFormV2.tsx:183-190 | Saving keeps the ids distinct. |
| GynecologyForm.Editor.View | src/components/forms/GynecologyFormV2.tsx:225-241 | The empty state shows exactly when not editing with no visits. The list shows exactly when not editing with visits, and the form exactly while editing. |
| GynecologyForm.Editor.constructor | src/components/forms/GynecologyFormV2.tsx:165-167 | No visits, nothing being edited, and the empty state shown. |
| GynecologyForm.Editor.NewVisitClicked | src/components/forms/GynecologyFormV2.tsx:169-179 | The new visit is being edited, and the list is unchanged. |
| GynecologyForm.Editor.OpenVisit | src/components/forms/GynecologyFormV2.tsx:256 | The clicked visit is being edited. |
| GynecologyForm.Editor.Save | src/components/forms/GynecologyFormV2.tsx:181-192 | A save while editing always upserts the current visit into the list; editing ends and the list shows. With no current visit, nothing happens. Editing still goes with having a current visit. |
| GynecologyForm.Editor.Cancel | src/components/forms/GynecologyFormV2.tsx:194-197 | The current visit is dropped, and the list is kept. |
| GynecologyForm.Editor.UpdateField | src/components/forms/GynecologyFormV2.tsx:199-222 | Only the current visit changes, to the updated visit; while editing there is always one to change. |
| ObstetricHistoryForm.AddedRule | src/components/forms/ObstetricHistoryForm.tsx:51-53 | Adding keeps the entries and appends an empty entry numbered length + 1. |
| ObstetricHistoryForm.Renumbered | src/components/forms/ObstetricHistoryForm.tsx:59 | Renumbering keeps the number of entries. |
| ObstetricHistoryForm.RenumberedKeepsContent | src/components/forms/ObstetricHistoryForm.tsx:59 | Renumbering changes only the numbers. |
| ObstetricHistoryForm.RemovedRule | src/components/forms/ObstetricHistoryForm.tsx:55-61 | Removing leaves exactly the entries with another id, in order, with their content, numbered 1..n. |
| ObstetricHistoryForm.OthersConcat | src/components/forms/ObstetricHistoryForm.tsx:57 | Removal distributes over concatenation, so the order is kept. |
| ObstetricHistoryForm.RemoveSecondOfThree | src/components/forms/ObstetricHistoryForm.tsx:55-61 | Removing #2 of three leaves the former #1 and #3, numbered 1 and 2. |
| ObstetricHistoryForm.Updated | src/components/forms/ObstetricHistoryForm.tsx:63-67 | The update keeps the length. |
| ObstetricHistoryForm.UpdatedRule | src/components/forms/ObstetricHistoryForm.tsx:63-67 | The update changes only the one column of the entries with the id. |
| ObstetricHistoryForm.OthersDistinct | src/components/forms/ObstetricHistoryForm.tsx:57 | A filter keeps the ids distinct. |
| ObstetricHistoryForm.WellFormedKept | src/components/forms/ObstetricHistoryForm.tsx:51-67 | Add (with a fresh id), remove and update keep the ids distinct and the numbers 1..n. |
| ObstetricHistoryForm.Editor.constructor | src/components/forms/ObstetricHistoryForm.tsx:39-40 | No entries, and not editing. |
| ObstetricHistoryForm.Editor.StartEditing | src/components/forms/ObstetricHistoryForm.tsx:90 | Editing starts, and the entries are kept. |
| ObstetricHistoryForm.Editor.Save | src/components/forms/ObstetricHistoryForm.tsx:42-45 | Editing ends, and the entries are kept. |
| ObstetricHistoryForm.Editor.Cancel | src/components/forms/ObstetricHistoryForm.tsx:47-49 | Editing ends, and the edits are not reverted. |
| ObstetricHistoryForm.Editor.AddEntry | src/components/forms/ObstetricHistoryForm.tsx:51-53 | The entries become the added list. |
| ObstetricHistoryForm.Editor.RemoveEntry | src/components/forms/ObstetricHistoryForm.tsx:55-61 | The entries become the removed-and-renumbered list. |
| ObstetricHistoryForm.Editor.UpdateEntry | src/components/forms/ObstetricHistoryForm.tsx:63-67 | The entries become the updated list. |
| MedicalHistoryForm.EmptyAllClear | src/components/forms/MedicalHistoryForm.tsx:44-75 | Every initial entry is false except `surgery`, which is the empty text. |
| MedicalHistoryForm.UpdatedRule | src/components/forms/MedicalHistoryForm.tsx:95-103 | The entry reads the value. Every other entry and the other sections are kept. |
| MedicalHistoryForm.UpdatedIdempotent | src/components/forms/MedicalHistoryForm.tsx:95-103 | The same update twice equals once. |
| MedicalHistoryForm.UpdatedCommute | src/components/forms/MedicalHistoryForm.tsx:95-103 | Updates of different entries commute. |
| MedicalHistoryForm.Editor.constructor | src/components/forms/MedicalHistoryForm.tsx:83-84 | Empty history, and not editing. |
| MedicalHistoryForm.Editor.StartEditing | src/components/forms/MedicalHistoryForm.tsx:126 | Editing starts, and the data is kept. |
| MedicalHistoryForm.Editor.Save | src/components/forms/MedicalHistoryForm.tsx:86-89 | Editing ends, and the data is kept. |
| MedicalHistoryForm.Editor.Cancel | src/components/forms/MedicalHistoryForm.tsx:91-93 | Editing ends, and the edits are not reverted. |
| MedicalHistoryForm.Editor.UpdateField | src/components/forms/MedicalHistoryForm.tsx:95-103 | The data becomes the updated record. |
| PatientList.FilteredRule | src/components/PatientList.tsx:23-30 | A patient is listed exactly when present and matching both the search and the facet, and the list order is kept. |
| PatientList.EmptySearchListsAll | src/components/PatientList.tsx:23-30 | An empty search on the All tab lists everyone in order. |
| PatientList.UhidAnyCase | src/components/PatientList.tsx:25 | A UHID typed in any letter case finds its patient. |
| PatientList.SearchMisses | src/components/PatientList.tsx:24-27 | A search whose first letter occurs in no case in the name, UHID or mobile misses the row. |
| PatientList.LowerAvoids | src/components/PatientList.tsx:24-25 | Lowering the case does not bring in a letter absent in both cases. |
| PatientList.PriyaMatches | src/mockData.ts:98-99 | The row of Priya Sharma matches the search "priya". |
| PatientList.EmptyStateRule | src/components/PatientList.tsx:169 | "No patients found" shows exactly when nothing matches. |
| PatientList.CountsSum | src/components/PatientList.tsx:79-91 | The three status tab counts add up to the number of patients. |
| PatientList.RiskBadgeClass | src/components/PatientList.tsx:32-41 | High and Medium get their styles, and anything else gets `risk-low`. |
| PatientList.StatusBadgeClass | src/components/PatientList.tsx:43-52 | Active and Delivered get their styles, and anything else gets `status-closed`. |
| PatientList.BadgeStyles | src/components/PatientList.tsx:32-52 | Each risk level and each status gets its own style. |
| MockData.GetPatientByUhid | src/mockData.ts:182-188 | Only `WMN-2025-001` finds a record, and that record carries the UHID asked for. |
| MockData.LookupChaitra | src/mockData.ts:182-188 | Looking up Chaitra's UHID gives her record. |
| MockData.CreateNewVisit | src/mockData.ts:192-198 | A new visit has the id, date and template given, pallor and pedal edema false, and no complaints, weight, remarks or examiner. |
| MockData.DirectoryUhidsDistinct | src/mockData.ts:81-179 | No two directory rows share a UHID. |
| MockData.OneFullRecord | src/mockData.ts:81-188 | Exactly one directory row, the first, has a full record. |
| Sidebar.InitialsRule | src/components/sidebar/Sidebar.tsx:41-46 | The initials have one letter per word of the name: the upper case of that word's first letter. |
| Sidebar.FirstCharsRule | src/components/sidebar/Sidebar.tsx:41-45 | The mapped first characters skip exactly the empty words. |
| Sidebar.NonEmpty | src/components/sidebar/Sidebar.tsx:43 | The kept words are non-empty words of the name. |
| Sidebar.Words | src/components/sidebar/Sidebar.tsx:42-43 | The words of a name are non-empty and have no space. |
| Sidebar.Heads | src/components/sidebar/Sidebar.tsx:44 | One character per word. |
| Sidebar.InitialsOfFullName | src/components/sidebar/Sidebar.tsx:41-46 | "first last" gives the two upper-cased first letters. |
| Sidebar.GplaFields | src/components/sidebar/Sidebar.tsx:48-49 | The G/P/L/A summary splits into its four labelled counts. |
| Sidebar.GplaInjective | src/components/sidebar/Sidebar.tsx:48-49 | Equal summaries come from equal G, P, L and A counts. |
| Sidebar.ToggleRule | src/components/sidebar/Sidebar.tsx:53-55 | A section opens exactly when it was not the open one, and otherwise all close. Toggling twice restores the state exactly when nothing or that section was open. |
| Sidebar.MedicalPanelRule | src/components/sidebar/Sidebar.tsx:216-226 | The panel lists exactly the entries that are not falsy, and shows "Nil" exactly when it lists none. |
| Sidebar.NilAllFalsy | src/components/sidebar/Sidebar.tsx:224 | All entries being falsy means no entry is listed. |
| Sidebar.FamilyOthersHidden | src/components/sidebar/Sidebar.tsx:239-248 | As written, a history with only an `others` text lists nothing and shows no "Nil" either. |
| Sidebar.FamilyPanelRule | src/components/sidebar/Sidebar.tsx:239-248 | The corrected panel shows "Nil" exactly when it lists nothing. It agrees with the code as written on flag-only histories. |
| Sidebar.FlagsOnly | src/components/sidebar/Sidebar.tsx:240 | On flags alone, the "true" filter and the listed filter agree. |
| Sidebar.Spaced | src/components/sidebar/Sidebar.tsx:220 | After the capital-spacing replace, every capital past the start follows a space. |
| Sidebar.SpacedUnspaced | src/components/sidebar/Sidebar.tsx:220 | Spacing adds only whitespace. |
| Sidebar.UnspacedTrimStart | src/components/sidebar/Sidebar.tsx:220 | Trimming the start deletes whitespace only. |
| Sidebar.UnspacedTrimEnd | src/components/sidebar/Sidebar.tsx:220 | Trimming the end deletes whitespace only. |
| Sidebar.TrimEndDrops | src/components/sidebar/Sidebar.tsx:220 | `trim` drops only trailing whitespace. |
| Sidebar.UnspacedTrim | src/components/sidebar/Sidebar.tsx:220 | Trimming removes only whitespace. |
| Sidebar.HumanisedRoundTrip | src/components/sidebar/Sidebar.tsx:220 | Removing the spaces from a humanised key gives the key back. |
| Sidebar.HumanisedCapitals | src/components/sidebar/Sidebar.tsx:220 | Every capital in a humanised key past the first character follows a space. |
| Sidebar.KeptPieces | src/components/sidebar/Sidebar.tsx:361 | The pieces kept by the allergy parse are trimmed, non-empty and comma-free. |
| Sidebar.ParseAllergies | src/components/sidebar/Sidebar.tsx:361 | Every parsed allergy is non-empty, trimmed and free of commas. |
| Sidebar.SplitJoined | src/components/sidebar/Sidebar.tsx:357-361 | Splitting the joined text at commas gives the items, each after the first preceded by a space. |
| Sidebar.AllergiesRoundTrip | src/components/sidebar/Sidebar.tsx:357-361 | Parsing the displayed `join(', ')` gives the allergy list back. |
| Sidebar.WithFieldRule | src/components/sidebar/Sidebar.tsx:285-287 | `handleChange(field, value)` sets that field and leaves every other field of the profile as it was. |
| Sidebar.EditKeepsUhid | src/components/sidebar/Sidebar.tsx:336-338 | No input of the modal changes the UHID or the husband's blood group. |
| Sidebar.SectionState.constructor | src/components/sidebar/Sidebar.tsx:37 | The quick-info section starts open. |
| Sidebar.SectionState.ToggleSection | src/components/sidebar/Sidebar.tsx:53-55 | The open section becomes the toggled one. |
| Sidebar.SectionState.Close | src/components/sidebar/Sidebar.tsx:213 | The close buttons close every section. |
| Sidebar.ProfileEditor.constructor | src/components/sidebar/Sidebar.tsx:283 | The form starts as a copy of the profile. |
| Sidebar.ProfileEditor.HandleChange | src/components/sidebar/Sidebar.tsx:285-287 | The form becomes the profile with the field set. |
| PatientSidebar.AncCountRule | src/components/sidebar/PatientSidebarV2.tsx:51 | The ANC count plus the other visits is the number of visits. It is positive exactly when some visit is ANC. |
| PatientSidebar.ActiveItemRule | src/components/sidebar/PatientSidebarV2.tsx:49-55 | The items carry distinct ids in menu order. At most one is active, and one is exactly when the section is on the menu. |
| PatientSidebar.CountBadgeRule | src/components/sidebar/PatientSidebarV2.tsx:185 | Only the ANC item can show a count, and it does exactly when there is an ANC visit. |
| PatientSidebar.MoreDetails.constructor | src/components/sidebar/PatientSidebarV2.tsx:36 | The accordion starts closed. |
| PatientSidebar.MoreDetails.Toggle | src/components/sidebar/PatientSidebarV2.tsx:126 | The accordion flips. |
| PatientDetailView.SectionLabelRule | src/components/PatientDetailViewV2.tsx:34-42 | The four known sections get fixed labels, and a label equals its section exactly for the other sections. |
| PatientDetailView.UnknownSectionShowsDetails | src/components/PatientDetailViewV2.tsx:45-58 | The details page shows exactly for the sections other than anc, gynecology and general. |
| PatientDetailView.MenuSectionsRule | src/components/PatientDetailViewV2.tsx:45-58 | From the menu, anc and gynecology open their forms and the other items open details. General is unreachable. The history items are labelled by their raw ids. |
| PatientDetailView.ProfileSavedRule | src/components/PatientDetailViewV2.tsx:25-31 | The handed record has the new profile and keeps the rest of the record. |
| PatientDetailView.DetailView.constructor | src/components/PatientDetailViewV2.tsx:22-23 | The view starts on details with the modal closed. |
| PatientDetailView.DetailView.SectionChange | src/components/PatientDetailViewV2.tsx:66 | The active section becomes the chosen one. |
| PatientDetailView.DetailView.OpenEditProfile | src/components/PatientDetailViewV2.tsx:67 | The modal opens. |
| PatientDetailView.DetailView.CloseEditProfile | src/components/PatientDetailViewV2.tsx:95 | The modal closes. |
| PatientDetailView.DetailView.HandleProfileSave | src/components/PatientDetailViewV2.tsx:25-31 | It hands on the record with the new profile and closes the modal. |
| App.PageTitleRule | src/App.tsx:65-77 | A known id gets its title, and any other id gets "Page". |
| App.RenderRule | src/App.tsx:37-63 | The detail screen shows exactly on the patients page with a selection, and shows that patient. Every other page shows a placeholder. |
| App.SelectionConsistent | src/App.tsx:19-28 | A hit gives a record whose UHID is the one selected. |
| App.EditedRecordConsistent | src/App.tsx:60 | A profile saved from the modal keeps the selection consistent. |
| App.Shell.constructor | src/App.tsx:11-16 | The app starts on the patients page, with nothing selected and the sidebar open. |
| App.Shell.SelectPatient | src/App.tsx:19-28 | On a hit, the record and UHID are both set. On a miss, nothing changes. |
| App.Shell.BackToList | src/App.tsx:31-34 | The selection is cleared. |
| App.Shell.NavItemClick | src/App.tsx:86-93 | The nav item is set, and leaving the patients page clears the selection. |
| App.Shell.ToggleSidebar | src/App.tsx:84 | The sidebar's collapsed flag flips. |
| App.Shell.UpdatePatient | src/App.tsx:60 | The record is replaced and the selection stays consistent. |
| Text.Split | src/components/forms/ANCFormV2.tsx:358 | `split` gives at least one piece, and no piece contains the separator. |
| Text.JoinSplit | src/components/forms/ANCFormV2.tsx:358 | Joining the pieces of a split with the separator gives the text back. |
| Text.SplitPrefix | src/components/forms/ANCFormV2.tsx:358 | A separator-free prefix joins the head of the first piece. |
| Text.SplitTwo | src/components/forms/ANCFormV2.tsx:368 | A text splits into the two separator-free keys `[a, b]` exactly when it is `a.b`. |
| Text.SplitJoin | src/components/sidebar/Sidebar.tsx:357-361 | Splitting a join of separator-free pieces gives the pieces back. |
| Text.TrimStart | src/components/sidebar/Sidebar.tsx:361 | The leading trim is a suffix of the text and does not start with whitespace. |
| Text.TrimEnd | src/components/sidebar/Sidebar.tsx:361 | The trailing trim is a prefix of the text and does not end with whitespace. |
| Text.TrimProperties | src/components/sidebar/Sidebar.tsx:361 | `trim` gives a trimmed text made of the text's characters, and leaves a trimmed text as it is. |
| Text.TrimAfterBlank | src/components/sidebar/Sidebar.tsx:357-361 | Trimming an item after the space of the `', '` join gives the item. |
| Text.ToLower | src/components/PatientList.tsx:24-25 | Lowering the case keeps the length and lowers each character. |
| Text.ToUpper | src/components/sidebar/Sidebar.tsx:45 | Raising the case keeps the length and raises each character. |
| Text.ContainsAtOffset | src/components/PatientList.tsx:24-26 | `includes` holds exactly when the pattern occurs at some offset. |
| Text.ContainsEmpty | src/components/PatientList.tsx:24-26 | Every text includes the empty search text. |
| Text.NotContainsFirstChar | src/components/PatientList.tsx:24-26 | A pattern whose first character is absent from the text is not included. |
| Text.NatToString | src/components/sidebar/Sidebar.tsx:48-49 | A count prints as a non-empty run of digits. |
| Text.ParseNatToString | src/components/sidebar/Sidebar.tsx:48-49 | Reading the printed digits back gives the count. |
| Text.IntToString | src/components/sidebar/Sidebar.tsx:48-49 | A number prints as non-empty text with no space. |
| Text.LeadingMinus | src/components/sidebar/Sidebar.tsx:48-49 | The printed number starts with '-' exactly when it is negative. |
| Text.IntToStringInjective | src/components/sidebar/Sidebar.tsx:48-49 | Different numbers print differently. |

## Left out

- Rendering, styling, icons, `alert` and React's `useEffect` plumbing are not modelled. Each handler is modelled by the state change it makes.
- The clock and the id generator (`Date.now()`, `new Date()` for today) are parameters: `id` and `today`.
- Only ASCII is modelled: `toLowerCase`, `toUpperCase`, `trim` and the capital-spacing `replace` cover ASCII letters and whitespace, with no Unicode case mapping or Unicode spaces.
- Numbers are exact reals. The BMI uses exact division and round-half-up, so IEEE-754 rounding is not modelled. A height or weight that is not a number counts as not positive. `parseFloat`/`parseInt` coercion by the inputs is not modelled.
- Sidebar.ProfileEditor.HandleChange: the `parseInt(...) || 0` of the age input is not modelled. The value is passed in already typed, and `Fits` requires it to fit the field.
- Dates cover `new Date(text)` only for the `YYYY-MM-DD` text of a date input, read as UTC midnight, and years 0 and on. Other text formats are not modelled. The EDD step adds the days with `getDate`/`setDate`, which work in local time, so `Dates.EddOfDate`, `Dates.EddJanuary` and `AncForm.AncEddRule` describe a browser in UTC or another fixed-offset zone such as India Standard Time. Where the UTC offset increases between the LMP and the EDD (clocks go forward in between, as for an LMP in winter and an EDD in summer), the program's EDD comes out one day earlier; for example, 2025-01-01 in Europe/Berlin gives 2025-10-07. Where the offset decreases, the result is the same as in UTC, so 2025-04-01 still gives 2026-01-06.
- AncForm.AncUpdate models a path step through an array by index as a non-object step, so it fails. No screen issues such a path.
- Aliasing inside the deep-cloned ANC case and the spread copies is not modelled, because records are values. The in-place walk is still a method (`AncForm.AssignPath`, `GynecologyForm.CopyAssignPath`) proved equal to the value functions.
- AncForm.EmptyAncCase has no contract of its own. `AncForm.FreshCaseKept` states what cancel does with it.
- App.PageTitle does not model lookups of inherited object keys such as `constructor` in the `titles` object.
- PatientList.PriyaMatches: searching the whole demo directory for "priya" is not proved. Only the row-level match and the general filter rule are proved.
- ObstetricHistoryForm.UpdatedRule covers the text columns only. Editing `id` or `pregnancyNumber` through `updateEntry` is not modelled, because no input does it.
- The medications panel of the record sidebar, and which action item is highlighted, are presentation only.
- The older form files (`ANCForm.tsx`, `GyneForm.tsx`, `GeneralForm.tsx`), `AppSidebar.tsx`, `MainContent.tsx`, `PatientDetailsPage.tsx`, `SectionPlaceholder.tsx` and `FormElements.tsx` are not part of this model.

## Findings

| source | as written | input that shows it | evidently intended | confidence | as-written member | corrected member |
|---|---|---|---|---|---|---|
| src/components/sidebar/Sidebar.tsx:239-248 | The family-history panel lists only entries equal to `true`, but shows "Nil" only when every value is falsy. | A family history with every flag false and a non-empty `others` text (`others?: string` in `src/types.ts`): nothing is listed and "Nil" is not shown, so the panel is blank. | List the `others` text as the medical panel does with text values (`v === true` or a non-empty string), so "Nil" shows exactly when nothing is listed. | not executed | Sidebar.FamilyOthersHidden | Sidebar.FamilyPanelRule |
