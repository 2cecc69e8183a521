# Technology tracker — a Dafny model

This project is a Dafny model of the logic inside a small React front end.
The app keeps a list of technologies to learn, each with a status
(`not-started`, `in-progress`, `completed`), notes, a category, a difficulty
and resources. The model covers these parts:

- **The collection layers.** There are four of them:
  - the shared accessor over the persisted key `technologies`;
  - the hook with its own copy of the list;
  - the bulk status hook;
  - the component-local handlers of the manager page and the material-design app.
  They disagree on purpose-relevant details, and the model pins each one down:
  - the accessor compares ids numerically, the others strictly;
  - the accessor always replaces the id, while the hook lets a caller's id win;
  - the accessor keeps a non-empty status, while the app forces `not-started`.
- **Status machines.** These are the three-state cycle, the start/pause/complete buttons, and the labels, colours and classes derived from a status.
- **Import and export.** One importer refuses a whole file if any entry is bad. The other filters out bad entries and merges the rest one at a time. There is also a roadmap importer that adds built-in lists. Export and reset are covered as well.
- **Derived views.** These are the counts, the rounded percentages, the in-progress list and the recent list. The dashboard's recent list is sorted in place on an `array`.
- **Form validators.** These cover the add/edit dialog, the contact form and the add page.
- **Search.** A case-insensitive substring filter behind a one-slot debounce. The debounce is a state machine over explicit events.

Conventions:

- A JavaScript object is the datatype `Technologies.Tech`. An absent property is a blank value (`NoId`, `""`, `[]`, `None`). The category is optional (`Option<string>`), because the search box throws on a record that has none.
- A partial update (`{...t, ...p}`) is a `Patch` of optional fields.
- The browser's key-value store is the class `TechnologiesStorage.LocalStore`. Its slot is absent, holds a parsed list, or holds text that does not parse.
- The wall clock (`Date.now()`, `new Date().toISOString()`) is the class `Clocks.Clock`. Each reading returns the current tick and advances it.
- Confirmation dialogs are a `confirmed` parameter. `toLowerCase` is an uninterpreted function parameter `fold`.
- `Math.round(c / t * 100)` is modelled as the exact integer round-half-up `(200c + t) / (2t)`.

Where the source loops or updates in place, the model is imperative:

- the accessor, the hook, the import/export page, the roadmap importer, the add page, the settings page and the search box are classes, or methods over them, with `modifies` clauses;
- their loops carry invariants tying the state to a specification function (`MergeImport`, `Added`, `Filter`);
- the dashboard's recent list is an insertion sort on the caller's array.

The rest is written as pure functions.

## Model

| member | source | states |
|---|---|---|
| TechnologiesStorage.ReadSlot | src/utils/technologiesStorage.js:7-15 | an absent key and unparseable content both read as the empty list; a parsed list is returned as it is |
| TechnologiesStorage.LocalStore.GetById | src/utils/technologiesStorage.js:18-22 | absent iff no record's id is numerically equal to the argument; otherwise the first such record |
| TechnologiesStorage.Stamp | src/utils/technologiesStorage.js:27-32 | the id and creation time are the clock reading whatever id was given; a non-empty status is kept, an empty one becomes `not-started`; every other field is unchanged |
| TechnologiesStorage.LocalStore.Add | src/utils/technologiesStorage.js:25-36 | the stamped record is appended after every earlier record, in order, saved, and returned |
| TechnologiesStorage.LocalStore.Update | src/utils/technologiesStorage.js:39-49 | the first numerically matching record becomes the merge of it and the patch, is saved and returned; with no match the result is absent and the slot is untouched |
| TechnologiesStorage.LocalStore.Delete | src/utils/technologiesStorage.js:52-57 | every numerically matching record is dropped, the rest saved in order; the result is true iff some record matched |
| TechnologiesStorage.LocalStore.Save | src/utils/technologiesStorage.js:60-66 | the whole list replaces the slot and reads back unchanged |
| TechnologiesStorage.LocalStore.GetStatistics | src/utils/technologiesStorage.js:69-83 | the total is the stored length and the progress is at most 100 |
| TechnologiesStorage.AddThenGetById | src/utils/technologiesStorage.js:18-36 | after an add, looking up its id finds the added record when no older record has that number |
| TechnologiesStorage.DeleteTwice | src/utils/technologiesStorage.js:52-57 | a second delete of the same id finds nothing and changes nothing |
| TechnologiesStorage.OneInProgress | src/utils/technologiesStorage.js:69-83 | one in-progress record gives total 1, in progress 1, progress 0 |
| TechnologiesStorage.AddUpdateScenario | src/utils/technologiesStorage.js:25-47 | add to an empty store, then set the new record in progress: the statistics are exactly (1, 0, 1, 0, 0) |
| TechnologiesStorage.DeleteStep | src/utils/technologiesStorage.js:52-57 | one more numeric delete extends the list of ids deleted so far |
| TechnologiesStorage.DeleteSnapshot | src/utils/technologiesStorage.js:52-57 | deleting every id of a snapshot from it leaves exactly the records whose id has no numeric value, so nothing when every id is a number |
| TechnologiesStorage.DeleteEach | src/pages/Settings.js:9-10 | the `forEach` delete over a snapshot equal to the stored list leaves the snapshot's records whose id has no numeric value |
| Technologies.NumericIsNotStrict | src/utils/technologiesStorage.js:21 | the string id `"5"` matches the number 5 numerically but not strictly |
| Technologies.NumericNotReflexive | src/utils/technologiesStorage.js:54 | an id with no numeric value (NaN) equals nothing numerically, not even itself |
| Technologies.MergeLaws | src/hooks/useTechnologiesApi.js:97 | merging the empty patch is the identity, and merging the same patch twice equals merging it once |
| Technologies.IndexOf | src/pages/DataImportExport.jsx:144 | `indexOf`: -1 iff absent, else the first position holding the value |
| Technologies.CycleStatus | src/pages/DataImportExport.jsx:140-145 | `statuses[(indexOf + 1) % 3]` always yields one of the three known statuses |
| Technologies.CycleSteps | src/pages/DataImportExport.jsx:140-145 | not-started → in-progress → completed → not-started, and an unknown status → not-started |
| Technologies.CycleThree | src/components/TechnologyManager.jsx:71-73 | three steps return every known status to itself |
| Technologies.Percent | src/utils/technologiesStorage.js:81 | 0 for an empty whole; otherwise the half-up rounding of 100·part/whole, at most 100 when part ≤ whole |
| Technologies.PercentEnds | src/utils/technologiesStorage.js:81 | all completed gives 100, none completed gives 0 |
| Technologies.StatusCountsBounded | src/utils/technologiesStorage.js:71-74 | completed + in progress + not started ≤ total, with equality when every status is known |
| Technologies.Stats | src/utils/technologiesStorage.js:69-83 | the total and the three counts are the length and the per-status counts; the progress is 0 for an empty list, else round(100·completed/total) in 0..100 |
| Technologies.TrimEmpty | src/pages/AddTechnology.js:14 | a string trims to empty iff every character is whitespace as `trim` defines it: tab, vertical tab, form feed, every Unicode space separator, U+FEFF and the four line terminators |
| Technologies.TrimStartShape | src/pages/AddTechnology.js:14 | trimming the start leaves a suffix that does not begin with whitespace, and everything dropped is whitespace |
| Technologies.TrimEndShape | src/pages/AddTechnology.js:14 | trimming the end leaves a prefix that does not end with whitespace, and everything dropped is whitespace |
| Technologies.IncludesAt | src/TechnologySearch.jsx:39-41 | `includes` holds iff the substring occurs at some position |
| TechnologiesApi.MockShape | src/hooks/useTechnologiesApi.js:26-51 | the seed is three records with ids 1, 2, 3 and no status |
| TechnologiesApi.NewRecord | src/hooks/useTechnologiesApi.js:67-71 | a caller's id wins over the clock; the creation time is the clock reading; every other field, the status included, is the caller's |
| TechnologiesApi.TechnologiesApi.Fetch | src/hooks/useTechnologiesApi.js:9-63 | a saved list is used as it is; an absent key seeds and persists the mock records; unparseable content sets the error and keeps the previous list; loading ends false in every case |
| TechnologiesApi.TechnologiesApi.Add | src/hooks/useTechnologiesApi.js:66-81 | the list becomes the old list plus the new record, and the slot holds the new list |
| TechnologiesApi.TechnologiesApi.Delete | src/hooks/useTechnologiesApi.js:84-91 | every strictly equal id is dropped, and the slot holds the new list |
| TechnologiesApi.TechnologiesApi.Update | src/hooks/useTechnologiesApi.js:94-103 | the patch is merged into every strictly matching record, and the slot holds the new list |
| TechnologiesApi.DeleteUnknown | src/hooks/useTechnologiesApi.js:84-91 | deleting an id no record carries changes nothing |
| TechnologiesApi.DeleteKeepsOthers | src/hooks/useTechnologiesApi.js:84-91 | no record with the id survives, every other record does, and deletion distributes over concatenation, so order is kept |
| TechnologiesApi.UpdateShape | src/hooks/useTechnologiesApi.js:94-103 | an update keeps the length, merges into the matching records and leaves the others identical |
| TechnologiesApi.DeleteStrictStep | src/RoadmapImporter.jsx:155-163 | one more strict delete extends the list of ids deleted so far |
| TechnologiesApi.DeleteStrictSnapshot | src/RoadmapImporter.jsx:152-163 | deleting every id of a snapshot from it under strict equality leaves nothing |
| UseTechnologies.InitialShape | src/components/useTechnologies.js:5-46 | the seed is five records with ids 1..5, all `not-started`, with empty notes |
| UseTechnologies.UpdateStatus | src/components/useTechnologies.js:52-58 | the length is kept; matching records change only their status; the others are identical |
| UseTechnologies.UpdateNotes | src/components/useTechnologies.js:61-67 | the length is kept; matching records change only their notes; the others are identical |
| UseTechnologies.MarkAllCompleted | src/components/useTechnologies.js:70-72 | every record becomes `completed` and nothing else changes |
| UseTechnologies.ResetAll | src/components/useTechnologies.js:75-77 | every record becomes `not-started` and nothing else changes |
| UseTechnologies.CalculateProgress | src/components/useTechnologies.js:80-84 | 0 for an empty list; otherwise the half-up rounding of 100·completed/length; always at most 100 |
| UseTechnologies.MarkAllCompletedProgress | src/components/useTechnologies.js:70-84 | after marking all completed, the progress of a non-empty list is 100 |
| UseTechnologies.ResetAllProgress | src/components/useTechnologies.js:75-84 | after a reset the progress is 0 |
| UseTechnologies.BulkIdempotent | src/components/useTechnologies.js:70-77 | marking all completed twice equals once; resetting twice equals once |
| DataImportExport.ValidTechnologies | src/pages/DataImportExport.jsx:69-71 | at most as many as the entries; every survivor is an entry with a truthy id, a title and a description, and every such entry survives; empty iff no entry qualifies; a single entry gives itself or nothing |
| DataImportExport.ValidTechnologiesConcat | src/pages/DataImportExport.jsx:69-71 | the filter distributes over concatenation, so survivors keep file order and multiplicity |
| DataImportExport.MergeImport | src/pages/DataImportExport.jsx:78-83 | the stored list is a prefix of the result; the number of records added equals the clock readings used and is at most the number of valid entries |
| DataImportExport.MergeStep | src/pages/DataImportExport.jsx:78-81 | an entry whose id is stored (strictly) leaves list and clock alone; any other is stamped at the clock reading and appended, advancing the clock by one |
| DataImportExport.MergeImportStep | src/pages/DataImportExport.jsx:77-82 | the merge from entry i on is entry i's skip-or-add step followed by the merge of the rest |
| DataImportExport.MergeImportKnown | src/pages/DataImportExport.jsx:78-83 | a file whose ids are all stored already, such as a re-imported export, adds nothing |
| DataImportExport.MergeImportStamps | src/pages/DataImportExport.jsx:78-83 | every appended record carries as its numeric id a clock reading taken during this import, not the id written in the file |
| DataImportExport.ExportData | src/pages/DataImportExport.jsx:23-32 | version 1.0, the clock reading, the list as it is, and stats whose total is the length and whose counts are the completed and in-progress counts |
| DataImportExport.DataImportExport.constructor | src/pages/DataImportExport.jsx:11-19 | the view is the stored list, and the notice reports its size only when it is not empty |
| DataImportExport.DataImportExport.HandleExport | src/pages/DataImportExport.jsx:22-49 | the exported document is built from the view; the view is unchanged and the notice counts it |
| DataImportExport.DataImportExport.HandleImport | src/pages/DataImportExport.jsx:52-104 | no file changes nothing; a read error, unparseable text, a `null` document, a document without an array, or one with no valid entry is refused, each with its own error, and store, view and clock are unchanged; otherwise the store becomes the merge, the view reloads, and the notice counts the valid entries |
| DataImportExport.DataImportExport.MergeLoop | src/pages/DataImportExport.jsx:78-83 | the loop leaves the store and the clock exactly as `MergeImport` says |
| DataImportExport.DataImportExport.MergeOne | src/pages/DataImportExport.jsx:78-81 | the store and the clock take exactly one `MergeStep`; the slot is rewritten iff the entry was added |
| DataImportExport.DataImportExport.ToggleStatus | src/pages/DataImportExport.jsx:139-149 | a record found in the view by strict id has its next cycle status written, through the store's numeric match, to the first numerically matching stored record only, and the view reloads from the store; with no view match nothing changes |
| DataImportExport.DataImportExport.ClearAllData | src/pages/DataImportExport.jsx:126-136 | without confirmation nothing changes; with it the view is emptied and the store keeps only records whose id has no numeric value |
| DataImporter.Validate | src/components/DataImporter.jsx:10-26 | success iff the array exists and every entry has a title, a description and a title of at most 50 characters, and then the array is returned unmodified; unparseable text, a `null` document (reading its `technologies` throws) and a document without an array each have their own error; otherwise the error is `EntryError` of the first bad entry with its 1-based number |
| DataImporter.EntryError | src/components/DataImporter.jsx:15-23 | a `null` entry throws reading its field (not-an-object, iff); an object lacking a title or description gives missing-field with the entry's number, iff; an entry with both fields gives title-too-long carrying its own title, iff |
| DataImporter.ValidateConcat | src/components/DataImporter.jsx:15-23 | a concatenation is accepted iff both parts are |
| DataImporter.HandleFile | src/components/DataImporter.jsx:29-67 | no file changes nothing; a file that neither has the JSON type nor a `.json` name is refused unread; the array is handed on iff the file is read and valid, and then the success count is its length; otherwise an error is shown and no success |
| DataImporter.AcceptsFile | src/components/DataImporter.jsx:61 | a file is read iff its type is `application/json` or its name ends in `.json` |
| DataImporter.JsonNameAccepted | src/components/DataImporter.jsx:61 | any name ending in `.json` is accepted whatever the file type |
| TechnologyManager.NewTechnology | src/components/TechnologyManager.jsx:25-32 | the new record has status `not-started`, empty notes, progress 0 and the creation time, overriding the form; the form's id, if any, wins over the fresh one |
| TechnologyManager.EditTarget | src/components/TechnologyManager.jsx:14-19 | the length is kept; records with the target's id take the merged fields and a new `updatedAt`; every other record is identical |
| TechnologyManager.SaveTechnology | src/components/TechnologyManager.jsx:11-38 | with a target, the edit branch is applied and the message is "updated"; without one, exactly one new record is appended and the message is "added"; the form closes and the target clears either way |
| TechnologyManager.Edit | src/components/TechnologyManager.jsx:46-49 | the form opens on that record and the list is unchanged |
| TechnologyManager.Cancel | src/components/TechnologyManager.jsx:61-64 | the form closes, the target clears, the list is unchanged |
| TechnologyManager.Delete | src/components/TechnologyManager.jsx:52-58 | an unconfirmed delete changes nothing; a confirmed one drops every record with the id |
| TechnologyManager.StatusChange | src/components/TechnologyManager.jsx:67-79 | the records with the id step to their next cycle status and every other record is identical |
| TechnologyManager.StatusChangeThrice | src/components/TechnologyManager.jsx:67-79 | when every status is known, three status changes give back the same state |
| TechnologyManager.AddThenDelete | src/components/TechnologyManager.jsx:25-58 | deleting the fresh id right after adding restores the list when no record had that id |
| TechnologyManager.OpenForm | src/components/TechnologyManager.jsx:99-100 | the header's button shows the form and leaves the target as it is |
| TechnologyManager.TargetInvariant | src/components/TechnologyManager.jsx:6-64 | "hidden form ⇒ no target" holds initially and after every handler, so the header's button always opens the form for adding |
| TechnologyManager.StatusLabel | src/components/TechnologyManager.jsx:82-89 | each known status has its own label; any other status not inherited from `Object.prototype` is shown as itself, and only then |
| MuiApp.ThemeValue | src/pages/MuiApp.jsx:58-60 | `dark` iff dark mode, `light` iff not |
| MuiApp.Mount | src/pages/MuiApp.jsx:41-65 | dark mode is on iff the key holds `dark`; the effect writes the mode back; the list is the stored one; the dialog is closed and nothing is being edited |
| MuiApp.ToggleTheme | src/pages/MuiApp.jsx:71-77 | the mode flips, the key follows it, and an info notice opens; the list and the dialog are unchanged |
| MuiApp.ToggleThenReload | src/pages/MuiApp.jsx:41-60 | mounting again after a toggle restores the toggled mode |
| MuiApp.NewTechnology | src/pages/MuiApp.jsx:79-85 | the status is `not-started` even when the form carried one; the form's id wins over the clock reading |
| MuiApp.SaveTechnology | src/pages/MuiApp.jsx:79-105 | with a target, the records with its id are merged, length is kept and the target clears; without one, one record is appended; the dialog closes and a success notice opens |
| MuiApp.AddFromDialog | src/pages/MuiApp.jsx:98-103 | a record added from the dialog's form carries the form's fields, status `not-started` and the clock reading |
| MuiApp.Edit | src/pages/MuiApp.jsx:107-110 | the dialog opens on that record |
| MuiApp.OpenAdd | src/pages/MuiApp.jsx:177-180 | the header's add button opens the dialog with no target |
| MuiApp.OpenFromEmptyList | src/pages/MuiApp.jsx:235 | the empty list's add button opens the dialog and leaves the target alone |
| MuiApp.CloseModal | src/pages/MuiApp.jsx:299-302 | the dialog closes and the target clears |
| MuiApp.TargetInvariant | src/pages/MuiApp.jsx:79-110 | "closed dialog ⇒ no target" holds at mount and after every dialog handler, so the empty list's button behaves like the header's |
| MuiApp.OtherHandlersKeepTarget | src/pages/MuiApp.jsx:71-147 | the theme, delete, status and notification handlers keep "closed dialog ⇒ no target" |
| MuiApp.Delete | src/pages/MuiApp.jsx:112-116 | every record with the id is dropped; the warning names the first such record's title, or `undefined` |
| MuiApp.StatusText | src/pages/MuiApp.jsx:123-129 | the completed, started and paused texts, each iff its status; `undefined` iff the status is unknown |
| MuiApp.StatusChange | src/pages/MuiApp.jsx:118-132 | matching records take exactly the new status and the others are identical; the message is `Технология ` followed by `StatusText` of the new status; the severity is `success` iff the status is `completed`, else `info` |
| MuiApp.CloseNotification | src/pages/MuiApp.jsx:142-147 | the notification hides and keeps its text and severity |
| MuiDashboard.CreatedKey | src/components/MuiDashboard.jsx:55 | the sort key is the creation time, and a record without one sorts as time 0 |
| MuiDashboard.Swap | src/components/MuiDashboard.jsx:58-59 | exchanges two neighbours and keeps the multiset |
| MuiDashboard.InsertAt | src/components/MuiDashboard.jsx:58-59 | one insertion pass extends the newest-first prefix by one and keeps the multiset |
| MuiDashboard.SortNewestFirst | src/components/MuiDashboard.jsx:58-59 | in place, the array ends ordered by creation time descending (missing as 0) and is a permutation of itself |
| MuiDashboard.ActiveTechnologies | src/components/MuiDashboard.jsx:53-55 | exactly the in-progress records, as a multiset, newest first |
| MuiDashboard.RecentTechnologies | src/components/MuiDashboard.jsx:58-60 | the caller's array ends sorted newest first as a permutation of itself, and the result is its first min(5, n) records |
| MuiDashboard.RecentAreNewest | src/components/MuiDashboard.jsx:58-60 | a prefix of a newest-first list is newest first and no later record is newer |
| MuiDashboard.Summarise | src/components/MuiDashboard.jsx:43-50 | the stats object is the lengths and counts of the list; the shares are 0 for an empty list and at most 100; remaining equals the number of records not completed |
| MuiDashboard.Render | src/components/MuiDashboard.jsx:43-60 | the statistics and active list are computed from the list as passed; then the caller's array is sorted in place and the recent list is its first five |
| ProgressHeader.ProgressClass | src/components/ProgressHeader.jsx:10-15 | high iff ≥ 70, medium iff 30 ≤ p < 70, low iff < 30 |
| ProgressHeader.Summarise | src/components/ProgressHeader.jsx:4-15 | each count and their sum are at most the total; the percentage is 0 (class low) for an empty list, else the rounding of 100·completed/total, in 0..100; the class is high iff the percentage is at least 70 |
| ProgressHeader.AllCompletedIsHigh | src/components/ProgressHeader.jsx:4-15 | a fully completed non-empty list shows 100 in the high class |
| TechnologyCard.NextOnClick | src/components/TechnologyCard.js:4-14 | in progress iff not started, completed iff in progress, not started iff anything else, completed included |
| TechnologyCard.NextOnClickIsCycle | src/components/TechnologyCard.js:4-14 | the click's if-chain is the shared status cycle |
| TechnologyCard.ThreeClicks | src/components/TechnologyCard.js:4-14 | a click always gives a known status, and three clicks return a known status to itself |
| TechnologyCard.Indicator | src/components/TechnologyCard.js:19-25 | "✅ Completed" iff completed, "⏳ In Progress" iff in progress, "❌ Not Started" iff anything else |
| TechnologyCard.ReplaceSpaces | src/components/TechnologyCard.js:17 | same length; every space becomes `-` and every other character is kept |
| TechnologyCard.CardClass | src/components/TechnologyCard.js:17 | the class starts with `technology-card status-`, has the status's length after it, and no spaces there |
| MuiTechnologyCard.StatusColor | src/components/MuiTechnologyCard.jsx:49-55 | success iff completed, warning iff in progress, default iff anything else (the simple card, src/components/SimpleTechCard.jsx:14-20, uses the same switch) |
| MuiTechnologyCard.StatusText | src/components/MuiTechnologyCard.jsx:57-63 | the completed text iff completed, the in-progress text iff in progress, and the not-started text for every other value (the simple card, src/components/SimpleTechCard.jsx:22-28, uses the same switch) |
| MuiTechnologyCard.CategoryLabel | src/components/MuiTechnologyCard.jsx:65-77 | the table's label for a known category, the raw category for any other name not inherited from `Object.prototype` |
| MuiTechnologyCard.StartPauseTarget | src/components/MuiTechnologyCard.jsx:146-149 | not-started iff in progress; in progress iff anything else, completed included |
| MuiTechnologyCard.StartPauseLabel | src/components/MuiTechnologyCard.jsx:151 | pause iff in progress, start otherwise |
| MuiTechnologyCard.StartPauseToggles | src/components/MuiTechnologyCard.jsx:146-151 | pressing start/pause twice returns not-started or in-progress to itself |
| MuiTechnologyCard.CompleteAction | src/components/MuiTechnologyCard.jsx:154-162 | offered iff the status is not completed, and it sets completed |
| MuiTechnologyCard.DifficultyLabel | src/components/MuiTechnologyCard.jsx:128-136 | hidden iff the difficulty is empty; beginner and intermediate have their labels, each iff; every other non-empty difficulty is shown as advanced, and only then |
| MuiTechnologyCard.HandleEdit | src/components/MuiTechnologyCard.jsx:37-40 | the record is handed to edit, nothing is deleted, the menu closes |
| MuiTechnologyCard.HandleDelete | src/components/MuiTechnologyCard.jsx:42-47 | the id is handed to delete iff confirmed; the menu closes either way |
| SimpleTechCard.CategoryColor | src/components/SimpleTechCard.jsx:30-42 | the table's colour for a known category, `default` for any other name not inherited from `Object.prototype` |
| SimpleTechCard.CategoryColorInPalette | src/components/SimpleTechCard.jsx:30-42 | every category name not inherited from `Object.prototype` gets one of the seven theme colours |
| SimpleTechCard.Buttons | src/components/SimpleTechCard.jsx:80-98 | the complete button is hidden iff completed; start/pause maps in progress to not-started and anything else to in progress |
| MuiTechnologyModal.OnOpen | src/components/MuiTechnologyModal.jsx:34-53 | opening on a record copies its fields with `frontend`/`beginner` defaults; opening without one resets the form; errors clear either way |
| MuiTechnologyModal.TitleError | src/components/MuiTechnologyModal.jsx:58-64 | no error iff 2 ≤ trimmed length ≤ 50; required iff it trims to empty, too short iff the trimmed length is 1, too long iff it is over 50 |
| MuiTechnologyModal.DescriptionError | src/components/MuiTechnologyModal.jsx:66-70 | no error iff the trimmed length is at least 10; required iff it trims to empty, too short otherwise |
| MuiTechnologyModal.DeadlineError | src/components/MuiTechnologyModal.jsx:72-79 | an error iff a deadline is set and is before today |
| MuiTechnologyModal.ValidateForm | src/components/MuiTechnologyModal.jsx:55-82 | the map has a title, description or deadline entry exactly under the conditions above, holding that field's message, and never one for category or difficulty |
| MuiTechnologyModal.HandleChange | src/components/MuiTechnologyModal.jsx:84-98 | the field takes the value; only that field's error is removed and every other error is kept |
| MuiTechnologyModal.HandleSave | src/components/MuiTechnologyModal.jsx:100-110 | the untrimmed form is saved and the dialog closed iff validation finds nothing; otherwise the errors are shown and nothing is saved |
| MuiTechnologyModal.SavedFormIsValid | src/components/MuiTechnologyModal.jsx:100-110 | a saved form has a trimmed title of 2..50 characters, a trimmed description of at least 10, and no past deadline |
| MuiTechnologyModal.BlankFormRefused | src/components/MuiTechnologyModal.jsx:58-70 | a form whose title and description are blank gets both required messages |
| MuiTechnologyModal.EmptyFormIsBlank | src/components/MuiTechnologyModal.jsx:44-50 | the reset form's title and description are blank, so saving it straight away is refused |
| MuiTechnologyModal.FormPatch | src/components/MuiTechnologyModal.jsx:108 | merging the saved form into a record sets exactly its five fields |
| WorkingAccessibleForm.LiveErrors | src/pages/WorkingAccessibleForm.jsx:15-31 | name iff non-empty and shorter than 2; email iff non-empty without `@`; message iff non-empty and shorter than 5 |
| WorkingAccessibleForm.EmptyFieldsQuiet | src/pages/WorkingAccessibleForm.jsx:18-28 | empty fields produce no live error |
| WorkingAccessibleForm.Change | src/pages/WorkingAccessibleForm.jsx:15-31 | the edited field takes the value, the others are kept, and the errors are recomputed from all three |
| WorkingAccessibleForm.MissingErrors | src/pages/WorkingAccessibleForm.jsx:36-40 | an entry exactly for each empty field |
| WorkingAccessibleForm.Submit | src/pages/WorkingAccessibleForm.jsx:33-69 | sent iff all fields are filled and no live error is pending; an empty field gives the fill-in status with errors for exactly the empty fields; pending live errors give the fix-errors status |
| WorkingAccessibleForm.SubmitAfterChange | src/pages/WorkingAccessibleForm.jsx:33-69 | after any edit, submitting succeeds iff every field is filled and passes its live rule |
| TechnologySearch.MatchOutcome | src/TechnologySearch.jsx:36-43 | the callback throws iff the record has no category and matches neither by title nor by description; it returns true iff title, description or a present category contains the folded query |
| TechnologySearch.MatchesQuery | src/TechnologySearch.jsx:36-43 | the filter keeps a record iff its folded title, description or present category contains the folded query |
| TechnologySearch.Search | src/TechnologySearch.jsx:25-51 | a search that throws had a non-blank query; a finished search shows its list iff the query is not blank once trimmed; a hidden list is empty |
| TechnologySearch.SearchExact | src/TechnologySearch.jsx:25-51 | the search throws iff the query has a character that is not whitespace and some record without a category matches neither by title nor by description; otherwise the list is shown iff the query has such a character; shown records are input records that match; for a shown list every matching input record is in it; a hidden list is empty |
| TechnologySearch.SearchKeepsOrder | src/TechnologySearch.jsx:36-43 | searching a concatenation throws iff searching either part does, and otherwise concatenates the results, so the input order is kept |
| TechnologySearch.Step | src/TechnologySearch.jsx:58-91 | a keystroke replaces the pending value; the timer starts the pending search and clears the slot; teardown clears the slot; an unmounted box ignores everything |
| TechnologySearch.LatestWins | src/TechnologySearch.jsx:58-71 | a burst of keystrokes followed by the timer starts exactly one search, for the last value |
| TechnologySearch.TeardownSilences | src/TechnologySearch.jsx:83-91 | after teardown nothing is pending and no later event starts a search |
| TechnologySearch.SearchBox.HandleSearchChange | src/TechnologySearch.jsx:58-71 | the term follows the input and the slot takes one keystroke step |
| TechnologySearch.SearchBox.FireTimer | src/TechnologySearch.jsx:68-70 | the slot takes one timer step; when something was pending, the results are the search for that value, or the previous results when that search threw; otherwise nothing changes |
| TechnologySearch.SearchBox.Show | src/TechnologySearch.jsx:25-54 | the search for the captured value replaces what is on screen, unless the filter threw and the `catch` leaves the screen as it was; the slot and the term are unchanged |
| TechnologySearch.SearchBox.Teardown | src/TechnologySearch.jsx:83-91 | the slot takes the teardown step and the results are kept |
| TechnologySearch.SearchBox.HandleSelect | src/TechnologySearch.jsx:74-80 | the term clears, the list hides, and exactly that record is forwarded |
| Dashboard.Reverse | src/pages/Dashboard.js:43 | same length, element i is element n-1-i |
| Dashboard.ReverseReverse | src/pages/Dashboard.js:43 | reversing twice gives back the list |
| Dashboard.LastFive | src/pages/Dashboard.js:43 | the last min(5, n) records, in order |
| Dashboard.Render | src/pages/Dashboard.js:12-52 | the total is the length and the completed count is the number of completed records; the empty message shows iff the list is empty; otherwise min(5, n) items, the newest first |
| RoadmapImporter.RoadmapShape | src/RoadmapImporter.jsx:11-111 | exactly the keys frontend, backend and fullstack, each with four entries that have neither id nor status |
| RoadmapImporter.Added | src/RoadmapImporter.jsx:121-131 | one hook record per roadmap entry |
| RoadmapImporter.AddedAt | src/RoadmapImporter.jsx:121-131 | one hook record per entry, in listed order, record i being entry i added at the i-th successive clock reading |
| RoadmapImporter.ImportedShape | src/RoadmapImporter.jsx:113-131 | an imported roadmap adds four records titled as listed, with distinct increasing clock ids and no status |
| RoadmapImporter.Importer.ImportRoadmap | src/RoadmapImporter.jsx:113-146 | a known key appends its entries in order and reports their number and the roadmap's name; an unknown key fails and adds nothing; `importing` ends false either way |
| RoadmapImporter.Importer.AddEach | src/RoadmapImporter.jsx:121-131 | the loop adds every entry and its count equals the number of entries |
| RoadmapImporter.Importer.DeleteAll | src/RoadmapImporter.jsx:148-178 | without confirmation nothing changes; with it every snapshot id is deleted, the hook ends empty, the count is the snapshot's length, and `importing` ends false |
| AddTechnology.Submitted | src/pages/AddTechnology.js:19-24 | the title (untrimmed), description and notes as typed, status `not-started`, no id |
| AddTechnology.StoredRecord | src/pages/AddTechnology.js:19-26 | the stored record keeps the form's fields, even an empty description, and takes its id and creation time from the store |
| AddTechnology.HandleSubmit | src/pages/AddTechnology.js:11-28 | a title of whitespace only raises the alert and stores nothing; any other title appends exactly one record and navigates to the list |
| Settings.HandleReset | src/pages/Settings.js:7-13 | without confirmation the store is untouched; with it the store keeps only the records whose id has no numeric value, so it ends empty when every id is numeric; it navigates home iff confirmed |
| Settings.ExportData | src/pages/Settings.js:15-29 | no download iff the store is empty; otherwise `technologies.json` holds exactly the list as read |

## Left out

- Network fetching, the abort controller of the search box, the demo pages, the examples file and the DOM query checks are not part of this model. They are asynchronous browser I/O or never reach the modelled state.
- JSON text, `JSON.parse` and `JSON.stringify`, blobs, object URLs, downloads and the `FileReader` are modelled by their outcomes: a parsed list, a document without an array, unparseable text, or a read error. Primitive non-null entries of an imported array are read as records with no fields.
- `localStorage.setItem` failures (the caught quota error) are not modelled: a save always succeeds. So the count loops in the roadmap importer never skip an entry.
- Timers are not modelled as time: the pauses between roadmap additions, the auto-clearing of messages, the two-second form reset, and the search's 300 ms wait before filtering. `SearchBox.FireTimer` runs the search, wait included, as one step, so a keystroke or a selection that arrives during the wait is not modelled. The search debounce is explicit `Input`/`Fire`/`Teardown` events. The search box's `loading` flag is not modelled.
- The clock is a counter that advances on every reading. The real `Date.now()` can repeat within a millisecond, so two quick additions could share an id.
- `Date.now() + Math.random()` in the manager page is a fresh-id parameter.
- TechnologyManager's form component is not part of this model: its submission is a `Patch`.
- Dates are integers: creation and update times, and the deadline compared with today as day numbers.
- `Math.round(c / t * 100)` is computed in floating point, where `c / t * 100` can land just below a half: 23 of 40 gives 57.49999999999999 and 29 of 200 gives 14.499999999999998. At such counts the model's exact round-half-up percentage is one higher than the app's (58 against 57, 15 against 14). `Number(id)` is decimal digit strings, with the empty string as 0; whitespace, signs, decimals and hexadecimal are not modelled.
- UTF-16 code units are modelled as characters, so `length` counts code points. `toLowerCase` is an uninterpreted function.
- Concurrency between separate hook instances is not modelled (the roadmap importer and the demo page each own a copy of the list). Button disabling while `importing` is not modelled either; calls run to completion one at a time.
- `addSampleTechnology` on the import/export page is not modelled: it is a demonstration helper that formats a number into a title. That page's `getStatusLabel` is the same table as `TechnologyManager.StatusLabel`.
- TechnologySearch.Search: a record without a title or description reads them as empty strings, where the source would throw as it does for a missing category; only the category is modelled as optional.
- TechnologyManager.StatusLabel: an object-literal lookup also finds names inherited from `Object.prototype` (`constructor`, `toString`, `valueOf`, `hasOwnProperty`, `__proto__` and the like), which yield a function or an object instead of the status; the model shows such a status as itself.
- MuiTechnologyCard.CategoryLabel: the same inherited names yield a function or an object in the source; the model shows the raw category.
- SimpleTechCard.CategoryColor: the same inherited names yield a function or an object in the source; the model gives `default`.
- SimpleTechCard.CategoryColorInPalette: holds for the model's lookup; in the source an inherited name does not give a palette colour.
- MuiApp.StatusChange: the notification's `statusTexts[newStatus]` has the same gap: for an inherited name the source interpolates the function's source text, where the model's `StatusText` gives `undefined` as for any other unknown status.
- MuiDashboard.SortNewestFirst: the contract states sorted and a permutation but not stability (the order of records with equal creation times).
- MuiDashboard.ActiveTechnologies: inherits the same gap: the order of in-progress records with equal creation times is not stated.
- MuiDashboard.RecentTechnologies: inherits the same gap: which of several records with equal creation times reach the first five is not stated.
- MuiDashboard.Render: inherits the same gap through the recent list.
- MuiTechnologyModal.DeadlineError: the source compares `new Date(deadline)`, which parses a date-only string as UTC midnight, with local midnight today. West of UTC it therefore also refuses today's date, where the model's day comparison accepts it; the model matches the source only at UTC offsets of zero or more.
- Rendering, styling, routing, drag-over highlighting, focus management and notification placement are not modelled.
