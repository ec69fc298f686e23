# LojaSC booking front-end — verified model of its state logic

LojaSC is a React front-end for three kinds of service business: a barbershop (`barbearia`), a car wash (`lavagem`) and a car-detailing shop (`estetica`). This project models the parts of it that hold real state logic, and proves properties about them:

- **Vehicle checklist** (`Checklist`, `checklist.dfy`). This is the inspection form staff fill in before washing or detailing a car.
  - Six predefined inspection items, plus custom items the user adds.
  - Each item has a "checked" and a "damage" flag and free-text notes.
  - Photos with captions, the vehicle and client fields, and general notes.
  - A summary: items checked, damage found, and a completion percentage.
- **Employee management** (`Roster`, `employees.dfy`). This is the admin's roster.
  - It starts with four sample employees.
  - A modal edits a draft, and saving either replaces the edited record or appends a new one with a generated code.
  - Employees can be deleted or switched between active and inactive.
  - The table can be filtered by kind of business.
- **Business settings** (`Settings`, `business.dfy`). This holds contact data and weekly opening hours for each of the three businesses.
  - Each business has seven weekday entries, closed on Sunday.
  - The page edits the business whose tab is selected.
- **Expense form** (`Expenses`, `expenses.dfy`). Employees log expenses here.
  - The newest expense goes first.
  - The form resets after each submission.
  - Dates are shown as `DD/MM/YYYY` by reordering the pieces of `YYYY-MM-DD`.
- **Phone formatting** (`Formatters`, `phone.dfy`). `formatPhoneNumber` lays out ten- or eleven-digit Brazilian numbers.

Each component is a Dafny `class`. Its fields are the component's `useState` variables, and each event handler is a method that `modifies this`. A method's `ensures` gives its whole new state in terms of a pure function of the old state. The properties are proved as lemmas about those functions, and as the class invariant `Valid()`. Shared pieces live in their own modules:

- `Common`: `Option`, the three kinds of business, and files.
- `Sequences`: order-preserving `filter` and its specification.
- `Text`: JavaScript string operations the pages use. These are `replace(/\D/g, '')`, `trim`, `split` on one character, `substring`, `toUpperCase`, `padStart` and number-to-text.

The clock, `Date.now()` identifiers and `URL.createObjectURL` are parameters of the methods that use them.

Two behaviours of the code are worth knowing:

- `getCompletionPercentage` divides by the item count without a zero guard (`src/components/checklist/VehicleChecklist.tsx:162`). The six predefined items can never be removed, so `Valid()` keeps the count at six or more and the division is always defined.
- The generated employee code pads the whole string, initials included, to four characters. So the fifth employee "Pedro" gets `0PE5`, not a three-digit number like the seeded `CS001`. The model computes the code as written (`Roster.EmployeeCodeExample`).

## Model

| member | source | states |
|---|---|---|
| Formatters.FormatPhoneNumber | src/utils/formatters.ts:57-71 | Only the digits are kept. With 11 digits the result is `(DD) DDDDD-DDDD`, and with 10 it is `(DD) DDDD-DDDD`, character by character. Any other digit count returns the input unchanged. |
| Formatters.FormatKeepsDigits | src/utils/formatters.ts:60-70 | Formatting never adds, drops or reorders a digit. The result's digits are the input's digits. |
| Formatters.FormatIdempotent | src/utils/formatters.ts:57-71 | Formatting an already formatted number returns it unchanged. |
| Formatters.FormatIgnoresPunctuation | src/utils/formatters.ts:60-66 | Two 10- or 11-digit inputs with the same digits format identically, whatever their punctuation. |
| Text.Digits | src/utils/formatters.ts:60 | `replace(/\D/g, '')` leaves only decimal digits and never lengthens the text. |
| Sequences.Filter | src/pages/admin/EmployeeManagement.tsx:109 | `filter` never lengthens a list, and everything it returns satisfies the predicate. |
| Sequences.FilterSpec | src/pages/admin/EmployeeManagement.tsx:109 | `filter` keeps each element that satisfies the predicate as often as it occurs, drops the others entirely, and keeps the order. |
| Sequences.FilterKeepsAll | src/pages/admin/EmployeeManagement.tsx:120-122 | A filter returns the whole list exactly when every element satisfies the predicate. |
| Sequences.FilterKeepsNone | src/components/checklist/VehicleChecklist.tsx:157-160 | A filter returns nothing exactly when no element satisfies the predicate. |
| Sequences.FilterConcat | src/components/checklist/VehicleChecklist.tsx:157-160 | Filtering a concatenation is the concatenation of the filtered parts. |
| Sequences.FilterIdempotent | src/components/checklist/VehicleChecklist.tsx:104 | Filtering twice with the same predicate is filtering once. |
| Text.Trim | src/components/checklist/VehicleChecklist.tsx:88-93 | `trim()` is empty exactly when the text is all whitespace. Otherwise it is a contiguous slice of the text that neither starts nor ends with whitespace. |
| Text.Split | src/pages/dashboard/employee/ExpenseForm.tsx:71 | `split('-')` yields at least one piece and no piece contains the separator. Joining the pieces back gives the text. |
| Text.JoinSeparators | src/pages/dashboard/employee/ExpenseForm.tsx:71 | Joining starts with the first piece and, for pieces free of the separator, puts exactly one separator between consecutive pieces. |
| Text.SplitJoin | src/pages/dashboard/employee/ExpenseForm.tsx:71 | Splitting undoes joining for pieces free of the separator. |
| Text.SplitCount | src/pages/dashboard/employee/ExpenseForm.tsx:71 | Splitting yields one more piece than the text has separators. |
| Text.NatToString | src/pages/admin/EmployeeManagement.tsx:98 | `${n}` is a non-empty string of decimal digits with no leading zero. |
| Text.ParseNatToString | src/pages/admin/EmployeeManagement.tsx:98 | The decimal text of a number reads back as that number. |
| Text.ToUpperAscii | src/pages/admin/EmployeeManagement.tsx:98 | `toUpperCase()` keeps the length, turns each lower-case ASCII letter into its capital and keeps every other character. |
| Text.PadStart | src/pages/admin/EmployeeManagement.tsx:98 | `padStart(w, '0')` keeps the text as a suffix and fills up to width `w` with '0'. |
| Expenses.FormatDateReorders | src/pages/dashboard/employee/ExpenseForm.tsx:70-73 | `YYYY-MM-DD` is shown as `DD/MM/YYYY` for any pieces free of '-'. |
| Expenses.FormatDateRoundTrip | src/pages/dashboard/employee/ExpenseForm.tsx:70-73 | On a date with exactly two '-' and no '/', splitting the display on '/' gives the date's pieces in reverse order. The display is as long as the date. |
| Expenses.FormatDateWithoutDashes | src/pages/dashboard/employee/ExpenseForm.tsx:70-73 | A date without '-' is shown as `undefined/undefined/<date>`. |
| Expenses.DatePart | src/pages/dashboard/employee/ExpenseForm.tsx:24 | `toISOString().split('T')[0]` is the text before the first 'T': a prefix of the timestamp with no 'T', followed in the timestamp by a 'T' unless it is the whole timestamp. |
| Expenses.FormatDate | src/pages/dashboard/employee/ExpenseForm.tsx:70-73 | `formatDate` of a text without '/' shows exactly two '/' separators, whatever the number of '-' pieces. |
| Expenses.ExpenseForm.constructor | src/pages/dashboard/employee/ExpenseForm.tsx:22-40 | The fields start empty, the date is today's, and the list holds the two sample expenses. |
| Expenses.ExpenseForm.SetExpenseName | src/pages/dashboard/employee/ExpenseForm.tsx:99 | The name input sets the name and nothing else. |
| Expenses.ExpenseForm.SetExpenseAmount | src/pages/dashboard/employee/ExpenseForm.tsx:112 | The amount input sets the amount text and nothing else. |
| Expenses.ExpenseForm.SetExpenseDate | src/pages/dashboard/employee/ExpenseForm.tsx:123 | The date input sets the date and nothing else. |
| Expenses.ExpenseForm.HandleFileChange | src/pages/dashboard/employee/ExpenseForm.tsx:42-46 | The first chosen file becomes the receipt. An empty choice changes nothing. |
| Expenses.ExpenseForm.HandleSubmit | src/pages/dashboard/employee/ExpenseForm.tsx:48-68 | The entered expense goes in front of the unchanged list. The name, amount and receipt are cleared, and the date resets to today. |
| Checklist.SeedItemsFresh | src/components/checklist/VehicleChecklist.tsx:41-48 | The six predefined items have pairwise distinct ids, and none of them starts checked or damaged. |
| Checklist.Flip | src/components/checklist/VehicleChecklist.tsx:61 | Toggling negates the named flag and keeps id, label, notes and the other flag. |
| Checklist.Toggle | src/components/checklist/VehicleChecklist.tsx:57-70 | A toggle changes the predefined list when it holds the id and the custom list otherwise, and keeps both lengths. |
| Checklist.SetNotes | src/components/checklist/VehicleChecklist.tsx:72-85 | A notes change picks the list as a toggle does and keeps both lengths. |
| Checklist.EditsKeepIds | src/components/checklist/VehicleChecklist.tsx:57-85 | Toggling a flag and editing notes leave the list of item ids unchanged, position by position. |
| Checklist.AddCustom | src/components/checklist/VehicleChecklist.tsx:87-101 | Adding either leaves the custom list as it is or appends one item with the new id after the unchanged items. |
| Checklist.RemoveCustom | src/components/checklist/VehicleChecklist.tsx:103-105 | Removing keeps the predefined list, never lengthens the custom list, and leaves no custom item with the id. |
| Checklist.ToggleFrame | src/components/checklist/VehicleChecklist.tsx:57-70 | A toggle flips the flag on exactly the items with that id, in the predefined list if the id is there and in the custom list otherwise. Item order, lengths and every other item stay. |
| Checklist.ToggleUnknownId | src/components/checklist/VehicleChecklist.tsx:57-70 | Toggling an id that is in neither list changes nothing. |
| Checklist.ToggleInKeepsIds | src/components/checklist/VehicleChecklist.tsx:58-63 | Toggling never changes which ids a list holds. |
| Checklist.ToggleTwice | src/components/checklist/VehicleChecklist.tsx:57-70 | Toggling the same flag of the same id twice restores both lists. |
| Checklist.ToggleParity | src/components/checklist/VehicleChecklist.tsx:57-70 | After `n` toggles the lists are as after `n mod 2`. |
| Checklist.SetNotesFrame | src/components/checklist/VehicleChecklist.tsx:72-85 | Notes replace the notes of exactly the items with that id, in the list that holds it. Nothing else changes. |
| Checklist.SetNotesUnknownId | src/components/checklist/VehicleChecklist.tsx:72-85 | Notes for an id that is in neither list change nothing. |
| Checklist.AddCustomSpec | src/components/checklist/VehicleChecklist.tsx:87-101 | Blank text adds nothing. Other text appends exactly one unchecked, undamaged, note-less item labelled with the trimmed text, after the existing items. |
| Checklist.RemoveCustomSpec | src/components/checklist/VehicleChecklist.tsx:103-105 | Removing drops every custom item with the id and keeps the others in order, each as many times as before. The predefined items are untouched. |
| Checklist.RemoveThenToggle | src/components/checklist/VehicleChecklist.tsx:57-105 | A removed custom item's id toggles nothing afterwards. |
| Checklist.ToggleKeepsUniqueIds | src/components/checklist/VehicleChecklist.tsx:57-85 | When no two items share an id, none do after a toggle or a notes change. |
| Checklist.AddCustomKeepsUniqueIds | src/components/checklist/VehicleChecklist.tsx:87-101 | When no two items share an id and the new id is unused, no two items share an id after adding. |
| Checklist.FilterKeepsUniqueIds | src/components/checklist/VehicleChecklist.tsx:104 | Filtering a list of items with distinct ids leaves their ids distinct. |
| Checklist.RemoveCustomKeepsUniqueIds | src/components/checklist/VehicleChecklist.tsx:103-105 | When no two items share an id, none do after removing custom items. |
| Checklist.CountsOfAll | src/components/checklist/VehicleChecklist.tsx:156-160 | The checked and damaged counts over both lists are the sums of the counts of each list, and never exceed the item count. |
| Checklist.RoundedPercent | src/components/checklist/VehicleChecklist.tsx:162 | `Math.round(part / whole * 100)` is the integer nearest to the exact percentage, with halves rounded up. |
| Checklist.RoundedPercentBounds | src/components/checklist/VehicleChecklist.tsx:155-163 | The percentage of at most the whole lies in 0..100. It is 0 for no part and 100 for the whole. |
| Checklist.CountCheckedExtremes | src/components/checklist/VehicleChecklist.tsx:157-160 | With nothing checked the count is 0, and with everything checked it is the number of items. |
| Checklist.CaptionIn | src/components/checklist/VehicleChecklist.tsx:126-132 | A caption change keeps the number of photos and each photo's id and URL. |
| Checklist.WithoutImage | src/components/checklist/VehicleChecklist.tsx:134-136 | Removing a photo never lengthens the list and leaves no photo with that id. |
| Checklist.WithInfo | src/components/checklist/VehicleChecklist.tsx:138-140 | A vehicle-field change keeps every field other than the one named. |
| Checklist.CaptionFrame | src/components/checklist/VehicleChecklist.tsx:126-132 | A caption change sets the caption of exactly the photos with that id. Ids, URLs and the other captions stay. |
| Checklist.WithoutImageSpec | src/components/checklist/VehicleChecklist.tsx:134-136 | Removing a photo drops every photo with that id and keeps the others in order, each as many times as before. |
| Checklist.WithInfoFrame | src/components/checklist/VehicleChecklist.tsx:138-140 | A vehicle-field change sets that field and keeps the other three. |
| Checklist.VehicleChecklist.constructor | src/components/checklist/VehicleChecklist.tsx:33-54 | The vehicle fields come from the optional prop, or are empty without it. The six seeded items follow, and everything else starts empty. The ids are distinct, and the summary starts at 0 checked, 0 damaged and 0%. |
| Checklist.VehicleChecklist.ToggleItem | src/components/checklist/VehicleChecklist.tsx:57-70 | The lists become `Toggle` of the old lists, the other fields stay, the six predefined items remain, and distinct ids stay distinct. |
| Checklist.VehicleChecklist.SetItemNotes | src/components/checklist/VehicleChecklist.tsx:72-85 | The lists become `SetNotes` of the old lists, the other fields stay, and distinct ids stay distinct. |
| Checklist.VehicleChecklist.SetNewItemText | src/components/checklist/VehicleChecklist.tsx:373 | The new-item field is set, and nothing else changes. |
| Checklist.VehicleChecklist.AddCustomItem | src/components/checklist/VehicleChecklist.tsx:87-101 | The custom list becomes `AddCustom` of the old list and the text. The field is cleared only when something was added. With a new id no item has, distinct ids stay distinct. |
| Checklist.VehicleChecklist.RemoveCustomItem | src/components/checklist/VehicleChecklist.tsx:103-105 | The lists become `RemoveCustom` of the old lists, and distinct ids stay distinct. |
| Checklist.VehicleChecklist.UploadImage | src/components/checklist/VehicleChecklist.tsx:107-124 | With a file chosen, one photo of the first file is appended with an empty caption. Otherwise nothing changes. |
| Checklist.VehicleChecklist.SetImageCaption | src/components/checklist/VehicleChecklist.tsx:126-132 | The photos become `CaptionIn` of the old photos. |
| Checklist.VehicleChecklist.RemoveImage | src/components/checklist/VehicleChecklist.tsx:134-136 | The photos become `WithoutImage` of the old photos. |
| Checklist.VehicleChecklist.ChangeClientInfo | src/components/checklist/VehicleChecklist.tsx:138-140 | The vehicle fields become `WithInfo` of the old ones. |
| Checklist.VehicleChecklist.SetGeneralNotes | src/components/checklist/VehicleChecklist.tsx:392 | The general notes are set, and nothing else changes. |
| Checklist.VehicleChecklist.TotalCount | src/components/checklist/VehicleChecklist.tsx:156 | The item count over both lists is never below six. |
| Checklist.VehicleChecklist.CheckedCount | src/components/checklist/VehicleChecklist.tsx:157-160 | The checked count is the sum over both lists and is at most the item count. |
| Checklist.VehicleChecklist.DamageCount | src/components/checklist/VehicleChecklist.tsx:157-160 | The damaged count is the sum over both lists and is at most the item count. |
| Checklist.VehicleChecklist.CompletionPercentage | src/components/checklist/VehicleChecklist.tsx:155-163 | The completion percentage is the rounded share of checked items, in 0..100. It is 0 with nothing checked and 100 with everything checked. |
| Checklist.VehicleChecklist.Saved | src/components/checklist/VehicleChecklist.tsx:142-153 | The saved bundle holds the predefined items followed by the custom items in order, plus every photo, the vehicle fields and the notes. |
| Roster.EmployeeCode | src/pages/admin/EmployeeManagement.tsx:98 | The generated code is at least four characters long and ends with the decimal text of the new roster size. |
| Roster.SaveList | src/pages/admin/EmployeeManagement.tsx:87-106 | A rejected save keeps the roster. An edit with an id keeps its length. Any other save appends one record with the new id after the unchanged roster. |
| Roster.Delete | src/pages/admin/EmployeeManagement.tsx:108-110 | Deleting never lengthens the roster and leaves no record with that id. |
| Roster.ToggleStatus | src/pages/admin/EmployeeManagement.tsx:112-118 | Toggling keeps the roster's length and ids, and changes a record's status exactly when it has that id. |
| Roster.FilterByService | src/pages/admin/EmployeeManagement.tsx:120-122 | Filtering never lengthens the roster, and a business filter shows only employees of that kind. |
| Roster.NewDraft | src/pages/admin/EmployeeManagement.tsx:72-79 | A new draft is for the barbershop, active, and has no name, e-mail, id or code. |
| Roster.EmployeeCodeShape | src/pages/admin/EmployeeManagement.tsx:98 | The generated code has at least four characters. It ends with the upper-cased first (up to) two letters of the name and then the decimal count + 1, with '0' padding in front. |
| Roster.EmployeeCodeNumber | src/pages/admin/EmployeeManagement.tsx:98 | The digits at the end of the code read back as the new roster size. |
| Roster.EmployeeCodeExample | src/pages/admin/EmployeeManagement.tsx:98 | The fifth employee "Pedro" is given "0PE5". |
| Roster.SaveRejected | src/pages/admin/EmployeeManagement.tsx:88 | Without a draft, a name or an e-mail, saving leaves the roster as it is. |
| Roster.SaveEdits | src/pages/admin/EmployeeManagement.tsx:90-93 | Saving an edit with an id replaces exactly the records with that id by the draft, keeping length and order. |
| Roster.SaveAppends | src/pages/admin/EmployeeManagement.tsx:94-101 | Saving a new employee appends one record after the unchanged earlier ones. The record is the draft with the new id and the generated code. |
| Roster.ToggleStatusFrame | src/pages/admin/EmployeeManagement.tsx:112-118 | Exactly the employees with that id flip between active and inactive. Every other field and record stays. |
| Roster.ToggleStatusTwice | src/pages/admin/EmployeeManagement.tsx:112-118 | Toggling the same id twice restores the roster. |
| Roster.DeleteSpec | src/pages/admin/EmployeeManagement.tsx:108-110 | Deleting drops every record with that id and keeps every other one, in order, as often as it occurred. |
| Roster.FilterAllIsIdentity | src/pages/admin/EmployeeManagement.tsx:120-121 | The 'all' filter shows the whole roster. |
| Roster.FilterOnlyExact | src/pages/admin/EmployeeManagement.tsx:120-122 | A business filter shows, in order, exactly the employees of that kind, each as often as in the roster. It shows everyone exactly when all are of that kind. |
| Roster.EmployeeManagement.constructor | src/pages/admin/EmployeeManagement.tsx:19-70 | The page starts with the four sample employees, the modal closed, no draft, not editing, and the 'all' filter. |
| Roster.EmployeeManagement.AddEmployee | src/pages/admin/EmployeeManagement.tsx:72-79 | Opens the modal on a new draft, not editing. |
| Roster.EmployeeManagement.EditEmployee | src/pages/admin/EmployeeManagement.tsx:81-85 | Opens the modal on a copy of the employee, editing. |
| Roster.EmployeeManagement.EditDraft | src/pages/admin/EmployeeManagement.tsx:346-421 | A modal input sets its field of the draft. |
| Roster.EmployeeManagement.SaveEmployee | src/pages/admin/EmployeeManagement.tsx:87-106 | The roster becomes `SaveList` of the old state. A save that passes the guard closes the modal and clears the draft, and a rejected save changes nothing. |
| Roster.EmployeeManagement.DeleteEmployee | src/pages/admin/EmployeeManagement.tsx:108-110 | The roster becomes `Delete` of the old roster. |
| Roster.EmployeeManagement.ToggleEmployeeStatus | src/pages/admin/EmployeeManagement.tsx:112-118 | The roster becomes `ToggleStatus` of the old roster. |
| Roster.EmployeeManagement.SelectServiceType | src/pages/admin/EmployeeManagement.tsx:155-194 | A filter button sets the filter, and nothing else changes. |
| Roster.EmployeeManagement.CloseModal | src/pages/admin/EmployeeManagement.tsx:320-323 | Closing the modal drops the draft. |
| Roster.EmployeeManagement.CancelModal | src/pages/admin/EmployeeManagement.tsx:329 | Cancel closes the modal and keeps the draft. |
| Roster.EmployeeManagement.FilteredEmployees | src/pages/admin/EmployeeManagement.tsx:120-122 | 'All' shows the roster. A business filter shows, in roster order, exactly the employees of that kind, each as often as in the roster. |
| Settings.HoursFor | src/pages/admin/BusinessSettings.tsx:47-54 | The `reduce` over the days gives one entry per listed day, all with the same hours, open on every day except Sunday. |
| Settings.InitialSettings | src/pages/admin/BusinessSettings.tsx:39-84 | The page starts with exactly the three businesses, each with its initial record. |
| Settings.InitialHours | src/pages/admin/BusinessSettings.tsx:24-82 | Each business has the seven weekdays, closed exactly on Sunday. The hours are 08:00-18:00 for the car wash and 09:00-19:00 for the others. |
| Settings.UpdateData | src/pages/admin/BusinessSettings.tsx:91-99 | A contact update keeps the set of businesses, the active business's hours and every other business. |
| Settings.UpdateHours | src/pages/admin/BusinessSettings.tsx:101-115 | An hours update keeps the set of businesses, the active business's set of days, every other day and every other business. |
| Settings.UpdateDataFrame | src/pages/admin/BusinessSettings.tsx:91-99 | A contact update sets that one field of the active business. The other fields, its hours and the other businesses stay. |
| Settings.UpdateHoursFrame | src/pages/admin/BusinessSettings.tsx:101-115 | An hours update sets one field of one day of the active business. The other fields, the other days, the contact data and the other businesses stay. |
| Settings.UpdateDataOverwrites | src/pages/admin/BusinessSettings.tsx:91-99 | A later update of the same field overwrites an earlier one, and repeating an update changes nothing. |
| Settings.UpdateHoursOverwrites | src/pages/admin/BusinessSettings.tsx:101-115 | A later update of the same day and field overwrites an earlier one, and repeating an update changes nothing. |
| Settings.BusinessSettings.constructor | src/pages/admin/BusinessSettings.tsx:36-84 | The page starts on the barbershop tab, over the initial data. |
| Settings.BusinessSettings.SelectTab | src/pages/admin/BusinessSettings.tsx:124-144 | A tab button selects that business, and the data stays. |
| Settings.BusinessSettings.UpdateBusinessData | src/pages/admin/BusinessSettings.tsx:91-99 | The data becomes `UpdateData` of the old data for the active tab. Every business keeps seven days. |
| Settings.BusinessSettings.UpdateBusinessHours | src/pages/admin/BusinessSettings.tsx:101-115 | For a listed day, the data becomes `UpdateHours` of the old data for the active tab. Every business keeps its seven days. |
| Settings.BusinessSettings.ActiveData | src/pages/admin/BusinessSettings.tsx:86-89 | The record the save button sends is the active business's, with all seven days. |

## Left out

- Rendering: JSX, styling, icons, animation, modal markup and the `currentTab` switch of the checklist (checklist or photos) only decide what is drawn.
- The `serviceType` props of the checklist and the expense form only affect styling and, in the checklist, the heading text.
- `AuthContext`, routing and the other pages are not part of this model.
- Save placeholders: `handleSaveChecklist` logs the bundle (`console.log`) and shows an `alert`; `handleSave` only logs the active business's record. The model gives the bundle they log (`Checklist.VehicleChecklist.Saved`, `Settings.BusinessSettings.ActiveData`) and nothing else.
- `Date.now()`, `new Date().toISOString()` and `URL.createObjectURL` are method parameters, so their values are not modelled. The object URLs are never revoked in the source; that leak is not modelled.
- `Intl` currency and date formatting (`formatCurrency` and the other helpers of `formatters.ts`) are not part of this model. They depend on locale data.
- `Expenses.Expense`: `amount` is kept as the entered text. `parseFloat` and floating-point numbers are not modelled.
- `Checklist.RoundedPercent`: it computes the exactly rounded percentage. `Math.round((checked / total) * 100)` is computed in floating point, which can round a value sitting exactly on .5 the other way.
- `Text.ToUpperAscii`: upper-cases ASCII letters only. JavaScript's `toUpperCase` also maps other letters (é to É, ß to SS). Strings are sequences of characters, not UTF-16 code units.
- `Roster.Employee`: the modal's partial draft uses "" for fields it does not have yet, where the source has `undefined`. The page reads those fields only as `value || ''` or through their truthiness, which treats both alike.
- `Settings.BusinessSettings.UpdateBusinessHours`: requires one of the seven listed days. The page only calls it for those days; for any other key JavaScript would create a partial entry, which is not modelled.
- The `try`/`catch` of `formatPhoneNumber` is left out: its body cannot throw on a string.
- `Expenses.ExpenseForm.HandleSubmit`: the browser's form validation is not modelled. The name, amount and date inputs are `required`, and the amount is a number of at least 0.01 (`src/pages/dashboard/employee/ExpenseForm.tsx:101-124`), so the browser never submits them empty. The model accepts any field values.
- `Checklist.ItemLists`: item ids are not assumed unique. The item operations are stated for every item with the given id. That distinct ids stay distinct is proved under the premise that the id of an added item (`custom-${Date.now()}`) is not in use; two additions in the same millisecond would break it.
