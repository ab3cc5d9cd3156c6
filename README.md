# Pet-care dashboard: list state and derived views

A Dafny model of the state handling and derived views of a single-page pet-care
dashboard. The app works on hardcoded mock data. The pets, tracker and catalog
screens keep it in React component state, the calendar takes it as the default
value of its `appointments` prop, and the health screen builds it as a constant
on every render. Each screen holds a list of records, a selected record, a few dialog flags and
sometimes a filter or a form draft. Its handlers replace, filter or append to
that list. The model covers these handlers and the pure views computed from
the lists.

- `Common` (common.dfy): optional values, a `Date` (year, month, day and the
  `getTime()` timestamp), and the JavaScript `filter` and `find` operations on
  sequences. Their order, membership and concatenation laws are proved once,
  here.
- `Pets` (pets.dfy): the pet list screen as a class. It holds `pets`,
  `selectedPet`, the `newPet` draft and the add, view and edit dialog flags.
  Pet ids come from the clock in the app. Here they are a parameter and they
  are not assumed unique, so what happens with duplicate ids is part of every
  contract. The class invariant `Valid` says that a selected pet's id is in
  the list. The selection only ever comes from a lookup. Update and delete
  clear the selection, and add only appends, which keeps every existing id.
  So every handler keeps the invariant.
- `Tracker` (tracker.dfy): the medication tracker card as a class. It covers
  mark-as-given, add, the active-only view with its count, and the time display
  rule.
- `Catalog`, `Medications`, `Vaccinations` (catalog.dfy, medications.dfy,
  vaccinations.dfy): the two catalog screens. They share one pet-type filter
  rule and one stock-badge rule.
- `Appointments` (appointments.dfy): the appointment calendar as a class. It
  covers the same-day list, the case-insensitive type colours, the in-place
  sort by date of the list view, and the booking, view and cancel handlers.
  Calls to the parent are recorded as a sequence of `events`.
- `Health` (health.dfy): the health-metrics screen's derivations as pure
  functions. These are the weight trend, the pet shown, the latest weight, the
  exercise and calorie totals, and the newest-first weight table with its
  changes and colours. The table is built from a reversed copy, and the model
  is value-based, so the weight history itself is never reordered.

A React handler calls several state setters one after another. The model
writes each handler as one method that assigns the same fields, so it reaches
the same state the re-render sees. Clock readings (`Date.now()`, `new Date()`)
are method parameters: `id`, `now` and `today`. Each class's constructor takes
the mock list: `initial` for the pets, tracker and catalog screens, and
`appointments` for the calendar, standing for the prop or its default list. The
health screen has no class; its pets are the `pets` parameter of
`Health.CurrentPet`.

In four places the code does something other than what one might expect of
such a screen. The model follows the code:
- Delete removes every pet whose id matches, not exactly one.
- Update replaces the whole record with the selection rather than merging a
  patch.
- View or edit of an unknown id leaves the previous selection in place. It
  does not clear it.
- The age field accepts any integer the parser returns, negative ones
  included.

## Model

| member | source | states |
|---|---|---|
| `Pets.WithId` | src/components/pets/PetsList.tsx:99-102 | the new pet carries the supplied id and exactly the draft's other fields |
| `Pets.AgeFromInput` | src/components/pets/PetsList.tsx:226 | a NaN parse gives 0; any parsed integer is kept, including 0 and negatives; a non-zero age is exactly the parsed value |
| `Pets.FindById` | src/components/pets/PetsList.tsx:120 | a pet is found iff some pet has the id, and the one found is the first pet with that id |
| `Pets.ReplaceById` | src/components/pets/PetsList.tsx:137 | the length is kept; every pet with the selection's id becomes the selection; every other pet is unchanged in place |
| `Pets.RemoveById` | src/components/pets/PetsList.tsx:145 | no pet with the id is left; every other pet stays, in original order (a subsequence); the length drops by the number of pets with the id |
| `Pets.FindAfterAppend` | src/components/pets/PetsList.tsx:99-103 | after an append, a lookup finds the new pet only if no earlier pet had its id; with a duplicate id the new pet cannot be viewed or edited |
| `Pets.AddThenFind` | src/components/pets/PetsList.tsx:99-103 | a pet added with a fresh id is what a lookup of that id returns |
| `Pets.UpdateThenFind` | src/components/pets/PetsList.tsx:135-141 | after an update, looking up the selection's id returns the selection |
| `Pets.ReplaceIdempotent` | src/components/pets/PetsList.tsx:137 | saving the same selection twice gives the same list as saving it once |
| `Pets.RemoveAfterReplace` | src/components/pets/PetsList.tsx:135-149 | deleting by id after an update of that id leaves the same list as deleting directly |
| `Pets.AddThenRemove` | src/components/pets/PetsList.tsx:143-149 | deleting the id of a just-added pet also removes every earlier pet that shares the id |
| `Pets.RemoveIdempotent` | src/components/pets/PetsList.tsx:145 | a second delete of the same id changes nothing |
| `Pets.PetsList.constructor` | src/components/pets/PetsList.tsx:81-90 | starts with no selection, all dialogs closed, and a draft of "" name and breed, age 0 and type "Dog" |
| `Pets.PetsList.AddPet` | src/components/pets/PetsList.tsx:92-117 | reports a validation error iff the name or breed is empty, and then changes nothing; otherwise appends the draft with the id as the last pet, closes the add dialog and resets the draft ("" fields, age 0, "Dog") |
| `Pets.PetsList.ViewPet` | src/components/pets/PetsList.tsx:119-125 | if some pet has the id, selects the first such pet and opens the view dialog; otherwise no state changes |
| `Pets.PetsList.EditPet` | src/components/pets/PetsList.tsx:127-133 | as ViewPet, but opens the edit dialog |
| `Pets.PetsList.UpdatePet` | src/components/pets/PetsList.tsx:135-141 | with a selection, the list becomes ReplaceById of it, the selection is cleared and the edit dialog closes, and looking up the old selection's id now returns the old selection; without one, no state changes |
| `Pets.PetsList.DeletePet` | src/components/pets/PetsList.tsx:143-149 | with a selection, the list becomes RemoveById of its id, the selection is cleared and the view dialog closes; without one, no state changes |
| `Pets.PetsList.OpenAddDialog` | src/components/pets/PetsList.tsx:262 | the add card opens the add dialog and changes nothing else |
| `Pets.PetsList.SwitchViewToEdit` | src/components/pets/PetsList.tsx:331-335 | the view dialog closes and the edit dialog opens, keeping the selection |
| `Pets.PetsList.EditDraft` | src/components/pets/PetsList.tsx:173-243 | a change in the add form replaces the draft and nothing else |
| `Pets.PetsList.EditDraftAge` | src/components/pets/PetsList.tsx:225-227 | the draft's age becomes AgeFromInput of the parse; its other fields are kept |
| `Pets.PetsList.EditSelected` | src/components/pets/PetsList.tsx:350-507 | a change in the edit form replaces every field of the selection except its id; without a selection nothing changes |
| `Pets.PetsList.EditSelectedAge` | src/components/pets/PetsList.tsx:408-413 | the selection's age becomes AgeFromInput of the parse |
| `Tracker.NewMedication` | src/components/dashboard/MedicationTracker.tsx:111-115 | the added record has the given fields, the supplied id and `isActive = true` |
| `Tracker.MarkGiven` | src/components/dashboard/MedicationTracker.tsx:101-105 | the length is kept; every record with the id gets `lastGiven = now`; every other record is unchanged in place |
| `Tracker.MarkGivenKeepsOtherFields` | src/components/dashboard/MedicationTracker.tsx:103 | on a matching record only `lastGiven` changes; name, dosage, frequency, dates, time, notes and `isActive` are untouched |
| `Tracker.MarkGivenUnknownId` | src/components/dashboard/MedicationTracker.tsx:101-105 | marking an id no record has leaves the list equal to the original |
| `Tracker.ActiveMedications` | src/components/dashboard/MedicationTracker.tsx:221-223 | the current view holds only active records, holds every active record, keeps list order, and has exactly as many entries as there are active records (duplicates kept) |
| `Tracker.ActiveCount` | src/components/dashboard/MedicationTracker.tsx:299 | the footer count is at most the list length, and it is zero iff no record is active |
| `Tracker.ActiveAfterMarkGiven` | src/components/dashboard/MedicationTracker.tsx:100-106 | mark-as-given commutes with the active view, so the count is unchanged |
| `Tracker.ActiveAfterAdd` | src/components/dashboard/MedicationTracker.tsx:108-118 | an added medication ends the active view, and the count grows by one |
| `Tracker.TimeDisplay` | src/components/dashboard/MedicationTracker.tsx:240-242 | a time containing ',' shows "Multiple times"; any other time is shown as it is |
| `Tracker.MedicationTracker.constructor` | src/components/dashboard/MedicationTracker.tsx:97 | the add dialog starts open |
| `Tracker.MedicationTracker.MarkAsGiven` | src/components/dashboard/MedicationTracker.tsx:100-106 | the list becomes MarkGiven of the old list; the dialog flag is kept |
| `Tracker.MedicationTracker.AddMedication` | src/components/dashboard/MedicationTracker.tsx:108-118 | appends exactly NewMedication(input, id) and closes the add dialog |
| `Tracker.MedicationTracker.CloseAddDialog` | src/components/dashboard/MedicationTracker.tsx:202-207 | the dialog's Cancel button closes the add dialog; the list is kept |
| `Tracker.MedicationTracker.OpenAddDialog` | src/components/dashboard/MedicationTracker.tsx:278-282 | opens the add dialog; the list is kept |
| `Catalog.FilterChoice` | src/components/medications/MedicationsList.tsx:134 | the "All Pets" value "" gives no filter; any other value becomes the filter |
| `Catalog.FilterByPetType` | src/components/medications/MedicationsList.tsx:125-127 | with no filter (null or "") the list is unchanged; with filter t, the result holds only items whose `forPetTypes` contains t, holds every such item, and has exactly as many entries as the catalog has such items (duplicates kept); never longer than the catalog |
| `Catalog.FilteredIsSubsequence` | src/components/medications/MedicationsList.tsx:125-127 | the filtered list is a subsequence of the catalog, so catalog order is kept |
| `Catalog.UnlistedTypeShowsNothing` | src/components/medications/MedicationsList.tsx:126 | a pet type that no item lists gives an empty view |
| `Catalog.FilteredAppend` | src/components/medications/MedicationsList.tsx:126 | the filter judges each item on its own: the view of a joined catalog is the two views joined |
| `Catalog.FilteredIdempotent` | src/components/medications/MedicationsList.tsx:126 | filtering the filtered view again changes nothing |
| `Catalog.StockBadge` | src/components/medications/MedicationsList.tsx:174-175 | reads "In Stock" iff in stock, "Out of Stock" iff not |
| `Medications.MedicationsList.constructor` | src/components/medications/MedicationsList.tsx:115-118 | starts with no selection, the dialog closed and no filter |
| `Medications.MedicationsList.FilteredMedications` | src/components/medications/MedicationsList.tsx:125-127 | without a filter, the whole catalog; with one, only and every medication for that pet type, as many times as the catalog lists it, in catalog order |
| `Medications.MedicationsList.ViewMedication` | src/components/medications/MedicationsList.tsx:120-123 | selects the given medication and opens the view dialog |
| `Medications.MedicationsList.ChooseFilter` | src/components/medications/MedicationsList.tsx:134 | the filter becomes FilterChoice(value); choosing "All Pets" shows the whole catalog |
| `Vaccinations.VaccinationsList.constructor` | src/components/vaccinations/VaccinationsList.tsx:128-131 | starts with no selection, the dialog closed and no filter |
| `Vaccinations.VaccinationsList.FilteredVaccinations` | src/components/vaccinations/VaccinationsList.tsx:138-140 | without a filter, the whole catalog; with one, only and every vaccination for that pet type, as many times as the catalog lists it, in catalog order |
| `Vaccinations.VaccinationsList.ViewVaccination` | src/components/vaccinations/VaccinationsList.tsx:133-136 | selects the given vaccination and opens the view dialog |
| `Vaccinations.VaccinationsList.ChooseFilter` | src/components/vaccinations/VaccinationsList.tsx:147 | the filter becomes FilterChoice(value); choosing "All Pets" shows the whole catalog |
| `Appointments.AppointmentsOn` | src/components/dashboard/AppointmentCalendar.tsx:145-151 | empty with no selected date; otherwise only appointments on the selected calendar day (day, month and year equal), every such appointment, as many entries as there are such appointments, in list order |
| `Appointments.AppointmentsOnSameDay` | src/components/dashboard/AppointmentCalendar.tsx:145-151 | the time of day of the selected date does not matter: two selections on the same calendar day give the same list |
| `Appointments.ToLower` | src/components/dashboard/AppointmentCalendar.tsx:155 | keeps the length and lowers every ASCII capital; every other character is kept |
| `Appointments.ToLowerIdempotent` | src/components/dashboard/AppointmentCalendar.tsx:155 | lowering twice is lowering once |
| `Appointments.TypeColour` | src/components/dashboard/AppointmentCalendar.tsx:154-167 | blue, green, yellow or purple iff the lowered type is veterinary, grooming, training or boarding; gray iff it is none of them |
| `Appointments.TypeColourIgnoresCase` | src/components/dashboard/AppointmentCalendar.tsx:155 | types that lower to the same string get the same colour, and so does a type's lower-case form |
| `Appointments.VeterinaryIsBlue` | src/components/dashboard/AppointmentCalendar.tsx:156-157 | the form value "Veterinary" is blue |
| `Appointments.GroomingIsGreen` | src/components/dashboard/AppointmentCalendar.tsx:158-159 | the form value "Grooming" is green |
| `Appointments.TrainingIsYellow` | src/components/dashboard/AppointmentCalendar.tsx:160-161 | the form value "Training" is yellow |
| `Appointments.BoardingIsPurple` | src/components/dashboard/AppointmentCalendar.tsx:162-163 | the form value "Boarding" is purple |
| `Appointments.SortByTime` | src/components/dashboard/AppointmentCalendar.tsx:449-450 | sorts the array in place: afterwards it is ascending by timestamp and a permutation of the original |
| `Appointments.AppointmentCalendar.constructor` | src/components/dashboard/AppointmentCalendar.tsx:86-101 | today is selected, nothing is viewed, both dialogs are closed, the draft is empty and dated today, and no events are emitted |
| `Appointments.AppointmentCalendar.AppointmentsForSelectedDate` | src/components/dashboard/AppointmentCalendar.tsx:145-151 | the selected day's appointments from the current array: only and every one on that day, as many entries as there are such appointments, in array order |
| `Appointments.AppointmentCalendar.ScheduledCount` | src/components/dashboard/AppointmentCalendar.tsx:377 | the count shown is 0 with no date and never exceeds the number of appointments |
| `Appointments.AppointmentCalendar.SelectDate` | src/components/dashboard/AppointmentCalendar.tsx:103-105 | the selected date becomes the pick and nothing else changes |
| `Appointments.AppointmentCalendar.OpenBooking` | src/components/dashboard/AppointmentCalendar.tsx:421 | opens the booking dialog and nothing else changes |
| `Appointments.AppointmentCalendar.EditDraft` | src/components/dashboard/AppointmentCalendar.tsx:205-342 | a change in the booking form replaces the draft and nothing else |
| `Appointments.AppointmentCalendar.BookingSubmit` | src/components/dashboard/AppointmentCalendar.tsx:107-129 | emits exactly one booking event carrying the draft's seven fields, closes the dialog and resets every draft string to "" with the date reset to now |
| `Appointments.AppointmentCalendar.ViewAppointment` | src/components/dashboard/AppointmentCalendar.tsx:131-134 | selects the appointment and opens the view dialog |
| `Appointments.AppointmentCalendar.CancelAppointment` | src/components/dashboard/AppointmentCalendar.tsx:136-142 | with a selection, emits exactly one cancel event with its id, closes the dialog and clears the selection; without one, no state changes |
| `Appointments.AppointmentCalendar.ListView` | src/components/dashboard/AppointmentCalendar.tsx:448-451 | the list shows the props array after sorting it in place: ascending by time and a permutation of the old contents |
| `Health.WeightTrend` | src/components/health/HealthMetrics.tsx:233-240 | "stable" for fewer than two records; otherwise increasing iff the last weight exceeds the one before it, decreasing iff it is smaller, stable iff they are equal |
| `Health.TrendIgnoresOlderRecords` | src/components/health/HealthMetrics.tsx:235-236 | records before the last two never change the trend |
| `Health.CurrentPet` | src/components/health/HealthMetrics.tsx:230 | the first pet with the selected id; if none has it, `pets[0]`; none only when there are no pets |
| `Health.LatestWeight` | src/components/health/HealthMetrics.tsx:243-244 | the weight of the last record; absent exactly when the history is empty |
| `Health.Total` | src/components/health/HealthMetrics.tsx:248-251 | the left-to-right reduce sum is non-negative over non-negative terms, and 0 over zero terms |
| `Health.TotalAppend` | src/components/health/HealthMetrics.tsx:248-251 | the total of two joined histories is the sum of their totals |
| `Health.TotalExercise` | src/components/health/HealthMetrics.tsx:247-251 | the exercise minutes summed over the history: non-negative for non-negative durations, 0 for an empty history |
| `Health.TotalCalories` | src/components/health/HealthMetrics.tsx:254-256 | the calories summed over the diet history: non-negative for non-negative entries, 0 for an empty history |
| `Health.Reverse` | src/components/health/HealthMetrics.tsx:419-420 | the copy has the same length and position k holds the element at length-1-k |
| `Health.Rows` | src/components/health/HealthMetrics.tsx:421-426 | one row per record, in the same order; each row but the last has change = its weight minus the next row's; the last row has none |
| `Health.WeightTable` | src/components/health/HealthMetrics.tsx:419-432 | rows are newest-first; row k shows record length-1-k; each row but the oldest has change = its weight minus the next-older weight; the oldest row shows no change |
| `Health.ChangeColour` | src/components/health/HealthMetrics.tsx:434-440 | red iff the change is > 0, green iff it is < 0, muted iff it is 0 |
| `Health.TrendColour` | src/components/health/HealthMetrics.tsx:301 | red iff increasing, green iff decreasing, muted iff stable |
| `Health.NewestChangeMatchesTrend` | src/components/health/HealthMetrics.tsx:419-440 | with two or more records the table's top change exists and has the same colour as the trend line |
| `Health.ChangesAddUp` | src/components/health/HealthMetrics.tsx:421-426 | the changes in the table add up to the newest weight minus the oldest |

## Left out

- Rendering is not modelled: JSX, styling classes, the dialog, select, tabs,
  calendar and popover widgets, and the icons. They come from UI libraries
  that are not part of this model.
- src/components/home.tsx, src/components/layout/Sidebar.tsx,
  src/App.tsx and src/components/dashboard/PetProfileCard.tsx are not part of
  this model. They hold static data, layout, routing and presentation. The
  card's "year"/"years" label is left out with them.
- The dialogs' `onOpenChange` callbacks are not modelled. The dialog trigger
  buttons and the dismiss gestures use them to open or dismiss a dialog, and
  each is a direct flag write with no rule.
- Dead UI is not modelled: the tracker's unwired form and Save button, the
  tracker's X button on each medication, its "View All Medications" button,
  the catalog dialogs' "Add to Cart" and "Schedule Vaccination" buttons, the
  Reschedule button, the catalogs' Add, Edit and Delete buttons, and "Record
  New Metrics", "Add Weight Record", "Add Diet Record" and "Add Exercise
  Record". None of them runs a handler.
  `onReschedule` is never called, so no event stands for it.
- Clock, id source and date parsing are parameters: `now`, `today` and `id`
  stand for `new Date()` and `Date.now().toString()`. The `Date` a date input
  parses to is given whole. `toLocaleDateString` and date-fns `format` are
  display only.
- `parseInt` itself is not modelled. Its result is the `Option<int>` parameter
  of `AgeFromInput`, with `None` for NaN.
- `alert()` is not modelled as I/O. It becomes the `MissingRequiredFields`
  outcome of `AddPet`.
- Floating point is not modelled. Weights, durations, calories and prices are
  exact reals, and changes are exact differences. `toFixed` rounding and the
  mean divisions (NaN on an empty history) are left out. Only the sums they
  divide are modelled.
- Health.LatestWeight: the screen reads `.weight` of the last record and throws
  on an empty history. The model returns `None` there instead.
- Health.CurrentPet: with no pets the screen gets `undefined` and then fails.
  The model returns `None`.
- Appointments.AppointmentCalendar.BookingSubmit: the form's required-field
  check is not modelled. In the app the browser blocks the submit while the
  title, type, pet, provider, date or time control is empty, so no booking
  event is sent then. The model emits the event for any draft. The time, date
  and Select inputs are also uncontrolled, so what they display is not
  necessarily the draft.
- Appointments.AppointmentCalendar.ListView: when the sort runs is not
  modelled. In the app the sort sits in the list tab's children, which are
  built on every render whichever tab is shown, so it runs on every render.
  With an array held by a parent, the sort carries over, and that corresponds
  to calling `ListView` after every handler. Without a prop, the default list
  is a fresh array on every render, so the sort never carries over and the day
  list keeps the literal's order. The model's single `appointments` array does
  not represent that fresh copy. Here `ListView` is a separate call, so the day
  list is in sorted order only after it has been made. The order of
  appointments with equal times after the sort is left open, as admitted under
  `Appointments.SortByTime`.
- Appointments.SortByTime: the sort is proved ascending and a permutation. It
  is not proved stable (the language's sort keeps ties in their order).
- Appointments.ToLower: folds only the ASCII capitals A-Z. `toLowerCase` also
  folds non-ASCII letters and can change the length ("İ" becomes two code
  units). No non-ASCII letter lowers into any of the four type keys, so the
  colours are unaffected.
- Appointments.TypeColour: lower-casing is ASCII only. `toLowerCase` also
  folds non-ASCII letters.
- The trend line's arrow and capitalised label text are not modelled. Only its
  colour (`Health.TrendColour`) is.
- The tracker's own calendar `date` state is not modelled. Only the unwired
  form uses it.
