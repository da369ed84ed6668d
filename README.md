# 3D University — a verified model of the admin portal's rules

3D University is a React web application on a hosted Supabase backend. It
shows a university campus as a 3D map. Admins of each university manage
the university's buildings and rooms, a super admin oversees every
university, and the public pages show a university's map and rooms. This
project models the rules beneath those pages in Dafny and proves them.

- **Admin sessions.** `AuthStore` and `AdminAuth` cover which session an
  identity gets from its admin record, and that it fails closed. They cover
  the keyless super-admin login with its one-time six-digit key and
  ten-minute session, logout, registration with its compensating deletes,
  and the building writes that keep at most one admin building per
  university. The backend is an in-memory store of tables. Each reply of
  the provider or the database is an input to the operation that receives it.
- **Room data.** `RoomManagement` covers the room filter, the add-room
  form and the CSV bulk import, where every data row is either imported or
  skipped with a reason. `RoomEdit` covers the room editor with its
  services list and weekly schedule. `RoomTimetable` covers the timetable
  grid. `RoomsList` covers the office-first room order, and
  `DemoRoomsData` the demo room table.
- **Buildings and maps.** `BuildingForm` covers building validation and the
  comma-list round trip. `DemoMap` covers the demo sandbox with at most
  one user building. `UniversityMaps`, `PublicMap` and `EmbedMap` cover the
  university lookup, the admin-first order, the merged search and the
  truncated lists. `SuperAdminMap` picks one marker per university.
  `AdminDashboard` covers room totals, share links and the save and delete
  handlers.
- **Small helpers and page state.** This part covers the super-admin
  countdown (`SuperAdminDashboard`), both login pages (`AdminLogin`,
  `SuperAdminLogin`), the light preset by hour (`MapPreset`), feature
  images (`MapUtil`), the home page (`App`), card labels (`Card`), the
  consent banner (`CookieConsent`) and the theme (`Theme`).

Shared modules:
- `Base` holds the JavaScript string and list operations the code relies on.
- `Assoc` models JavaScript objects used as ordered dictionaries.
- `Campus` holds the database records.

Page state is a Dafny class with one field per React state variable. Each
handler is a method that changes only the fields it names. What the
browser or the backend supplies is a parameter of the method that
receives it: the clock (`now`), the random number behind a key (`r` in
[0, 1)), a confirmation dialog's answer, and the window width.

## Model

| member | source | states |
|---|---|---|
| AuthStore.RegisterAdmin | src/lib/authService.js:7-98 | the university is inserted first; a failed sign-up or one without a user id deletes it again, and a failed admin insert deletes it but keeps the new account; a registration succeeds exactly when the university remains, with its non-super admin row, signed in only if the automatic login worked |
| AuthStore.MessageOr | src/lib/authService.js:96 | a non-empty message is kept; otherwise the non-empty fallback is used |
| AuthStore.LoginAdmin | src/lib/authService.js:104-152 | a refused sign-in changes nothing and reports the confirmation hint for an unconfirmed e-mail, else its message; a sign-in without a user fails; a signed-in user without an admin row fails with "Admin record not found"; a login returns the user's own admin row and university |
| AuthStore.IsSuperAdmin | src/lib/authService.js:199-216 | true only for a signed-in user whose admin row is flagged super admin, always for one when the lookup works, and false whenever the lookup fails |
| AuthStore.RegisteredIsNotSuperAdmin | src/lib/authService.js:51-56 | an admin just registered is never a super admin |
| AdminAuth.DeriveSession | src/AdminAuthContext.jsx:50-109 | a derived session is well formed and belongs to the signed-in user |
| AdminAuth.DeriveSessionFailsClosed | src/AdminAuthContext.jsx:50-109 | a session exists exactly when the admin lookup works, the user has an admin row, and that row is a super admin's or names a university that exists; a super admin gets no university, a regular admin their own |
| AdminAuth.NullIfEmpty | src/AdminAuthContext.jsx:238-242 | an empty or missing text is stored as null, any other unchanged |
| AdminAuth.NewBuilding | src/AdminAuthContext.jsx:234-244 | the new row belongs to the admin's university under the id the store assigned, keeps the name, is an admin building only when the flag is true, and always has lists |
| AdminAuth.OfficeRows | src/AdminAuthContext.jsx:253-276 | one office row per office given, each for the building and under the office's name; none when no list is given |
| AdminAuth.AdminFlag | src/AdminAuthContext.jsx:316-318 | the snake-case flag wins when present, otherwise the camel-case one |
| AdminAuth.ApplyUpdateKeeps | src/AdminAuthContext.jsx:308-326 | an update keeps the id, the university and the room counts, takes the given name and admin flag, and an update with every field undefined changes nothing |
| AdminAuth.UpdateById | src/AdminAuthContext.jsx:326 | the update changes no building count |
| AdminAuth.UnmarkedClears | src/AdminAuthContext.jsx:223-231 | after the unmark loop of an add, no building of the university is an admin building |
| AdminAuth.AddKeepsOneAdmin | src/AdminAuthContext.jsx:217-283 | adding a building to its university keeps at most one admin building per university, the existing ones having been unmarked when the new one is an admin building |
| AdminAuth.UpdateKeepsOneAdmin | src/AdminAuthContext.jsx:286-326 | an update by a regular admin of one of their own buildings keeps at most one admin building per university, provided the admin flag is set through the snake-case field |
| AdminAuth.SecretKeyNumber | src/AdminAuthContext.jsx:389 | the generated number always has six digits, from 100000 to 999999 |
| AdminAuth.SecretKeyDigits | src/AdminAuthContext.jsx:389 | the key is six decimal digits that read back as the number |
| AdminAuth.Matching | src/AdminAuthContext.jsx:437-442 | only unused keys with exactly the typed text match |
| AdminAuth.MarkUsed | src/AdminAuthContext.jsx:454-460 | marking a key used changes no key count |
| AdminAuth.MatchingAfterMark | src/AdminAuthContext.jsx:437-460 | after a key is marked used, the matches are the earlier ones less that key |
| AdminAuth.KeyIsSingleUse | src/AdminAuthContext.jsx:437-460 | once the one matching key is marked used, the same text matches no key |
| AdminAuth.SuperSession | src/AdminAuthContext.jsx:483-493 | the keyless session is a well-formed super-admin session with no university that expires ten minutes after login |
| AdminAuth.SessionLastsTenMinutes | src/AdminAuthContext.jsx:492-535 | a super-admin session set or extended at a time expires exactly once more than ten minutes have passed, and a regular admin's session never expires |
| AdminAuth.AdminAuthProvider.constructor | src/AdminAuthContext.jsx:16-21 | no session and no pending key, loading |
| AdminAuth.AdminAuthProvider.LoadAdminSession | src/AdminAuthContext.jsx:50-109 | the session becomes the derived one; when none can be derived the provider signs out and forgets the user; loading ends |
| AdminAuth.AdminAuthProvider.Start | src/AdminAuthContext.jsx:23-32 | without a stored sign-in loading just ends; with one its session is derived |
| AdminAuth.AdminAuthProvider.AuthStateChanged | src/AdminAuthContext.jsx:37-45 | a sign-out clears the session and the user; a sign-in derives the session |
| AdminAuth.AdminAuthProvider.AdminLogin | src/AdminAuthContext.jsx:135-160 | a refused sign-in keeps the provider's state and reports a shorter confirmation hint or the provider's message; an accepted one signs the user in and succeeds, the session being left to the listener |
| AdminAuth.AdminAuthProvider.Logout | src/AdminAuthContext.jsx:163-179 | the session always ends; a keyless super-admin session is dropped without calling the provider, any other signs the provider out and forgets the user |
| AdminAuth.AdminAuthProvider.UnmarkAdminBuildings | src/AdminAuthContext.jsx:226-230 | the loop unmarks every admin building of the university except the one kept |
| AdminAuth.AdminAuthProvider.AddBuilding | src/AdminAuthContext.jsx:217-283 | without a session, or as super admin, it fails with its message and writes nothing; otherwise it unmarks the university's admin buildings when adding one and the list read works, then appends the new row and its offices, or fails with the store's error |
| AdminAuth.AdminAuthProvider.UpdateBuilding | src/AdminAuthContext.jsx:286-365 | without a session, or without a university unless super admin, it fails and writes nothing; otherwise a regular admin marking an admin building first unmarks the others, then the building is updated and, when a new office list is given, its offices are replaced |
| AdminAuth.AdminAuthProvider.DeleteBuilding | src/AdminAuthContext.jsx:368-383 | without a session it fails and nothing changes; a failed delete reports its error; a delete removes every building with the id |
| AdminAuth.AdminAuthProvider.SendSuperAdminKeyEmail | src/AdminAuthContext.jsx:386-431 | a failed insert saves no key and reports the fixed message; otherwise a new unused key expiring in ten minutes is stored and kept as pending, and the result reports whether the e-mail went out |
| AdminAuth.AdminAuthProvider.LoginSuperAdmin | src/AdminAuthContext.jsx:434-504 | no single matching key means "Invalid secret key"; an expired key is refused; otherwise the key is marked used when that write works, and a login installs the ten-minute session of the one super admin and clears the pending key, failing without exactly one super admin |
| AdminAuth.AdminAuthProvider.InstallSuperSession | src/AdminAuthContext.jsx:466-499 | exactly one super admin is logged in with a fresh ten-minute session and the pending key is cleared; otherwise it fails and nothing changes |
| AdminAuth.AdminAuthProvider.ExtendSuperAdminSession | src/AdminAuthContext.jsx:507-524 | only a super-admin session is extended, to ten minutes from now, with everything else in it kept; otherwise it fails and nothing changes |
| AdminAuth.AdminAuthProvider.CheckExpiry | src/AdminAuthContext.jsx:527-538 | an expired super-admin session is dropped and any other session is kept |
| RoomManagement.FilterRooms | src/components/RoomManagement.jsx:50-69 | a room is listed exactly when it is in the chosen building (any, for 'all') and its number, name or purpose contains the query, ignoring case (any, for an empty query) |
| RoomManagement.FilterRoomsOrder | src/components/RoomManagement.jsx:50-69 | the filtered rooms keep their loaded order |
| RoomManagement.ToggleOfficeUpdate | src/components/RoomManagement.jsx:93-95 | the update names the room and the opposite of its office flag |
| RoomManagement.ToggleOfficeTwice | src/components/RoomManagement.jsx:93-98 | toggling twice restores the room, and the two toggles show different messages |
| RoomManagement.AddRoomError | src/components/RoomManagement.jsx:361-366 | the form is refused exactly when the building, the number or the name is empty, a missing building being reported first |
| RoomManagement.OfficeDetail | src/components/RoomManagement.jsx:375-376 | purpose and hours are sent, trimmed, only for an office with a non-empty field |
| RoomManagement.NewRoomFrom | src/components/RoomManagement.jsx:369-377 | the row sent carries the chosen building, the university, the office flag and the trimmed number and name, with office details only for an office |
| RoomManagement.AddRoomForm.constructor | src/components/RoomManagement.jsx:345-352 | every field starts empty and the room is not an office |
| RoomManagement.AddRoomForm.HandleSubmit | src/components/RoomManagement.jsx:355-397 | a refused form sends nothing and reports its error; an accepted one sends its row, and on success clears the form but keeps the building, on failure reports the store's error |
| RoomManagement.NonBlankLines | src/components/RoomManagement.jsx:508-527 | no line kept is blank |
| RoomManagement.PreviewLines | src/components/RoomManagement.jsx:504-513 | the preview holds at most six lines, and a file with no more than six shows them all |
| RoomManagement.FindColumns | src/components/RoomManagement.jsx:534-541 | the columns are found exactly when all three names are among the headers, and each index points at its own name |
| RoomManagement.BuildingMapLastWins | src/components/RoomManagement.jsx:544-547 | a building's lower-cased trimmed name maps to its id unless a later building has the same key |
| RoomManagement.BuildingMapKeys | src/components/RoomManagement.jsx:544-547 | every key of the map is some building's key and maps to that building's id |
| RoomManagement.BuildBuildingMap | src/components/RoomManagement.jsx:544-547 | the loop builds the map the reference definition describes |
| RoomManagement.CellRows | src/components/RoomManagement.jsx:554 | every line gives its own row of trimmed cells, one row per line |
| RoomManagement.ClassifyRow | src/components/RoomManagement.jsx:555-575 | a row is imported exactly when its number, name and building cells are non-empty and the building's key maps to a non-empty id, and then it becomes that building's room of the university |
| RoomManagement.OutcomesAt | src/components/RoomManagement.jsx:553-576 | the outcome of each row is the classification of that row alone |
| RoomManagement.AddOutcome | src/components/RoomManagement.jsx:560-570 | an imported row is appended to the rooms, a skipped one to the skipped rows under its row number, and exactly one list grows |
| RoomManagement.FilePlan | src/components/RoomManagement.jsx:553-576 | every data row lands in exactly one of the two lists, and skipped rows are numbered from 2 to the number of lines |
| RoomManagement.FilePlanRooms | src/components/RoomManagement.jsx:570-575 | every room planned belongs to the university and to a building of the map |
| RoomManagement.OutcomesValid | src/components/RoomManagement.jsx:564-575 | each row's outcome is valid for the map and the university |
| RoomManagement.ImportPlan | src/components/RoomManagement.jsx:553-576 | the data rows are split between rooms and skipped rows, every room of the university and of a known building |
| RoomManagement.ProcessRows | src/components/RoomManagement.jsx:550-576 | the row loop computes exactly the import plan of the file's rows |
| RoomManagement.PrepareImport | src/components/RoomManagement.jsx:527-580 | fewer than two lines is the empty-file error; a plan ready to import has at least one room, accounts for every data line, and every room is the university's |
| RoomManagement.BulkImportView.constructor | src/components/RoomManagement.jsx:486-489 | no file, preview or results |
| RoomManagement.BulkImportView.HandleFileChange | src/components/RoomManagement.jsx:491-513 | no file changes nothing; a name not ending in .csv is refused and nothing changes; a CSV file is kept and previewed |
| RoomManagement.BulkImportView.HandleImport | src/components/RoomManagement.jsx:515-601 | without a file nothing happens but the error; a failed preparation reports its message; otherwise the planned rooms are sent and a success records the count imported and the skipped rows |
| RoomEdit.SetFieldOnly | src/components/RoomEditModal.jsx:66-68 | setting a form field changes that field to the value and leaves every other field as it was |
| RoomEdit.ClearErrorOnly | src/components/RoomEditModal.jsx:69-71 | a field's error is blanked only when one is shown; every other error is untouched |
| RoomEdit.ValidationErrorsSpec | src/components/RoomEditModal.jsx:74-89 | the form is valid exactly when a building is chosen and the trimmed number and name are non-empty; each failed check leaves its own message under its own field |
| RoomEdit.OfficeText | src/components/RoomEditModal.jsx:112-113 | purpose and hours are sent trimmed only for an office with a non-empty value, otherwise as null |
| RoomEdit.FloorValue | src/components/RoomEditModal.jsx:114 | an empty floor field is sent as null; any other is read as an integer (FloorRoundTrip states what comes back) |
| RoomEdit.SubmittedTimetable | src/components/RoomEditModal.jsx:98-106 | a timetable is sent only while the editor is shown and it has a service or a scheduled day; its notes default to the empty string |
| RoomEdit.FloorText | src/components/RoomEditModal.jsx:56 | the loaded floor field is empty exactly for a missing floor or floor 0 |
| RoomEdit.FloorRoundTrip | src/components/RoomEditModal.jsx:56-114 | a floor loaded and saved unchanged comes back as the same floor, except that floor 0 comes back as no floor |
| RoomEdit.LoadSubmitRoundTrip | src/components/RoomEditModal.jsx:47-116 | opening a room the form could have written and saving it without edits sends back the same columns, the timetable aside |
| RoomEdit.AddService | src/components/RoomEditModal.jsx:133-141 | appends the trimmed input only when it is non-blank and not listed; the input is cleared exactly when something was appended |
| RoomEdit.AddServiceNoDup | src/components/RoomEditModal.jsx:133-141 | adding a service keeps a duplicate-free list duplicate-free |
| RoomEdit.RemoveServiceSpec | src/components/RoomEditModal.jsx:143-148 | the removed service is gone, every other one stays in its order, and no duplicate appears |
| RoomEdit.ToggleServiceMembership | src/components/RoomEditModal.jsx:193-199 | toggling flips the membership of that service and of no other |
| RoomEdit.ToggleServiceTwice | src/components/RoomEditModal.jsx:193-199 | toggling twice restores the members, and restores the very list when the service was absent |
| RoomEdit.Underscored | src/components/RoomEditModal.jsx:162 | every run of white space becomes exactly one underscore and no white space is left |
| RoomEdit.SlotKey | src/components/RoomEditModal.jsx:162 | the slot key is the untrimmed name lower-cased with its white-space runs replaced by underscores |
| RoomEdit.SlotKeyIdempotent | src/components/RoomEditModal.jsx:162 | a slot key is already normal: keying it again returns it |
| RoomEdit.WithSlotSpec | src/components/RoomEditModal.jsx:157-166 | the day gets the slot under its key, a slot with that key is replaced, other slots and other days are unchanged, and no empty day appears |
| RoomEdit.WithoutSlotSpec | src/components/RoomEditModal.jsx:178-191 | the slot is gone, the day is deleted once it has no slot left, and everything else is untouched, so no empty day is introduced |
| RoomEdit.ActiveDaysSpec | src/components/RoomEditModal.jsx:201-203 | a day is active exactly when it is a weekday whose entry has at least one slot, and the active days keep Monday-to-Sunday order |
| RoomEdit.BuildingName | src/components/RoomEditModal.jsx:127-130 | the name of the first building with the id, and "Unknown" when there is none |
| RoomEdit.RoomEditor.constructor | src/components/RoomEditModal.jsx:18-64 | the initial state, then the load effect: every field from the room with its default, and the timetable editor opened only when the room has a timetable |
| RoomEdit.RoomEditor.HandleChange | src/components/RoomEditModal.jsx:66-72 | the named field takes the value and only that field's error is blanked |
| RoomEdit.RoomEditor.Validate | src/components/RoomEditModal.jsx:74-89 | installs the error object of the form and answers whether it is empty |
| RoomEdit.RoomEditor.HandleSubmit | src/components/RoomEditModal.jsx:91-125 | an invalid form sends nothing; a valid one hands the room id and the cleaned-up columns to the save callback |
| RoomEdit.RoomEditor.ToggleTimetable | src/components/RoomEditModal.jsx:329 | the timetable editor's visibility is flipped |
| RoomEdit.RoomEditor.AddServiceClick | src/components/RoomEditModal.jsx:133-141 | the dialog's services and input become what adding a service gives |
| RoomEdit.RoomEditor.RemoveServiceClick | src/components/RoomEditModal.jsx:143-148 | the dialog's services lose that service |
| RoomEdit.RoomEditor.ToggleEditingDay | src/components/RoomEditModal.jsx:396-436 | the slot editor opens on the day, or closes when it was open on that day |
| RoomEdit.RoomEditor.ToggleSlotService | src/components/RoomEditModal.jsx:193-199 | the draft slot's services are toggled for the service |
| RoomEdit.RoomEditor.CancelSlot | src/components/RoomEditModal.jsx:487-494 | the draft slot is reset and the slot editor closed |
| RoomEdit.RoomEditor.AddTimeSlot | src/components/RoomEditModal.jsx:151-176 | a blank name or time changes nothing; otherwise the schedule gains the slot under its key and the draft is reset |
| RoomEdit.RoomEditor.RemoveTimeSlot | src/components/RoomEditModal.jsx:178-191 | the schedule loses the slot, and the day too once it is empty; a day the schedule lacks makes the handler throw with nothing changed |
| RoomEdit.RoomEditor.SetNewService | src/components/RoomEditModal.jsx:349 | the new-service input takes the value |
| RoomEdit.RoomEditor.SetNotes | src/components/RoomEditModal.jsx:513 | the notes take the value and nothing else of the timetable changes |
| RoomEdit.RoomEditor.SetSlotName | src/components/RoomEditModal.jsx:455 | the slot being written takes the name and keeps its time and services |
| RoomEdit.RoomEditor.SetSlotTime | src/components/RoomEditModal.jsx:464 | the slot being written takes the time and keeps its name and services |
| RoomTimetable.StringLePreorder | src/components/RoomTimetable.jsx:28 | the default sort's code-unit order on slot keys is total, transitive and antisymmetric |
| RoomTimetable.SlotSetSpec | src/components/RoomTimetable.jsx:24-27 | the set of slots holds, without duplicates, exactly the keys of some day's slots |
| RoomTimetable.TimeSlotsSpec | src/components/RoomTimetable.jsx:24-28 | the column keys are exactly the slot keys of the schedule, each once, in strictly ascending order |
| RoomTimetable.CollectTimeSlots | src/components/RoomTimetable.jsx:24-28 | the loops over the days and their slots, then the sort, give exactly the sorted slot keys |
| RoomTimetable.PresentDaysSpec | src/components/RoomTimetable.jsx:31 | a row is shown for a weekday exactly when the schedule has that day, in Monday-to-Sunday order |
| RoomTimetable.FirstSlot | src/components/RoomTimetable.jsx:66 | the slot of the first day, in the schedule's order, that has the key; none when no day has it |
| RoomTimetable.Header | src/components/RoomTimetable.jsx:66 | a column's heading is the non-empty time of the slot in the first day, in object order, that has the slot; with no such day, or an empty time, it is the key itself |
| RoomTimetable.CellAt | src/components/RoomTimetable.jsx:76-89 | a cell shows the dash exactly when the day has no slot with the key, and otherwise that slot's services |
| RoomTimetable.Row | src/components/RoomTimetable.jsx:75-92 | one cell per column, each for its own slot key |
| RoomTimetable.Headers | src/components/RoomTimetable.jsx:64-68 | one heading per column, each for its own slot key |
| RoomTimetable.Grid | src/components/RoomTimetable.jsx:72-94 | one row per shown day, each the row of that day |
| RoomTimetable.Render | src/components/RoomTimetable.jsx:16-94 | nothing is shown without a timetable, without a schedule or with no weekday in it; otherwise the sorted columns, the present days, their headings and their grid |
| RoomTimetable.RenderCells | src/components/RoomTimetable.jsx:72-89 | every shown day is in the schedule, and each of its cells has services exactly when the day has that slot |
| RoomTimetable.AddKeySpec | src/components/RoomTimetable.jsx:26 | adding a slot to the set adds exactly that slot and keeps the set free of duplicates |
| RoomTimetable.AddKeysSpec | src/components/RoomTimetable.jsx:26 | adding a day's slots adds exactly those slots and keeps the set free of duplicates |
| RoomsList.OfficeLePreorder | src/components/RoomsList.jsx:25-29 | the comparator, offices before other rooms and then by room number, is a consistent total preorder whenever the room-number collation is |
| RoomsList.SortRoomsOrder | src/components/RoomsList.jsx:25-29 | the sorted list is a permutation of the rooms with every office before every other room, and rooms of the same kind in room-number order |
| RoomsList.LoadRooms | src/components/RoomsList.jsx:16-39 | a failed read keeps the rooms and shows its error; a successful one clears the error and shows the fetched rooms as a permutation sorted offices first, then by room number (none for a null list); loading always ends |
| RoomsList.OfficeCount | src/components/RoomsList.jsx:77 | there are never more offices than rooms |
| RoomsList.OfficeCountSorted | src/components/RoomsList.jsx:25-77 | sorting does not change the number of offices |
| DemoRoomsData.DemoRoomsFiledByBuilding | src/demoRoomsData.js:4-282 | every demo room is filed under the building it names |
| DemoRoomsData.AllRoomsForBuilding | src/demoRoomsData.js:284-286 | an unknown building has no rooms, and every room returned belongs to the building asked for |
| DemoRoomsData.OfficeRoomsForBuilding | src/demoRoomsData.js:288-291 | exactly the building's rooms that are offices, in table order |
| DemoRoomsData.DemoRoomIdsUnique | src/demoRoomsData.js:4-282 | no two demo rooms share an id |
| BuildingForm.LoadOffices | src/components/BuildingForm.jsx:38-45 | one office per stored office, in order, each keeping its id or given a fresh one when it has none; no stored list gives none |
| BuildingForm.CoordinateError | src/components/BuildingForm.jsx:122-138 | a coordinate passes exactly when its field is non-empty and parses to a number within the bounds |
| BuildingForm.KeyTextInjective | src/components/BuildingForm.jsx:119-143 | distinct error keys, including `office_purpose_<index>` for distinct indices, are distinct strings |
| BuildingForm.OfficeChecks | src/components/BuildingForm.jsx:141-145 | one check per office, in order |
| BuildingForm.OfficeErrors | src/components/BuildingForm.jsx:141-145 | only office-purpose keys of the offices examined are produced |
| BuildingForm.OfficeErrorsEmpty | src/components/BuildingForm.jsx:141-145 | no office error is recorded exactly when every office examined passes |
| BuildingForm.BuildingErrorsEmpty | src/components/BuildingForm.jsx:115-149 | the error object is empty exactly when the form is valid |
| BuildingForm.GetOfficeErrors | src/components/BuildingForm.jsx:141-145 | the error under an office key is that office's own check, and there is none for any other key |
| BuildingForm.BuildingErrorsAt | src/components/BuildingForm.jsx:115-145 | each key of the error object holds exactly its own field's or office's check |
| BuildingForm.CheckFields | src/components/BuildingForm.jsx:116-138 | the guard sequence fills the name, latitude and longitude errors of the reference definition and no office key |
| BuildingForm.CheckOffices | src/components/BuildingForm.jsx:141-145 | the `forEach` appends exactly the office errors, in office order |
| BuildingForm.Validate | src/components/BuildingForm.jsx:115-149 | the error object of the reference definition, and success exactly when the form is valid |
| BuildingForm.HandleSubmit | src/components/BuildingForm.jsx:151-181 | an invalid form saves nothing; a valid one saves the form's building data |
| BuildingForm.SubmittedDataSpec | src/components/BuildingForm.jsx:156-178 | the saved coordinates are the parsed fields in range, longitude first; exactly the offices with a name and a purpose are kept, in order; every facility and department item is non-empty and trimmed; the admin flag as ticked |
| BuildingForm.EditListsRoundTrip | src/components/BuildingForm.jsx:166-173 | editing a building and saving it unchanged gives back its facilities and departments, whenever each item is trimmed and comma-free |
| BuildingForm.AddKeyOffice | src/components/BuildingForm.jsx:90-101 | one empty office is appended, identified by the time, and the others are unchanged |
| BuildingForm.RemoveKeyOfficeSpec | src/components/BuildingForm.jsx:103-105 | exactly the offices with another id remain, in order |
| BuildingForm.UpdateKeyOffice | src/components/BuildingForm.jsx:107-113 | the offices with the id have the field set, and every other office is unchanged |
| BuildingForm.UpdateKeyOfficeOnly | src/components/BuildingForm.jsx:107-113 | an update keeps every id, and changes only the named field of the matching offices |
| DemoMap.SearchSpec | src/DemoMap.jsx:124-136 | a building is listed exactly when it is loaded and the query is empty or matches its name, category, a department or a facility, ignoring case; the order is kept |
| DemoMap.UserId | src/DemoMap.jsx:252-255 | a saved test building never gets a `demo-` id |
| DemoMap.InitialSandbox | src/DemoMap.jsx:86-94 | a fresh session has unique ids, no test building and the flag cleared |
| DemoMap.ReplaceById | src/DemoMap.jsx:238-242 | the building with the id takes the form's data under its own id; every other building, and every id, is unchanged |
| DemoMap.RemoveById | src/DemoMap.jsx:272 | exactly the buildings with another id remain, in order |
| DemoMap.ReplaceKeepsSandbox | src/DemoMap.jsx:236-244 | an edit keeps the sandbox rule: unique ids, at most one test building, the flag telling whether there is one |
| DemoMap.AddKeepsSandbox | src/DemoMap.jsx:246-260 | adding the test building to a sandbox without one keeps the rule with the flag set |
| DemoMap.RemoveKeepsSandbox | src/DemoMap.jsx:264-274 | deleting the listed test building leaves only demo buildings, matching the cleared flag |
| DemoMap.DemoRoomsListOrder | src/DemoMap.jsx:622-631 | the demo rooms list is a permutation of the building's demo rooms with offices first, and has as many offices |
| DemoMap.DemoMapPage.constructor | src/DemoMap.jsx:86-108 | the stored list or the initial buildings, the flag set exactly when stored as "true"; the sidebar shown and desktop assumed; a session with nothing stored starts in the sandbox rule |
| DemoMap.DemoMapPage.LocationFound | src/DemoMap.jsx:146-152 | the position found becomes the user's location |
| DemoMap.DemoMapPage.CheckMobile | src/DemoMap.jsx:111-121 | a window at most 768 wide is mobile and hides the sidebar; a wider one leaves the sidebar as it was |
| DemoMap.DemoMapPage.ToggleSidebar | src/DemoMap.jsx:339 | the sidebar flips |
| DemoMap.DemoMapPage.BuildingClick | src/DemoMap.jsx:162-178 | the building is selected, directions hidden, the modal shown, the rooms list closed, and its demo offices listed; on mobile the sidebar closes, on desktop it stays as it was |
| DemoMap.DemoMapPage.ShowDirections | src/DemoMap.jsx:180-188 | without a location the visitor is prompted and nothing is shown; with one the directions replace the modal |
| DemoMap.DemoMapPage.CloseDirections | src/DemoMap.jsx:205-212 | directions hidden, nothing selected, the modal shown |
| DemoMap.DemoMapPage.AddBuildingClick | src/DemoMap.jsx:214-222 | refused, with nothing changed, exactly when a test building was already added; otherwise an empty form opens; the sandbox rule holds |
| DemoMap.DemoMapPage.EditBuilding | src/DemoMap.jsx:224-233 | refused, with nothing changed, exactly for a `demo-` building; otherwise its form opens; the sandbox rule holds |
| DemoMap.DemoMapPage.SaveBuilding | src/DemoMap.jsx:235-262 | an edit replaces that building; an add appends the test building under a fresh id and sets the flag, and is refused when one was added; the sandbox rule holds |
| DemoMap.DemoMapPage.DeleteBuilding | src/DemoMap.jsx:264-279 | a `demo-` id is refused and a declined confirmation changes nothing; otherwise the building goes, the flag clears and its selection is dropped; the rule holds for a listed id |
| Campus.AdminFirstPartition | src/PublicMap.jsx:118-122 | sorting with the admin-first comparator lists the admin buildings, then the others, each group in its loaded order |
| Campus.DedupFromSpec | src/PublicMap.jsx:145-165 | dropping already-seen ids keeps only buildings of the list with unseen ids, each id once, and exactly the unseen ids |
| Campus.FindById | src/PublicMap.jsx:159 | the building found is the first in the list with that id; none is found only when no building has it |
| UniversityMaps.StripSpaces | src/PublicMap.jsx:76 | no white space is left in a name once its runs of white space are removed |
| UniversityMaps.FindIndex | src/PublicMap.jsx:74-77 | the first university whose id is the parameter or whose space-free lower-cased name contains it; none when no university matches |
| UniversityMaps.FindUniversity | src/PublicMap.jsx:74-77 | the university found is the first that matches; none is found only when none matches |
| UniversityMaps.Fallback | src/PublicMap.jsx:67-84 | the fallback reads by id, then reads the list, then at most reads the match by id; a loaded university is what that last read returned |
| UniversityMaps.LoadMissingId | src/PublicMap.jsx:52-57 | a missing or empty `uni` parameter is the only way to get the missing-id outcome, and it reads nothing |
| UniversityMaps.LoadReads | src/PublicMap.jsx:64-71 | the first read is by the parameter, and the list of all universities is read exactly when that read fails |
| UniversityMaps.LoadDirect | src/PublicMap.jsx:114-124 | a read by id that returns data loads that university, with no other read |
| UniversityMaps.LoadedSpec | src/PublicMap.jsx:86-124 | a loaded university is some read's data, shown with its admin buildings first and each group in its loaded order |
| UniversityMaps.FallbackMatches | src/PublicMap.jsx:72-82 | after a failed read by id, the matching university is read exactly when some university of the list matches |
| UniversityMaps.GoogleMapsUrlSpec | src/PublicMap.jsx:242-255 | a URL exists exactly when a building is selected; it is a walking-directions URL exactly when the location is known, else the search URL for the building; either way it names the building's latitude and longitude |
| UniversityMaps.LinksEndWithId | src/AdminDashboard.jsx:91-98 | the public-map and embed links start with the origin and end with `?uni=` and the id |
| PublicMap.RoomHit | src/PublicMap.jsx:157-164 | a room contributes at most one building, which is loaded and is the room's building |
| PublicMap.HitsLoaded | src/PublicMap.jsx:157-164 | every building contributed by the rooms is a loaded building |
| PublicMap.MergeSpec | src/PublicMap.jsx:145-167 | the merged list has unique ids: the direct hits first, then the loaded buildings of matching rooms not already present, and exactly the ids of both |
| PublicMap.PushStep | src/PublicMap.jsx:149-154 | one direct hit is pushed exactly when its id is new, and its id is then seen |
| PublicMap.RoomStep | src/PublicMap.jsx:157-164 | one room pushes its loaded building exactly when the room names a building not yet seen, and only then adds the id |
| PublicMap.MergeDirect | src/PublicMap.jsx:145-154 | the first loop keeps each direct hit whose id is new, and ends with the ids of all of them |
| PublicMap.MergeRooms | src/PublicMap.jsx:157-165 | the second loop completes exactly the merged list |
| PublicMap.MergeHits | src/PublicMap.jsx:145-167 | the two loops, with an absent list read as empty, give the merged list |
| PublicMap.LocalSearch | src/PublicMap.jsx:172-178 | a building is kept exactly when its name, category, a department, a facility or a key office's name contains the query, ignoring case; the order is kept |
| PublicMap.PublicMapPage.constructor | src/PublicMap.jsx:17-33 | nothing loaded yet, loading, the modal shown, the sidebar shown and desktop assumed |
| PublicMap.PublicMapPage.CheckMobile | src/PublicMap.jsx:36-46 | a window at most 768 wide is mobile and hides the sidebar; a wider one leaves the sidebar as it was |
| PublicMap.PublicMapPage.ToggleSidebar | src/PublicMap.jsx:369 | the sidebar flips |
| PublicMap.PublicMapPage.Load | src/PublicMap.jsx:50-135 | loading ends; a loaded university is shown with its sorted buildings, and every other outcome shows its own message and keeps the page |
| PublicMap.PublicMapPage.Show | src/PublicMap.jsx:86-131 | a loaded outcome sets the university and both building lists; any other outcome sets its message only |
| PublicMap.PublicMapPage.Search | src/PublicMap.jsx:137-187 | an empty query shows every building; a successful reply shows the merge; a reported failure keeps the list; a thrown error shows the local search |
| PublicMap.PublicMapPage.BuildingClick | src/PublicMap.jsx:208-230 | the building is selected with the modal and no directions, and its office rooms are listed when the read succeeds; on mobile the sidebar closes, on desktop it stays as it was |
| PublicMap.PublicMapPage.LocationFound | src/PublicMap.jsx:192-197 | the position found becomes the user's location |
| PublicMap.PublicMapPage.ShowDirections | src/PublicMap.jsx:232-240 | without a location the visitor is prompted and nothing is shown; with one the directions replace the modal |
| PublicMap.PublicMapPage.OpenInGoogleMaps | src/PublicMap.jsx:242-255 | the URL opened is the one chosen for the selection and the location, none without a selection |
| PublicMap.OfficeRoomsSpec | src/PublicMap.jsx:224 | exactly the building's rooms that are offices, in order |
| EmbedMap.OfficesSpec | src/EmbedMap.jsx:376-385 | the first three offices are shown in order, and a "+N more offices" line appears exactly when there are more than three, N counting the rest |
| EmbedMap.FacilitiesLineSpec | src/EmbedMap.jsx:390-395 | up to three facilities read back as the list; more show the first three and " +N more" with N the rest |
| EmbedMap.FullMapUrlIsPublicLink | src/EmbedMap.jsx:247-249 | the full-map link is the university's public-map link |
| EmbedMap.EmbedMapPage.constructor | src/EmbedMap.jsx:14-22 | nothing loaded yet, loading, no selection and no modal |
| EmbedMap.EmbedMapPage.Load | src/EmbedMap.jsx:81-140 | loading ends; a loaded university is shown with its sorted buildings, and every other outcome shows the embed page's own message |
| EmbedMap.EmbedMapPage.Show | src/EmbedMap.jsx:114-135 | a loaded outcome sets the university and its buildings; any other outcome sets its message only |
| EmbedMap.EmbedMapPage.BuildingClick | src/EmbedMap.jsx:142-160 | the building is selected with the modal and no directions, and its office rooms are listed when the read succeeds |
| EmbedMap.EmbedMapPage.LocationFound | src/EmbedMap.jsx:168-174 | the position found becomes the user's location |
| EmbedMap.EmbedMapPage.ShowDirections | src/EmbedMap.jsx:196-205 | without a location, location is requested only when the visitor agrees and nothing is shown; with one the directions replace the modal |
| EmbedMap.EmbedMapPage.CloseModal | src/EmbedMap.jsx:222-229 | nothing selected, no directions and no modal |
| SuperAdminDashboard.SuperAdminRedirect | src/SuperAdminDashboard.jsx:36-46 | no redirect exactly for a super admin; the login page exactly without a session; the admin dashboard for a regular admin |
| SuperAdminDashboard.PaddedSeconds | src/SuperAdminDashboard.jsx:72-73 | the seconds below sixty are padded to exactly two digits that read back as the seconds |
| SuperAdminDashboard.FormatTimeRoundTrip | src/SuperAdminDashboard.jsx:70-74 | the countdown text `m:ss` reads back as the number of seconds it was made from |
| SuperAdminDashboard.Tick | src/SuperAdminDashboard.jsx:57-64 | a tick at one second or less logs out and leaves zero; otherwise it counts down by one and stays at least one |
| SuperAdminDashboard.CountdownEnds | src/SuperAdminDashboard.jsx:53-68 | from a full counter of N seconds the timer never goes below zero, counts down one per tick, and logs out exactly at the N-th tick |
| SuperAdminDashboard.IsTimerCritical | src/SuperAdminDashboard.jsx:179 | the timer is critical exactly while the clock shows 0 or 1 minute, or 2:00 exactly |
| SuperAdminDashboard.CriticalInLastTwoMinutes | src/SuperAdminDashboard.jsx:56-65 | counting down from a full counter, the timer is critical exactly once at most two minutes are left, and stays so after the logout |
| SuperAdminDashboard.RecentActivity | src/SuperAdminDashboard.jsx:104 | the recent list holds five universities, or all of them when there are fewer |
| SuperAdminDashboard.RecentActivityReversed | src/SuperAdminDashboard.jsx:104 | the recent list is the end of the list read backwards, the last university first |
| SuperAdminDashboard.SuperAdminDashboardPage.constructor | src/SuperAdminDashboard.jsx:23-32 | no universities, zero statistics, loading, and ten minutes on the timer |
| SuperAdminDashboard.SuperAdminDashboardPage.TimerTick | src/SuperAdminDashboard.jsx:56-65 | one second of the timer: at one second or less it logs out and shows zero, otherwise one second less; never negative |
| SuperAdminDashboard.SuperAdminDashboardPage.ExtendSession | src/SuperAdminDashboard.jsx:76-81 | the timer restarts at ten minutes only when the extension succeeded |
| SuperAdminDashboard.SuperAdminDashboardPage.LoadUniversities | src/SuperAdminDashboard.jsx:83-114 | a failed read only ends loading; otherwise the list, null as empty, is shown, and the statistics are replaced, with the recent list, only when their read succeeded |
| SuperAdminDashboard.PublicMapPath | src/SuperAdminDashboard.jsx:125-127 | the link opened is the university's public-map link on the same site |
| SuperAdminMap.FilterUniversitiesSpec | src/SuperAdminMap.jsx:55-65 | an empty query keeps every university; another keeps, in order, exactly those whose name or city contains it, ignoring case |
| SuperAdminMap.Detailed | src/SuperAdminMap.jsx:84-90 | a university whose detail read fails keeps its summary |
| SuperAdminMap.FindAdmin | src/SuperAdminMap.jsx:100 | the first admin building of the list, and none only when no building is an admin building |
| SuperAdminMap.DisplayBuildings | src/SuperAdminMap.jsx:97-112 | one marker per university that has buildings |
| SuperAdminMap.DisplayBuildingsSpec | src/SuperAdminMap.jsx:97-112 | each marker stands for its university under its id and city, at its first admin building when it has one and else at its first building, flagged admin exactly when it has an admin building; every university with buildings has a marker |
| SuperAdminMap.DisplayIdsUnique | src/SuperAdminMap.jsx:97-112 | universities with distinct ids get markers with distinct ids |
| SuperAdminMap.FilterNoDupIds | src/SuperAdminMap.jsx:98 | keeping the universities with buildings keeps their ids distinct |
| SuperAdminMap.BuildingCountLabelSpec | src/SuperAdminMap.jsx:108 | the label starts with the count's digits, which read back as the count, and ends in "s" exactly when the count is not one |
| SuperAdminMap.SuperAdminMapPage.constructor | src/SuperAdminMap.jsx:17-24 | nothing loaded, nothing selected, the sidebar shown, loading |
| SuperAdminMap.SuperAdminMapPage.LoadUniversities | src/SuperAdminMap.jsx:67-120 | a failed list read only ends loading; otherwise each university is replaced by its detail when that read works, shown unfiltered, with the markers derived from them |
| SuperAdminMap.SuperAdminMapPage.SetSearchQuery | src/SuperAdminMap.jsx:55-65 | the filtered list follows the query over the loaded universities |
| SuperAdminMap.SuperAdminMapPage.CheckMobile | src/SuperAdminMap.jsx:39-45 | a window at most 768 wide is mobile and hides the sidebar; a wider one leaves the sidebar as it was |
| SuperAdminMap.SuperAdminMapPage.UniversityClick | src/SuperAdminMap.jsx:122-127 | the marker's university is selected and, on mobile, the sidebar is hidden |
| SuperAdminMap.ViewLink | src/SuperAdminMap.jsx:129-131 | the link opened ends with `?uni=` and the university's id |
| AdminDashboard.DashboardRedirect | src/AdminDashboard.jsx:25-31 | the page redirects to the login page exactly when there is no session |
| AdminDashboard.TotalRooms | src/AdminDashboard.jsx:114-120 | nothing loaded, or no building list, counts zero; otherwise the sum over the buildings |
| AdminDashboard.SumRoomsConcat | src/AdminDashboard.jsx:116-119 | the total of two lists of buildings is the sum of their totals |
| AdminDashboard.SumRoomsSplit | src/AdminDashboard.jsx:116-119 | splitting the buildings by any property splits the total, so the total does not depend on the order |
| AdminDashboard.TotalRoomsAdminFirst | src/AdminDashboard.jsx:116-119 | listing the buildings admin first, as the maps do, leaves the total unchanged |
| AdminDashboard.SumRoomsBounds | src/AdminDashboard.jsx:116-119 | with no negative count the total is non-negative and at least every building's own count |
| AdminDashboard.SumRoomsSingle | src/AdminDashboard.jsx:117 | a building counts its aggregated room count when that is non-zero, and its `room_count` otherwise |
| AdminDashboard.EmbedCode | src/AdminDashboard.jsx:97-105 | the embed code is the fixed iframe opening and closing around the university's embed link |
| AdminDashboard.EmbedCodeInjective | src/AdminDashboard.jsx:97-105 | different universities get different embed codes |
| AdminDashboard.RecentBuildings | src/AdminDashboard.jsx:264 | the first three buildings in order, or all when there are fewer |
| AdminDashboard.AdminDashboardPage.constructor | src/AdminDashboard.jsx:16-20 | nothing loaded, no modal, no building edited or awaiting deletion, no copy notice |
| AdminDashboard.AdminDashboardPage.AddBuildingClicked | src/AdminDashboard.jsx:43-46 | the modal opens with an empty form |
| AdminDashboard.AdminDashboardPage.EditBuildingClicked | src/AdminDashboard.jsx:48-51 | the modal opens on the building |
| AdminDashboard.AdminDashboardPage.SaveBuilding | src/AdminDashboard.jsx:53-72 | the edited building is updated, else a building is added; success reloads the university, closes the modal and ends editing; failure alerts "Error: " and the error and changes nothing else |
| AdminDashboard.AdminDashboardPage.DeleteBuildingClicked | src/AdminDashboard.jsx:74-76 | the building awaits confirmation |
| AdminDashboard.AdminDashboardPage.ConfirmDelete | src/AdminDashboard.jsx:78-88 | a delete is made exactly when a non-empty id awaits confirmation; success reloads and clears the confirmation, failure alerts and keeps it |
| AdminDashboard.AdminDashboardPage.CopyPublicLink | src/AdminDashboard.jsx:90-95 | the link copied is the university's public-map link under the origin, and the copy notice shows |
| AdminDashboard.AdminDashboardPage.CopyEmbedCode | src/AdminDashboard.jsx:107-111 | the text copied is the university's iframe code, which contains its embed link, and the copy notice shows |
| AdminDashboard.AdminDashboardPage.CopyTimerElapsed | src/AdminDashboard.jsx:94 | the copy notice is hidden again |
| AdminLogin.LoginRedirect | src/AdminLogin.jsx:38-46 | a signed-in visitor is sent on exactly when there is a session: a super admin to the super-admin dashboard, anyone else to the admin dashboard |
| AdminLogin.WithSpec | src/AdminLogin.jsx:48-52 | setting a field changes that field to the value and no other |
| AdminLogin.ValidationSpec | src/AdminLogin.jsx:54-83 | the form passes exactly when it is acceptable; a registration form that passes also passes as a login form; each message names a condition that fails while the earlier ones hold |
| AdminLogin.AdminLoginPage.constructor | src/AdminLogin.jsx:20-33 | login mode, an empty form, no message, no reset form |
| AdminLogin.AdminLoginPage.ChangeField | src/AdminLogin.jsx:48-52 | the named field takes the value and both messages are cleared |
| AdminLogin.AdminLoginPage.SelectMode | src/AdminLogin.jsx:267-287 | the tab's mode is chosen and both messages are cleared |
| AdminLogin.AdminLoginPage.ToggleMode | src/AdminLogin.jsx:401-408 | the other mode is chosen and both messages are cleared |
| AdminLogin.AdminLoginPage.ValidateForm | src/AdminLogin.jsx:54-83 | the form passes exactly when it is acceptable; a refused form shows the message of its first failing check |
| AdminLogin.AdminLoginPage.Submit | src/AdminLogin.jsx:85-129 | an unacceptable form makes no call; otherwise it registers or logs in with the form's values; a registration shows its message and clears the form, and a failure shows its error or the fallback |
| AdminLogin.AdminLoginPage.OpenForgotPassword | src/AdminLogin.jsx:387-392 | the reset form is shown |
| AdminLogin.AdminLoginPage.ForgotPassword | src/AdminLogin.jsx:131-159 | a blank address is refused without a call; otherwise the reset is requested for the trimmed address, and success shows the sent screen while failure shows its error |
| AdminLogin.AdminLoginPage.ChangeForgotEmail | src/AdminLogin.jsx:131-159 | the reset form's address takes the value |
| AdminLogin.AdminLoginPage.BackToLogin | src/AdminLogin.jsx:162-168 | the reset form is left and forgotten, and both messages are cleared |
| SuperAdminLogin.SuperLoginRedirect | src/SuperAdminLogin.jsx:29-33 | the page redirects to the super-admin dashboard exactly for a super-admin session |
| SuperAdminLogin.GeneratedKeySubmitsUnchanged | src/SuperAdminLogin.jsx:247-256 | a generated key fits the six-character input and survives the trim, so typing it submits exactly that key |
| SuperAdminLogin.SuperAdminLoginPage.constructor | src/SuperAdminLogin.jsx:16-24 | no key, no message, nothing sent or in progress, not yet initialised |
| SuperAdminLogin.SuperAdminLoginPage.SubmitEnabled | src/SuperAdminLogin.jsx:268 | the submit button is enabled only once the key e-mail was sent and while neither a login nor a send is in progress |
| SuperAdminLogin.SuperAdminLoginPage.SendSecretKeyEmail | src/SuperAdminLogin.jsx:43-61 | success marks the key as sent and enables submit unless a login is in progress; failure shows the fixed message and leaves the sent flag and the submit button as they were; sending ends |
| SuperAdminLogin.SuperAdminLoginPage.Mount | src/SuperAdminLogin.jsx:36-41 | the key e-mail is requested exactly on the first run, and a later run changes nothing; a successful first send enables submit unless a login is in progress |
| SuperAdminLogin.SuperAdminLoginPage.ChangeKey | src/SuperAdminLogin.jsx:247-256 | the key field keeps at most six characters of the input |
| SuperAdminLogin.SuperAdminLoginPage.Submit | src/SuperAdminLogin.jsx:63-88 | a blank key is refused without a call; otherwise the trimmed key is verified, success navigates to the dashboard and failure shows the error or "Invalid secret key" |
| SuperAdminLogin.SuperAdminLoginPage.ResendKey | src/SuperAdminLogin.jsx:90-94 | the typed key and the message are cleared and a new key is sent |
| SuperAdminLogin.SuperAdminLoginPage.OpenForgotPassword | src/SuperAdminLogin.jsx:296-299 | the reset form is shown |
| SuperAdminLogin.SuperAdminLoginPage.ChangeForgotEmail | src/SuperAdminLogin.jsx:96-121 | the reset form's address takes the value |
| SuperAdminLogin.SuperAdminLoginPage.ForgotPassword | src/SuperAdminLogin.jsx:96-121 | a blank address is refused without a call; otherwise the reset is requested for the trimmed address, and success shows the sent screen while failure shows its error |
| SuperAdminLogin.SuperAdminLoginPage.BackToLogin | src/SuperAdminLogin.jsx:123-128 | the reset form is left and forgotten and the message cleared |
| MapPreset.PresetBands | src/Map/index.jsx:75-88 | the preset is dawn for hours 5 to 7, day for 8 to 17, dusk for 18 to 20 and night otherwise, each in both directions |
| MapPreset.PresetChanges | src/Map/index.jsx:79-86 | over a day the preset changes exactly at 5, 8, 18 and 21 o'clock, each time to the next preset in the cycle |
| MapPreset.PresetNameInjective | src/Map/index.jsx:80-86 | the four presets have four different names |
| MapUtil.Feature.constructor | src/Map/util.js:17-20 | a feature keeps its name and category and has no image yet |
| MapUtil.ImageFor | src/Map/util.js:6-19 | every feature is given one of the listed images, never an empty path |
| MapUtil.ImageForSpec | src/Map/util.js:6-19 | the first eight features take the image at their position, every later one the first image |
| MapUtil.GetFeatures | src/Map/util.js:17-21 | the same features come back in order, each now carrying the image for its position |
| App.LocalResultsSpec | src/App.jsx:79-91 | a query of at most one character finds nothing; a longer one finds, in catalogue order, exactly the features whose name or category contains it ignoring case |
| App.LocalResultsCaseInsensitive | src/App.jsx:82-86 | lower-casing the query does not change the results |
| App.HomePage.constructor | src/App.jsx:20-28 | no features shown or selected, an empty search and no results, the map view, desktop assumed, the sidebar hidden and the page loading |
| App.HomePage.CheckScreenSize | src/App.jsx:34-41 | a window of at most 768 is mobile and the sidebar shows exactly when it is not mobile |
| App.HomePage.MapLoad | src/App.jsx:51-55 | the catalogue with its images becomes the view data and loading ends |
| App.HomePage.FeatureClick | src/App.jsx:58-74 | the feature is selected, and on mobile the sidebar closes while on desktop it stays |
| App.HomePage.ModalClose | src/App.jsx:76 | nothing is selected |
| App.HomePage.LocalSearchChange | src/App.jsx:79-91 | the query is kept and the results are the local search over the catalogue |
| App.HomePage.SearchResultClick | src/App.jsx:94-98 | the feature is selected as by a click, and the search and its results are cleared |
| App.HomePage.ToggleSidebar | src/App.jsx:101-103 | the sidebar flips |
| App.HomePage.ActiveMobileClick | src/App.jsx:106-109 | the mobile view switches between map and cards and the sidebar flips |
| Card.PluralizeSpec | src/Card.jsx:4-6 | the text is the number, a space and the word, with an `s` unless the number is one, and a trailing space; its leading digits read back as the number |
| Card.BadgesShowAll | src/Card.jsx:44-61 | in the large card every facility gets its own badge, in order |
| Card.BadgesPastThird | src/Card.jsx:45-53 | in a small card nothing is shown from the fourth facility on |
| Card.BadgesSpec | src/Card.jsx:111-125 | the large card lists every facility; a small one lists up to two, and with three or more the first two and a "+N more" badge counting the rest |
| Card.CategoryIcon | src/Card.jsx:26-42 | a mapped category has its icon; a missing or unknown one has the building icon |
| Card.CategoryIconIsSolid | src/Card.jsx:27-39 | every icon is a solid Font Awesome class |
| Card.FloorsLabel | src/Card.jsx:94-101 | the floors line shows exactly when the floor count is present and not zero |
| Card.FloorsLabelSpec | src/Card.jsx:98 | the line starts with the count and " floor", with an `s` exactly when the count is not one |
| CookieConsent.AcceptAllConsent | src/components/CookieConsent.jsx:16-26 | a record stamped with the time of the choice and version 1.0, with essential and analytics cookies and no marketing ones |
| CookieConsent.EssentialConsent | src/components/CookieConsent.jsx:28-38 | a record stamped with the time of the choice and version 1.0, with essential cookies only |
| CookieConsent.CustomConsent | src/components/CookieConsent.jsx:40-49 | a record stamped with the time of the choice and version 1.0, with the given analytics and marketing choices, essential always on |
| CookieConsent.ConsentChoices | src/components/CookieConsent.jsx:16-49 | custom preferences always keep essential cookies, the two buttons are the custom choices they stand for, and they differ |
| CookieConsent.CookieBanner.constructor | src/components/CookieConsent.jsx:5-6 | the banner and its details are hidden and nothing is scheduled |
| CookieConsent.CookieBanner.Mount | src/components/CookieConsent.jsx:8-14 | the banner is scheduled exactly when no consent is stored |
| CookieConsent.CookieBanner.BannerTimerElapsed | src/components/CookieConsent.jsx:12 | the scheduled banner shows |
| CookieConsent.CookieBanner.ShowDetails | src/components/CookieConsent.jsx:70-109 | the details view shows or hides as asked |
| CookieConsent.CookieBanner.AcceptAll | src/components/CookieConsent.jsx:16-26 | the accept-all consent is stored and the banner hides |
| CookieConsent.CookieBanner.AcceptEssential | src/components/CookieConsent.jsx:28-38 | the essential-only consent is stored and the banner hides |
| CookieConsent.CookieBanner.SaveCustomPreferences | src/components/CookieConsent.jsx:40-49 | the custom consent is stored and the banner hides |
| Theme.InitialTheme | src/ThemeContext.jsx:6-17 | a saved non-empty theme is used; otherwise the theme is light whatever the system prefers |
| Theme.ToggleTheme | src/ThemeContext.jsx:25-27 | the toggle always yields light |
| Theme.ThemeFacts | src/ThemeContext.jsx:13-27 | the system preference never changes the initial theme, and toggling twice is toggling once |
| Theme.ThemeProvider.constructor | src/ThemeContext.jsx:6-23 | the theme starts as the initial theme, stored and set on the document |
| Theme.ThemeProvider.Persist | src/ThemeContext.jsx:19-23 | the document attribute and the stored theme agree with the theme |
| Theme.ThemeProvider.Toggle | src/ThemeContext.jsx:25-27 | the theme becomes light, and the document and storage follow |

## Left out

- Rendering, the Mapbox map, its markers, camera moves (`flyTo`) and route fetching are not modelled. They are calls into foreign libraries or network work.
- The Haversine distance and its "m"/"km" text are not modelled. They are floating-point trigonometry.
- Timers (`setTimeout`, `setInterval`) become explicit methods. These are `TimerTick`, `CheckExpiry`, `BannerTimerElapsed` and `CopyTimerElapsed`, and each takes the time as a parameter. Interleavings of the auth listener with logins, and the concurrency of `Promise.all`, are not modelled.
- `Math.random` becomes the parameter `r` in [0, 1). `Date.now` and `new Date().toISOString()` become parameters.
- `localeCompare` with numeric collation becomes an abstract comparator `numLe`. The sort lemmas require it to be a total preorder.
- `parseFloat` becomes an abstract parse result. Only that result's range checks are modelled.
- `toLowerCase` is modelled on ASCII letters only. `trim` and `\s` are modelled on ASCII white space plus NBSP and BOM. No other Unicode case mapping or white space is modelled.
- String lengths count Dafny characters, not UTF-16 code units. This matters only outside the Basic Multilingual Plane.
- Browser APIs are state or parameters:
  - localStorage and sessionStorage become class fields, and JSON encoding is not modelled;
  - clipboard text, `alert` text, navigation targets and `window.open` URLs become returned values or fields;
  - a `confirm` dialog becomes a boolean parameter;
  - geolocation becomes an optional location parameter;
  - `FileReader` becomes the file's text as a parameter.
- The database assigns row ids. The model takes them as parameters (`uniId`, `newId`), and a key row's id is its position in the key table.
- Missing and `null` values are both `None`. The model does not tell `null` apart from `undefined`, except where the code does (the update's field fallback).
- The try/catch blocks of the page handlers are not modelled beyond the error replies. A provider that throws is modelled as a failed reply.
- `registerAdmin` assumes the compensating university delete succeeds. The provider account created before a failed admin insert stays in the store, as in the code.
- `getUniversity`, `sendPasswordResetEmail` and `updatePassword` are wrappers around the store that are not modelled. Each page receives their replies as parameters.
- UniversityMaps.Fallback: `getUniversity` is a function of the id, so every read of the same id gives the same reply. When the fallback matches a university by the parameter itself, its last read, by that same id, therefore fails again as the first did. The code makes two separate network reads, and the second could succeed; the model does not capture that.
- The thin query wrappers of the database service are not modelled one by one. They are the store's tables and the replies passed in.
- The sign-up confirmation email, the email function for the super-admin key and the SMTP provider are pure I/O. They are not modelled.
- The unmark loop of `addBuilding` and `updateBuilding` ignores a failed update of a single building, as the code does. The model lets every such update succeed.
- AdminAuth.AdminAuthProvider.AddBuilding: always stores the key-office rows. The code ignores the reply of `createKeyOffices` and reports success even when that write fails and no office row is stored; the model does not capture that failure.
- AdminAuth.AdminAuthProvider.UpdateBuilding: always replaces the key-office rows. The code ignores the replies of each `deleteKeyOffice` and of `createKeyOffices` and reports success even when those writes fail, leaving old rows or no new ones; the model does not capture those failures.
- RoomEdit.RoomEditor.AddTimeSlot: treats the schedule as a value. The dialog copies the room's schedule only one level deep, so each day object stays shared with the parent's `room.timetable`. The code's write of a slot into that day object therefore also changes the parent's room and survives Cancel. The model does not capture that aliasing; only the dialog's own timetable changes.
- RoomEdit.RoomEditor.RemoveTimeSlot: treats the schedule as a value. The code's `delete` of a slot acts on the day object shared with the parent's `room.timetable`, so the parent's room loses the slot too, even after Cancel. The model does not capture that aliasing.
- RoomEdit.ServicesOf and RoomEdit.ScheduleOf: read a missing `services` or `schedule` of a loaded timetable as empty. The dialog does not guard these parts, and a timetable without them makes the page throw when it renders or submits; the model does not capture that failure.
- AdminAuth.AddKeepsOneAdmin: models the path where the list of the university's buildings could be read. When that read fails, `addBuilding` adds the admin building without unmarking, and the invariant can break.
- AdminAuth.UpdateKeepsOneAdmin: requires the building to belong to the admin's own university. It also requires that a true flag is sent in the snake_case field. The code's unmark guard reads only that field, and a super admin's update does not unmark.
- DemoMap.DemoMapPage.constructor: establishes `Valid()` only for a fresh session. A building list or flag restored from sessionStorage is taken as stored and is not checked against the sandbox rule.
- DemoMap.DemoMapPage.DeleteBuilding: keeps `Valid()` only for an id that is listed. The page offers delete only for listed buildings; a delete of an unlisted test id would clear the flag and leave the list as it was.
- The not-found screens of the public and embeddable maps are modelled as state (an error text), not as markup.
- BuildingForm: `handleChange` and the loading of a building's office rooms are not modelled. They are single field assignments and a database read.
- The delete of a whole university and the super admin's logout and navigation buttons are not modelled. They only call the store or change the route.
- SuperAdminLogin.SuperAdminLoginPage.ChangeKey: the input's `maxLength` of six is modelled as keeping the first six characters of the typed value.
- Card.Pluralize: takes a natural number. The function is exported but has no caller in the code, so it is modelled for natural numbers only.
- Card.FloorsLabel: a floor count of 0 shows no line. React would render `{floors && …}` with `floors == 0` as the text "0". The model leaves out that stray text. A card's properties come from the map's feature data, which is not part of this model, and none of the code's own data sets a floor count of 0.
- Card.CategoryIcon: models only the nine category keys. Keys inherited from `Object.prototype` are not modelled.

## Modelled as written

These parts of the code can look surprising. Each is modelled exactly as the code does it:
- The recent-activity list of the super-admin dashboard is `slice(-5).reverse()` of a list the store returns newest first (`created_at` descending). It therefore holds the five oldest universities, the oldest first. The page shows only how many there are.
- `toggleTheme` always yields `light`. The branch for a dark system preference also yields `light`.
- With exactly three facilities, a small card shows two badges and "+1 more".
- The unmark guard of `updateBuilding` reads only `is_admin_building`, while the written flag falls back to `isAdminBuilding`.
- `saveCustomPreferences` is never reached from the banner's buttons. It is modelled as a method of its own.
