/**
 * The room editor dialog: the edit form with its per-field errors, and the
 * weekly-timetable editor (a list of services, a schedule of named slots per
 * day, and a draft slot being composed).
 */
module RoomEdit {
  import opened Base
  import opened Assoc
  import opened Campus

  // ---------------------------------------------------------------------
  // The edit form
  // ---------------------------------------------------------------------

  /** The form's text fields as the inputs hold them; `floor` is the number's text, `""` when empty. */
  datatype EditFields = EditFields(
    buildingId: string,
    roomNumber: string,
    roomName: string,
    isOffice: bool,
    purpose: string,
    hours: string,
    floor: string)

  const BlankFields: EditFields := EditFields("", "", "", false, "", "", "")

  /** The inputs the form's `onChange` handler serves, by their `name` attribute. */
  datatype Field = BuildingIdField | RoomNumberField | RoomNameField | IsOfficeField | PurposeField | HoursField | FloorField

  function FieldName(f: Field): string
  {
    match f
    case BuildingIdField => "building_id"
    case RoomNumberField => "room_number"
    case RoomNameField => "room_name"
    case IsOfficeField => "is_office"
    case PurposeField => "purpose"
    case HoursField => "hours"
    case FloorField => "floor"
  }

  lemma FieldNameInjective(f: Field, g: Field)
    ensures FieldName(f) == FieldName(g) <==> f == g
  {
  }

  /** `{ ...formData, [name]: type === 'checkbox' ? checked : value }`; only the checkbox reads `checked`. */
  function SetField(e: EditFields, f: Field, value: string, checked: bool): EditFields
  {
    match f
    case BuildingIdField => e.(buildingId := value)
    case RoomNumberField => e.(roomNumber := value)
    case RoomNameField => e.(roomName := value)
    case IsOfficeField => e.(isOffice := checked)
    case PurposeField => e.(purpose := value)
    case HoursField => e.(hours := value)
    case FloorField => e.(floor := value)
  }

  /** Reading a field back after setting it gives the new value; the other fields are as they were. */
  lemma SetFieldOnly(e: EditFields, f: Field, value: string, checked: bool)
    ensures var r := SetField(e, f, value, checked);
      (r.buildingId == if f == BuildingIdField then value else e.buildingId)
      && (r.roomNumber == if f == RoomNumberField then value else e.roomNumber)
      && (r.roomName == if f == RoomNameField then value else e.roomName)
      && (r.isOffice == if f == IsOfficeField then checked else e.isOffice)
      && (r.purpose == if f == PurposeField then value else e.purpose)
      && (r.hours == if f == HoursField then value else e.hours)
      && (r.floor == if f == FloorField then value else e.floor)
  {
  }

  /** An error message is set when the key is present with a non-empty message (JavaScript truthiness). */
  predicate HasError(errors: seq<(string, string)>, name: string)
  {
    var v := Get(errors, name);
    v.Some? && v.value != ""
  }

  /** `if (errors[name]) setErrors({ ...errors, [name]: '' })`. */
  function ClearError(errors: seq<(string, string)>, name: string): seq<(string, string)>
  {
    if HasError(errors, name) then Put(errors, name, "") else errors
  }

  /** Editing a field blanks that field's error if one is shown and leaves every other error as it was. */
  lemma ClearErrorOnly(errors: seq<(string, string)>, name: string, k: string)
    ensures !HasError(ClearError(errors, name), name)
    ensures k != name ==> Get(ClearError(errors, name), k) == Get(errors, k)
    ensures !HasError(errors, name) ==> ClearError(errors, name) == errors
  {
    if HasError(errors, name) {
      GetPut(errors, name, "", name);
      GetPut(errors, name, "", k);
    }
  }

  const BuildingRequired: string := "Building is required"
  const RoomNumberRequired: string := "Room number is required"
  const RoomNameRequired: string := "Room name is required"

  /** The error object `validate` builds, one entry per failed check in the order the checks run. */
  function ValidationErrors(e: EditFields): seq<(string, string)>
  {
    (if e.buildingId == "" then [("building_id", BuildingRequired)] else [])
    + (if IsBlank(e.roomNumber) then [("room_number", RoomNumberRequired)] else [])
    + (if IsBlank(e.roomName) then [("room_name", RoomNameRequired)] else [])
  }

  /**
   * The form is valid exactly when a building is chosen and the trimmed room
   * number and name are non-empty, and each failed check leaves its message
   * under its own field name.
   */
  lemma ValidationErrorsSpec(e: EditFields)
    ensures ValidationErrors(e) == [] <==> e.buildingId != "" && !IsBlank(e.roomNumber) && !IsBlank(e.roomName)
    ensures Get(ValidationErrors(e), "building_id") == if e.buildingId == "" then Some(BuildingRequired) else None
    ensures Get(ValidationErrors(e), "room_number") == if IsBlank(e.roomNumber) then Some(RoomNumberRequired) else None
    ensures Get(ValidationErrors(e), "room_name") == if IsBlank(e.roomName) then Some(RoomNameRequired) else None
  {
    var a := if e.buildingId == "" then [("building_id", BuildingRequired)] else [];
    var b := if IsBlank(e.roomNumber) then [("room_number", RoomNumberRequired)] else [];
    var c := if IsBlank(e.roomName) then [("room_name", RoomNameRequired)] else [];
    GetConcat(a, b + c, "building_id");
    GetConcat(a, b + c, "room_number");
    GetConcat(a, b + c, "room_name");
    GetConcat(b, c, "building_id");
    GetConcat(b, c, "room_number");
    GetConcat(b, c, "room_name");
    ConcatAssoc(a, b, c);
  }

  /** What `handleSubmit` passes to `onSave` besides the room id. */
  datatype RoomUpdate = RoomUpdate(
    buildingId: string,
    roomNumber: string,
    roomName: string,
    isOffice: bool,
    purpose: Option<string>,
    hours: Option<string>,
    floor: Option<int>,
    timetable: Option<Timetable>)

  /** `formData.is_office && value ? value.trim() : null`. */
  function OfficeText(isOffice: bool, value: string): (r: Option<string>)
    ensures r.Some? <==> isOffice && value != ""
    ensures r.Some? ==> r.value == Trim(value)
  {
    if isOffice && value != "" then Some(Trim(value)) else None
  }

  /** `formData.floor ? parseInt(formData.floor) : null`, with a `NaN` parse stored as no floor. */
  function FloorValue(text: string): (r: Option<int>)
    ensures text == "" ==> r == None
  {
    if text == "" then None else ParseInt(text)
  }

  /** A timetable is sent only while the editor is open and it has a service or a scheduled day. */
  function SubmittedTimetable(showTimetable: bool, services: seq<string>, schedule: Schedule, notes: string): (t: Option<Timetable>)
    ensures t.Some? <==> showTimetable && (|services| > 0 || |schedule| > 0)
    ensures t.Some? ==> t.value.services == Some(services) && t.value.schedule == Some(schedule) && t.value.notes == Some(notes)
  {
    if showTimetable && (|services| > 0 || |schedule| > 0) then Some(Timetable(Some(services), Some(schedule), Some(notes)))
    else None
  }

  function Submitted(e: EditFields, timetable: Option<Timetable>): RoomUpdate
  {
    RoomUpdate(e.buildingId, Trim(e.roomNumber), Trim(e.roomName), e.isOffice,
               OfficeText(e.isOffice, e.purpose), OfficeText(e.isOffice, e.hours), FloorValue(e.floor), timetable)
  }

  // ---------------------------------------------------------------------
  // Loading a room
  // ---------------------------------------------------------------------

  /** `room.x || ''` for an optional text column. */
  function TextOrEmpty(v: Option<string>): string
  {
    if v.Some? then v.value else ""
  }

  /** `room.floor || ''`: floor 0 is falsy, so it loads as an empty field. */
  function FloorText(floor: Option<int>): (r: string)
    ensures r == "" <==> floor.None? || floor.value == 0
  {
    if floor.Some? && floor.value != 0 then IntToString(floor.value) else ""
  }

  function LoadFields(room: Room): EditFields
  {
    EditFields(room.buildingId, room.roomNumber, room.roomName, room.isOffice,
               TextOrEmpty(room.purpose), TextOrEmpty(room.hours), FloorText(room.floor))
  }

  /** The floor survives loading and saving unchanged, except that floor 0 is saved as no floor. */
  lemma FloorRoundTrip(floor: Option<int>)
    ensures FloorValue(FloorText(floor)) == if floor == Some(0) then None else floor
  {
    if floor.Some? && floor.value != 0 {
      ParseIntToString(floor.value);
    }
  }

  /** A text without white space at either end and not empty. */
  predicate Tidy(x: string)
  {
    x != [] && !IsSpace(x[0]) && !IsSpace(x[|x| - 1])
  }

  /** The optional office columns as the form writes them back. */
  predicate OfficeColumn(isOffice: bool, v: Option<string>)
  {
    if isOffice then v.None? || Tidy(v.value) else v.None?
  }

  /**
   * Opening a room that the form itself could have written and saving it
   * without edits sends back exactly its columns (the timetable aside).
   */
  lemma LoadSubmitRoundTrip(room: Room, timetable: Option<Timetable>)
    requires room.buildingId != "" && Tidy(room.roomNumber) && Tidy(room.roomName)
    requires OfficeColumn(room.isOffice, room.purpose) && OfficeColumn(room.isOffice, room.hours)
    requires room.floor != Some(0)
    ensures ValidationErrors(LoadFields(room)) == []
    ensures Submitted(LoadFields(room), timetable)
      == RoomUpdate(room.buildingId, room.roomNumber, room.roomName, room.isOffice, room.purpose, room.hours, room.floor, timetable)
  {
    TrimNoOuterSpace(room.roomNumber);
    TrimNoOuterSpace(room.roomName);
    FloorRoundTrip(room.floor);
    if room.purpose.Some? { TrimNoOuterSpace(room.purpose.value); }
    if room.hours.Some? { TrimNoOuterSpace(room.hours.value); }
  }

  // ---------------------------------------------------------------------
  // Services
  // ---------------------------------------------------------------------

  /**
   * `addService`: appends the trimmed input when it is not blank and not
   * listed yet; the input box is cleared only when something was appended.
   */
  function AddService(services: seq<string>, input: string): (r: (seq<string>, string))
    ensures var t := Trim(input);
      (r.0 == services || r.0 == services + [t])
      && (r.0 != services <==> !IsBlank(input) && t !in services)
      && (r.1 == if r.0 == services then input else "")
  {
    var t := Trim(input);
    if t != "" && t !in services then (services + [t], "") else (services, input)
  }

  /** `addService` keeps the list free of duplicates. */
  lemma AddServiceNoDup(services: seq<string>, input: string)
    requires NoDup(services)
    ensures NoDup(AddService(services, input).0)
  {
    var t := Trim(input);
    if t != "" && t !in services {
      var r := services + [t];
      forall i, j | 0 <= i < j < |r| ensures r[i] != r[j] {
        if j == |services| { assert r[i] == services[i]; }
      }
    }
  }

  predicate Differs(x: string, service: string) { service != x }

  /** `removeService`: keeps every entry different from the removed one. */
  function RemoveService(services: seq<string>, x: string): (r: seq<string>)
  {
    Filter(services, s => Differs(x, s))
  }

  /** The removed service is gone, every other one stays, in its order, and no duplicate appears. */
  lemma RemoveServiceSpec(services: seq<string>, x: string, y: string)
    ensures y in RemoveService(services, x) <==> y in services && y != x
    ensures IsSubseq(RemoveService(services, x), services)
    ensures NoDup(services) ==> NoDup(RemoveService(services, x))
  {
    FilterMember(services, s => Differs(x, s), y);
    FilterSubseq(services, s => Differs(x, s));
    if NoDup(services) {
      FilterNoDup(services, s => Differs(x, s));
    }
  }

  /** `toggleSlotService`: drops every copy of a listed service, appends an unlisted one. */
  function ToggleService(services: seq<string>, x: string): (r: seq<string>)
  {
    if x in services then RemoveService(services, x) else services + [x]
  }

  /** Toggling flips the membership of that service and of no other. */
  lemma ToggleServiceMembership(services: seq<string>, x: string, y: string)
    ensures y in ToggleService(services, x) <==> if y == x then x !in services else y in services
  {
    if x in services {
      RemoveServiceSpec(services, x, y);
    }
  }

  /**
   * Toggling twice gives the draft its services back: the same members
   * always, and the very same list when the service was not listed.
   */
  lemma ToggleServiceTwice(services: seq<string>, x: string, y: string)
    ensures y in ToggleService(ToggleService(services, x), x) <==> y in services
    ensures x !in services ==> ToggleService(ToggleService(services, x), x) == services
  {
    ToggleServiceMembership(services, x, y);
    ToggleServiceMembership(ToggleService(services, x), x, y);
    if x !in services {
      FilterConcat(services, [x], s => Differs(x, s));
      FilterKeepAll(services, s => Differs(x, s));
      assert Filter([x], s => Differs(x, s)) == [];
    }
  }

  // ---------------------------------------------------------------------
  // Slots and the schedule
  // ---------------------------------------------------------------------

  /** `.replace(/\s+/g, '_')`: every run of white space becomes one underscore. */
  function Underscored(s: string): (r: string)
    ensures forall i :: 0 <= i < |r| ==> !IsSpace(r[i])
    ensures (forall i :: 0 <= i < |s| ==> !('A' <= s[i] <= 'Z')) ==> forall i :: 0 <= i < |r| ==> !('A' <= r[i] <= 'Z')
    decreases |s|
  {
    if s == [] then []
    else if IsSpace(s[0]) then
      TrimStartSuffix(s[1..]);
      "_" + Underscored(TrimStart(s[1..]))
    else [s[0]] + Underscored(s[1..])
  }

  /** The key a new slot is stored under: its name lower-cased with white space runs replaced. */
  function SlotKey(name: string): (k: string)
    ensures forall i :: 0 <= i < |k| ==> !IsSpace(k[i])
  {
    Underscored(ToLower(name))
  }

  lemma {:induction false} UnderscoredNoSpace(s: string)
    requires forall i :: 0 <= i < |s| ==> !IsSpace(s[i])
    ensures Underscored(s) == s
    decreases |s|
  {
    if s != [] {
      UnderscoredNoSpace(s[1..]);
      assert [s[0]] + s[1..] == s;
    }
  }

  lemma ToLowerNoUpper(s: string)
    requires forall i :: 0 <= i < |s| ==> !('A' <= s[i] <= 'Z')
    ensures ToLower(s) == s
  {
  }

  /** A slot key is already normal: keying it again gives it back. */
  lemma SlotKeyIdempotent(name: string)
    ensures SlotKey(SlotKey(name)) == SlotKey(name)
  {
    var k := SlotKey(name);
    var l := ToLower(name);
    assert forall i :: 0 <= i < |l| ==> !('A' <= l[i] <= 'Z');
    ToLowerNoUpper(k);
    UnderscoredNoSpace(k);
  }

  /** The slot being composed in the slot editor. */
  datatype SlotDraft = SlotDraft(name: string, time: string, services: seq<string>)

  const BlankDraft: SlotDraft := SlotDraft("", "", [])

  /** A schedule in which every day listed has at least one slot. */
  ghost predicate NoEmptyDay(schedule: Schedule)
  {
    forall i :: 0 <= i < |schedule| ==> schedule[i].1 != []
  }

  predicate DayNonEmpty(d: DaySchedule) { d != [] }

  /** The schedule after `addTimeSlot` stored `slot` under `key` on `day`. */
  function WithSlot(schedule: Schedule, day: string, key: string, slot: Slot): Schedule
  {
    Put(schedule, day, Put(DayOf(schedule, day), key, slot))
  }

  /** The day gets the slot, keeping its other slots; every other day is unchanged; no empty day appears. */
  lemma WithSlotSpec(schedule: Schedule, day: string, key: string, slot: Slot, otherDay: string, otherKey: string)
    ensures Get(WithSlot(schedule, day, key, slot), otherDay) == if otherDay == day then Some(Put(DayOf(schedule, day), key, slot)) else Get(schedule, otherDay)
    ensures Get(DayOf(WithSlot(schedule, day, key, slot), day), otherKey) == if otherKey == key then Some(slot) else Get(DayOf(schedule, day), otherKey)
    ensures Keys(WithSlot(schedule, day, key, slot)) == if day in Keys(schedule) then Keys(schedule) else Keys(schedule) + [day]
    ensures NoEmptyDay(schedule) ==> NoEmptyDay(WithSlot(schedule, day, key, slot))
  {
    var d := Put(DayOf(schedule, day), key, slot);
    GetPut(schedule, day, d, otherDay);
    GetPut(schedule, day, d, day);
    GetPut(DayOf(schedule, day), key, slot, otherKey);
    KeysPut(schedule, day, d);
    if NoEmptyDay(schedule) {
      PutNonEmpty(DayOf(schedule, day), key, slot);
      PutValues(schedule, day, d, DayNonEmpty);
    }
  }

  /** The schedule after `removeTimeSlot`: the slot is deleted, and the day with it once it has none left. */
  function WithoutSlot(schedule: Schedule, day: string, key: string): Schedule
  {
    var d := Remove(DayOf(schedule, day), key);
    if d == [] then Remove(schedule, day) else Put(schedule, day, d)
  }

  /** The slot is gone, the day's other slots and all other days are untouched, and no empty day is introduced. */
  lemma WithoutSlotSpec(schedule: Schedule, day: string, key: string, otherDay: string, otherKey: string)
    ensures Get(DayOf(WithoutSlot(schedule, day, key), day), key) == None
    ensures otherKey != key ==> Get(DayOf(WithoutSlot(schedule, day, key), day), otherKey) == Get(DayOf(schedule, day), otherKey)
    ensures otherDay != day ==> Get(WithoutSlot(schedule, day, key), otherDay) == Get(schedule, otherDay)
    ensures NoEmptyDay(schedule) ==> NoEmptyDay(WithoutSlot(schedule, day, key))
    ensures Get(WithoutSlot(schedule, day, key), day) != Some([])
  {
    var d := Remove(DayOf(schedule, day), key);
    GetRemove(DayOf(schedule, day), key, key);
    GetRemove(DayOf(schedule, day), key, otherKey);
    if d == [] {
      GetRemove(schedule, day, day);
      GetRemove(schedule, day, otherDay);
      if NoEmptyDay(schedule) { RemoveValues(schedule, day, DayNonEmpty); }
    } else {
      GetPut(schedule, day, d, day);
      GetPut(schedule, day, d, otherDay);
      if NoEmptyDay(schedule) { PutValues(schedule, day, d, DayNonEmpty); }
    }
  }

  predicate DayActive(schedule: Schedule, day: string) { DayOf(schedule, day) != [] }

  /** `getActiveDays`: the weekdays that have at least one slot, Monday first. */
  function ActiveDays(schedule: Schedule): seq<string>
  {
    Filter(Days, day => DayActive(schedule, day))
  }

  lemma ActiveDaysSpec(schedule: Schedule, day: string)
    ensures day in ActiveDays(schedule) <==> day in Days && Get(schedule, day).Some? && Get(schedule, day).value != []
    ensures IsSubseq(ActiveDays(schedule), Days)
  {
    FilterMember(Days, d => DayActive(schedule, d), day);
    FilterSubseq(Days, d => DayActive(schedule, d));
  }

  /** `getBuildingName`: the name of the first building with the id, else "Unknown". */
  function BuildingName(buildings: seq<Building>, id: string): (r: string)
    ensures (forall i :: 0 <= i < |buildings| ==> buildings[i].id != id) ==> r == "Unknown"
    ensures (exists i :: 0 <= i < |buildings| && buildings[i].id == id) ==>
      exists i :: 0 <= i < |buildings| && buildings[i].id == id && buildings[i].name == r
        && forall j :: 0 <= j < i ==> buildings[j].id != id
  {
    if buildings == [] then "Unknown"
    else if buildings[0].id == id then buildings[0].name
    else
      var r := BuildingName(buildings[1..], id);
      assert forall j :: 0 <= j < |buildings| - 1 ==> buildings[1..][j] == buildings[j + 1];
      r
  }

  // ---------------------------------------------------------------------
  // The dialog
  // ---------------------------------------------------------------------

  /** A stored timetable as the editor holds it: missing parts read as empty. */
  function ServicesOf(t: Timetable): seq<string> { if t.services.Some? then t.services.value else [] }
  function ScheduleOf(t: Timetable): Schedule { if t.schedule.Some? then t.schedule.value else [] }
  function NotesOf(t: Timetable): string { TextOrEmpty(t.notes) }

  class RoomEditor {
    var form: EditFields
    var errors: seq<(string, string)>
    var showTimetable: bool
    var services: seq<string>
    var schedule: Schedule
    var notes: string
    var newService: string
    var newSlot: SlotDraft
    var editingDay: Option<string>
    /** The id of the room being edited; `None` when the dialog has no room. */
    var roomId: Option<string>

    /** The initial state, then the load effect for the given room. */
    constructor (room: Option<Room>)
      ensures form == if room.Some? then LoadFields(room.value) else BlankFields
      ensures errors == [] && newService == "" && newSlot == BlankDraft && editingDay == None
      ensures roomId == if room.Some? then Some(room.value.id) else None
      ensures showTimetable <==> room.Some? && room.value.timetable.Some?
      ensures if room.Some? && room.value.timetable.Some? then
          services == ServicesOf(room.value.timetable.value) && schedule == ScheduleOf(room.value.timetable.value)
          && notes == NotesOf(room.value.timetable.value)
        else services == [] && schedule == [] && notes == ""
    {
      form := BlankFields;
      errors := [];
      showTimetable := false;
      services := [];
      schedule := [];
      notes := "";
      newService := "";
      newSlot := BlankDraft;
      editingDay := None;
      roomId := None;
      if room.Some? {
        form := LoadFields(room.value);
        roomId := Some(room.value.id);
        if room.value.timetable.Some? {
          var t := room.value.timetable.value;
          services := ServicesOf(t);
          schedule := ScheduleOf(t);
          notes := NotesOf(t);
          showTimetable := true;
        }
      }
    }

    /** `handleChange`: sets the named field and blanks that field's error if one is shown. */
    method HandleChange(f: Field, value: string, checked: bool)
      modifies this`form, this`errors
      ensures form == SetField(old(form), f, value, checked)
      ensures errors == ClearError(old(errors), FieldName(f))
    {
      form := SetField(form, f, value, checked);
      if HasError(errors, FieldName(f)) {
        errors := Put(errors, FieldName(f), "");
      }
    }

    /** `validate`: fills a fresh error object check by check and installs it. */
    method Validate() returns (ok: bool)
      modifies this`errors
      ensures errors == ValidationErrors(form)
      ensures ok <==> form.buildingId != "" && !IsBlank(form.roomNumber) && !IsBlank(form.roomName)
    {
      var newErrors: seq<(string, string)> := [];
      ghost var a := newErrors;
      if form.buildingId == "" {
        newErrors := Put(newErrors, "building_id", BuildingRequired);
      }
      ghost var b := newErrors;
      if IsBlank(form.roomNumber) {
        PutFresh(newErrors, "room_number", RoomNumberRequired);
        newErrors := Put(newErrors, "room_number", RoomNumberRequired);
      }
      ghost var c := newErrors;
      if IsBlank(form.roomName) {
        PutFresh(newErrors, "room_name", RoomNameRequired);
        newErrors := Put(newErrors, "room_name", RoomNameRequired);
      }
      errors := newErrors;
      ok := |newErrors| == 0;
      ValidationErrorsSpec(form);
    }

    /** `handleSubmit`: validates, then hands the room id and the cleaned-up fields to `onSave`. */
    method HandleSubmit() returns (save: Option<(string, RoomUpdate)>)
      modifies this`errors
      ensures errors == ValidationErrors(form)
      ensures save.Some? <==> errors == [] && roomId.Some?
      ensures save.Some? ==> save.value == (roomId.value, Submitted(form, SubmittedTimetable(showTimetable, services, schedule, notes)))
    {
      var ok := Validate();
      ValidationErrorsSpec(form);
      if !ok || roomId.None? {
        return None;
      }
      var timetable := SubmittedTimetable(showTimetable, services, schedule, notes);
      save := Some((roomId.value, Submitted(form, timetable)));
    }

    /** The "Add Schedule" / "Hide Schedule" button. */
    method ToggleTimetable()
      modifies this`showTimetable
      ensures showTimetable == !old(showTimetable)
    {
      showTimetable := !showTimetable;
    }

    method SetNewService(value: string)
      modifies this`newService
      ensures newService == value
    {
      newService := value;
    }

    method SetNotes(value: string)
      modifies this`notes
      ensures notes == value
    {
      notes := value;
    }

    /** `addService` on the dialog's state. */
    method AddServiceClick()
      modifies this`services, this`newService
      ensures (services, newService) == AddService(old(services), old(newService))
    {
      var r := AddService(services, newService);
      services := r.0;
      newService := r.1;
    }

    /** `removeService` on the dialog's state. */
    method RemoveServiceClick(x: string)
      modifies this`services
      ensures services == RemoveService(old(services), x)
    {
      services := RemoveService(services, x);
    }

    /** A day's "Add Slot" / "Close" button and the day picker: open that day's slot editor or close it. */
    method ToggleEditingDay(day: string)
      modifies this`editingDay
      ensures editingDay == if old(editingDay) == Some(day) then None else Some(day)
    {
      editingDay := if editingDay == Some(day) then None else Some(day);
    }

    method SetSlotName(value: string)
      modifies this`newSlot
      ensures newSlot == old(newSlot).(name := value)
    {
      newSlot := newSlot.(name := value);
    }

    method SetSlotTime(value: string)
      modifies this`newSlot
      ensures newSlot == old(newSlot).(time := value)
    {
      newSlot := newSlot.(time := value);
    }

    /** `toggleSlotService` on the draft slot. */
    method ToggleSlotService(x: string)
      modifies this`newSlot
      ensures newSlot == old(newSlot).(services := ToggleService(old(newSlot).services, x))
    {
      newSlot := newSlot.(services := ToggleService(newSlot.services, x));
    }

    /** The slot editor's Cancel button. */
    method CancelSlot()
      modifies this`editingDay, this`newSlot
      ensures editingDay == None && newSlot == BlankDraft
    {
      editingDay := None;
      newSlot := BlankDraft;
    }

    /**
     * `addTimeSlot(day)`: a blank name or time only alerts; otherwise the day
     * entry is created if missing, the slot is stored under its key
     * (replacing one with the same key), and the draft is reset.
     */
    method AddTimeSlot(day: string) returns (alerted: bool)
      modifies this`schedule, this`newSlot, this`editingDay
      ensures alerted <==> IsBlank(old(newSlot).name) || IsBlank(old(newSlot).time)
      ensures alerted ==> schedule == old(schedule) && newSlot == old(newSlot) && editingDay == old(editingDay)
      ensures !alerted ==>
        schedule == WithSlot(old(schedule), day, SlotKey(old(newSlot).name), Slot(old(newSlot).time, old(newSlot).services))
        && newSlot == BlankDraft && editingDay == None
    {
      if IsBlank(newSlot.name) || IsBlank(newSlot.time) {
        return true;
      }
      var updated := schedule;
      if Get(updated, day).None? {
        updated := Put(updated, day, []);
        GetPut(schedule, day, [], day);
      }
      var key := SlotKey(newSlot.name);
      var current := Get(updated, day).value;
      assert current == DayOf(schedule, day);
      updated := Put(updated, day, Put(current, key, Slot(newSlot.time, newSlot.services)));
      PutTwice(schedule, day, [], Put(current, key, Slot(newSlot.time, newSlot.services)));
      schedule := updated;
      newSlot := BlankDraft;
      editingDay := None;
      alerted := false;
    }

    /**
     * `removeTimeSlot(day, key)`: deletes the slot and then the day if it has
     * no slot left; a day the schedule lacks makes the handler throw before
     * any state changes.
     */
    method RemoveTimeSlot(day: string, key: string) returns (threw: bool)
      modifies this`schedule
      ensures threw <==> Get(old(schedule), day).None?
      ensures schedule == if threw then old(schedule) else WithoutSlot(old(schedule), day, key)
    {
      var entry := Get(schedule, day);
      if entry.None? {
        return true;
      }
      var d := Remove(entry.value, key);
      if |d| == 0 {
        schedule := Remove(schedule, day);
      } else {
        schedule := Put(schedule, day, d);
      }
      threw := false;
    }
  }
}
