/**
 * The admin's room management page: the room list filter, the office
 * toggle, the add-room form and the CSV bulk import (a plain comma split
 * without quoting, so not an RFC 4180 reader).
 */
module RoomManagement {
  import opened Base
  import opened Campus

  // ---------------------------------------------------------------------
  // filterRooms
  // ---------------------------------------------------------------------

  /** A room matches a lower-cased query through its number, its name or its purpose. */
  predicate RoomMatches(r: Room, query: string)
  {
    Contains(ToLower(r.roomNumber), query)
    || Contains(ToLower(r.roomName), query)
    || (r.purpose.Some? && r.purpose.value != [] && Contains(ToLower(r.purpose.value), query))
  }

  predicate Selected(r: Room, selectedBuilding: string, searchQuery: string)
  {
    (selectedBuilding == "all" || r.buildingId == selectedBuilding)
    && (searchQuery == [] || RoomMatches(r, ToLower(searchQuery)))
  }

  /** `filterRooms`: the building filter (skipped for `'all'`), then the search filter (skipped for an empty query). */
  function FilterRooms(rooms: seq<Room>, selectedBuilding: string, searchQuery: string): (r: seq<Room>)
    ensures forall room :: room in r <==> room in rooms && Selected(room, selectedBuilding, searchQuery)
  {
    var p := (room: Room) => room.buildingId == selectedBuilding;
    var q := (room: Room) => RoomMatches(room, ToLower(searchQuery));
    var byBuilding := if selectedBuilding != "all" then Filter(rooms, p) else rooms;
    var r := if searchQuery != [] then Filter(byBuilding, q) else byBuilding;
    assert forall room :: room in r <==> room in rooms && Selected(room, selectedBuilding, searchQuery) by {
      forall room ensures room in r <==> room in rooms && Selected(room, selectedBuilding, searchQuery) {
        if selectedBuilding != "all" { FilterMember(rooms, p, room); }
        if searchQuery != [] { FilterMember(byBuilding, q, room); }
      }
    }
    r
  }

  /** The filtered list keeps the rooms in their loaded order. */
  lemma FilterRoomsOrder(rooms: seq<Room>, selectedBuilding: string, searchQuery: string)
    ensures IsSubseq(FilterRooms(rooms, selectedBuilding, searchQuery), rooms)
  {
    var p := (room: Room) => room.buildingId == selectedBuilding;
    var q := (room: Room) => RoomMatches(room, ToLower(searchQuery));
    var byBuilding := if selectedBuilding != "all" then Filter(rooms, p) else rooms;
    if selectedBuilding != "all" { FilterSubseq(rooms, p); } else { SubseqRefl(rooms); }
    if searchQuery != [] {
      FilterSubseq(byBuilding, q);
      SubseqTrans(Filter(byBuilding, q), byBuilding, rooms);
    }
  }

  // ---------------------------------------------------------------------
  // handleToggleOffice
  // ---------------------------------------------------------------------

  /** The `updateRoom` call the toggle makes: the room's id and the flipped office flag. */
  function ToggleOfficeUpdate(room: Room): (update: (string, bool))
    ensures update.0 == room.id && update.1 == !room.isOffice
  {
    (room.id, !room.isOffice)
  }

  /** The success banner, chosen by the flag before the toggle. */
  function ToggleOfficeMessage(room: Room): string
  {
    if room.isOffice then "Office status removed" else "Marked as office"
  }

  /** Toggling twice restores the room. */
  lemma ToggleOfficeTwice(room: Room)
    ensures var once := room.(isOffice := ToggleOfficeUpdate(room).1);
            once.(isOffice := ToggleOfficeUpdate(once).1) == room
    ensures ToggleOfficeMessage(room) != ToggleOfficeMessage(room.(isOffice := ToggleOfficeUpdate(room).1))
  {
  }

  // ---------------------------------------------------------------------
  // AddRoomForm
  // ---------------------------------------------------------------------

  datatype RoomFields = RoomFields(buildingId: string, roomNumber: string, roomName: string, isOffice: bool, purpose: string, hours: string)

  /** The row `createRoom` receives. */
  datatype NewRoom = NewRoom(
    buildingId: string, universityId: string, roomNumber: string, roomName: string,
    isOffice: bool, purpose: Option<string>, hours: Option<string>)

  /** The checks before any store call; the values are not trimmed for them. */
  function AddRoomError(f: RoomFields): (e: Option<string>)
    ensures e.None? <==> f.buildingId != [] && f.roomNumber != [] && f.roomName != []
    ensures f.buildingId == [] ==> e == Some("Please select a building")
  {
    if f.buildingId == [] then Some("Please select a building")
    else if f.roomNumber == [] || f.roomName == [] then Some("Room number and name are required")
    else None
  }

  /** An office detail is sent, trimmed, only for an office and only when the field is non-empty. */
  function OfficeDetail(isOffice: bool, value: string): (r: Option<string>)
    ensures r.Some? <==> isOffice && value != []
    ensures r.Some? ==> r.value == Trim(value)
  {
    if isOffice && value != [] then Some(Trim(value)) else None
  }

  function NewRoomFrom(f: RoomFields, universityId: string): (r: NewRoom)
    ensures r.buildingId == f.buildingId && r.universityId == universityId && r.isOffice == f.isOffice
    ensures r.roomNumber == Trim(f.roomNumber) && r.roomName == Trim(f.roomName)
    ensures r.purpose.Some? ==> f.isOffice && r.purpose.value == Trim(f.purpose)
    ensures r.hours.Some? ==> f.isOffice && r.hours.value == Trim(f.hours)
  {
    NewRoom(f.buildingId, universityId, Trim(f.roomNumber), Trim(f.roomName), f.isOffice,
            OfficeDetail(f.isOffice, f.purpose), OfficeDetail(f.isOffice, f.hours))
  }

  /** The blank form after a successful add: only the building choice is kept. */
  function ResetKeepingBuilding(f: RoomFields): RoomFields
  {
    RoomFields(f.buildingId, "", "", false, "", "")
  }

  class AddRoomForm {
    var form: RoomFields

    constructor ()
      ensures form == RoomFields("", "", "", false, "", "")
    {
      form := RoomFields("", "", "", false, "", "");
    }

    /**
     * `handleSubmit`: rejects an incomplete form before any store call,
     * otherwise sends the normalised row; `reply` is what `createRoom`
     * answered. Returns the row sent (if any) and the error passed to the
     * page.
     */
    method HandleSubmit(universityId: string, reply: WriteReply) returns (sent: Option<NewRoom>, error: Option<string>)
      modifies this
      ensures AddRoomError(old(form)).Some? ==> sent == None && error == AddRoomError(old(form)) && form == old(form)
      ensures AddRoomError(old(form)).None? ==> sent == Some(NewRoomFrom(old(form), universityId))
      ensures AddRoomError(old(form)).None? && reply == WriteOk ==> error == None && form == ResetKeepingBuilding(old(form))
      ensures AddRoomError(old(form)).None? && reply.WriteFailed? ==> error == Some(reply.error) && form == old(form)
    {
      error := None;
      sent := None;
      var check := AddRoomError(form);
      if check.Some? {
        error := check;
        return;
      }
      sent := Some(NewRoomFrom(form, universityId));
      match reply
      case WriteOk =>
        form := ResetKeepingBuilding(form);
      case WriteFailed(message) =>
        error := Some(message);
    }
  }

  // ---------------------------------------------------------------------
  // BulkImportView
  // ---------------------------------------------------------------------

  datatype CsvFile = CsvFile(name: string, text: string)

  /** The lines of the file that are not blank: `text.split('\n').filter(line => line.trim())`. */
  function NonBlankLines(text: string): (lines: seq<string>)
    ensures forall k :: 0 <= k < |lines| ==> !IsBlank(lines[k])
  {
    Filter(Split(text, '\n'), NotBlank)
  }

  /** `previewCSV`: the header and the first five data rows. */
  function Preview(text: string): string
  {
    Join(Take(NonBlankLines(text), 6), "\n")
  }

  /** The preview shows at most six lines, and all of them when the file has no more. */
  lemma PreviewLines(text: string)
    ensures |Take(NonBlankLines(text), 6)| <= 6
    ensures |NonBlankLines(text)| <= 6 ==> Preview(text) == Join(NonBlankLines(text), "\n")
  {
  }

  datatype Columns = Columns(roomNumber: nat, roomName: nat, buildingName: nat)

  /** The header cells, trimmed and lower-cased. */
  function Headers(line: string): (h: seq<string>)
  {
    var cells := Split(line, ',');
    seq(|cells|, k requires 0 <= k < |cells| => ToLower(Trim(cells[k])))
  }

  /** The first column of each required name; `None` when one of them is missing. */
  function FindColumns(headers: seq<string>): (c: Option<Columns>)
    ensures c.None? <==> "room_number" !in headers || "room_name" !in headers || "building_name" !in headers
    ensures c.Some? ==> c.value.roomNumber < |headers| && headers[c.value.roomNumber] == "room_number"
    ensures c.Some? ==> c.value.roomName < |headers| && headers[c.value.roomName] == "room_name"
    ensures c.Some? ==> c.value.buildingName < |headers| && headers[c.value.buildingName] == "building_name"
  {
    match (IndexOf(headers, "room_number"), IndexOf(headers, "room_name"), IndexOf(headers, "building_name"))
    case (Some(a), Some(b), Some(c)) => Some(Columns(a, b, c))
    case _ => None
  }

  /** The key a building name is matched by. */
  function NameKey(name: string): string
  {
    Trim(ToLower(name))
  }

  /** `buildingMap`: name key to id, where a later building with the same key overwrites an earlier one. */
  function BuildingMapOf(buildings: seq<Building>): (m: map<string, string>)
    decreases |buildings|
  {
    if buildings == [] then map[]
    else
      var last := buildings[|buildings| - 1];
      BuildingMapOf(buildings[..|buildings| - 1])[NameKey(last.name) := last.id]
  }

  /** The map knows every building's key, and gives the id of the last building with that key. */
  lemma {:induction false} BuildingMapLastWins(buildings: seq<Building>, j: nat)
    requires j < |buildings|
    requires forall k :: j < k < |buildings| ==> NameKey(buildings[k].name) != NameKey(buildings[j].name)
    ensures NameKey(buildings[j].name) in BuildingMapOf(buildings)
    ensures BuildingMapOf(buildings)[NameKey(buildings[j].name)] == buildings[j].id
    decreases |buildings|
  {
    if j < |buildings| - 1 {
      var init := buildings[..|buildings| - 1];
      assert init[j] == buildings[j];
      forall k | j < k < |init| ensures NameKey(init[k].name) != NameKey(init[j].name) {
        assert init[k] == buildings[k];
      }
      BuildingMapLastWins(init, j);
    }
  }

  /** Every key of the map comes from some building. */
  lemma {:induction false} BuildingMapKeys(buildings: seq<Building>, key: string)
    requires key in BuildingMapOf(buildings)
    ensures exists j :: 0 <= j < |buildings| && NameKey(buildings[j].name) == key && BuildingMapOf(buildings)[key] == buildings[j].id
    decreases |buildings|
  {
    var n := |buildings|;
    var last := buildings[n - 1];
    if NameKey(last.name) != key {
      var init := buildings[..n - 1];
      BuildingMapKeys(init, key);
      var j :| 0 <= j < |init| && NameKey(init[j].name) == key && BuildingMapOf(init)[key] == init[j].id;
      assert buildings[j] == init[j];
    }
  }

  /** The `forEach` that fills `buildingMap`. */
  method BuildBuildingMap(buildings: seq<Building>) returns (m: map<string, string>)
    ensures m == BuildingMapOf(buildings)
  {
    m := map[];
    var i := 0;
    while i < |buildings|
      invariant 0 <= i <= |buildings|
      invariant m == BuildingMapOf(buildings[..i])
    {
      assert buildings[..i + 1][..i] == buildings[..i];
      m := m[NameKey(buildings[i].name) := buildings[i].id];
      i := i + 1;
    }
    assert buildings[..i] == buildings;
  }

  /** A room the import sends. */
  datatype ImportRoom = ImportRoom(buildingId: string, universityId: string, roomNumber: string, roomName: string)

  /** A data row the import skips: its 1-based line number among the non-blank lines, and why. */
  datatype SkippedRow = SkippedRow(row: nat, reason: SkipReason)

  /** Why a row was skipped; `Message` is the text the results list shows. */
  datatype SkipReason = MissingFields | BuildingNotFound(buildingName: string)

  function Message(reason: SkipReason): string
  {
    match reason
    case MissingFields => "Missing required fields"
    case BuildingNotFound(name) => "Building \"" + name + "\" not found"
  }

  datatype RowOutcome = Imported(room: ImportRoom) | Skipped(reason: SkipReason)

  /** `values[k]`, where a missing cell reads like an empty one. */
  function Cell(values: seq<string>, k: nat): string
  {
    if k < |values| then values[k] else []
  }

  /** The cells of a line: `line.split(',').map(v => v.trim())`. */
  function LineCells(line: string): (values: seq<string>)
    ensures |values| >= 1
  {
    TrimAll(Split(line, ','))
  }

  /** The cells of every line, line by line. */
  function CellRows(lines: seq<string>): (rows: seq<seq<string>>)
    ensures |rows| == |lines|
    ensures forall k :: 0 <= k < |lines| ==> rows[k] == LineCells(lines[k])
  {
    if lines == [] then [] else [LineCells(lines[0])] + CellRows(lines[1..])
  }

  /**
   * What happens to one data line, given its cells: a row without a room
   * number, a room name or a building name is skipped, so is one whose
   * building nobody has (or that maps to an empty id); any other row
   * becomes a room of that building.
   */
  function ClassifyRow(values: seq<string>, cols: Columns, buildingMap: map<string, string>, universityId: string): (o: RowOutcome)
    ensures o.Imported? <==> Cell(values, cols.roomNumber) != [] && Cell(values, cols.roomName) != []
                             && Cell(values, cols.buildingName) != []
                             && NameKey(Cell(values, cols.buildingName)) in buildingMap
                             && buildingMap[NameKey(Cell(values, cols.buildingName))] != []
    ensures o.Imported? ==> o.room == ImportRoom(buildingMap[NameKey(Cell(values, cols.buildingName))], universityId,
                                                 Cell(values, cols.roomNumber), Cell(values, cols.roomName))
  {
    var roomNumber := Cell(values, cols.roomNumber);
    var roomName := Cell(values, cols.roomName);
    var buildingName := Cell(values, cols.buildingName);
    if roomNumber == [] || roomName == [] || buildingName == [] then Skipped(MissingFields)
    else
      var key := NameKey(buildingName);
      if key !in buildingMap || buildingMap[key] == [] then Skipped(BuildingNotFound(buildingName))
      else Imported(ImportRoom(buildingMap[key], universityId, roomNumber, roomName))
  }

  /** The outcome of every row. */
  function Outcomes(rows: seq<seq<string>>, cols: Columns, buildingMap: map<string, string>, universityId: string): (os: seq<RowOutcome>)
    ensures |os| == |rows|
  {
    if rows == [] then [] else [ClassifyRow(rows[0], cols, buildingMap, universityId)] + Outcomes(rows[1..], cols, buildingMap, universityId)
  }

  lemma {:induction false} OutcomesAt(rows: seq<seq<string>>, cols: Columns, buildingMap: map<string, string>, universityId: string, k: nat)
    requires k < |rows|
    ensures Outcomes(rows, cols, buildingMap, universityId)[k] == ClassifyRow(rows[k], cols, buildingMap, universityId)
    decreases k
  {
    if k > 0 {
      OutcomesAt(rows[1..], cols, buildingMap, universityId, k - 1);
    }
  }

  /** Files one row's outcome: a room is appended to the rooms, a skip to the skipped rows under its row number. */
  function AddOutcome(plan: (seq<ImportRoom>, seq<SkippedRow>), o: RowOutcome, row: nat): (p: (seq<ImportRoom>, seq<SkippedRow>))
    ensures |p.0| + |p.1| == |plan.0| + |plan.1| + 1
    ensures o.Imported? ==> p == (plan.0 + [o.room], plan.1)
    ensures o.Skipped? ==> p == (plan.0, plan.1 + [SkippedRow(row, o.reason)])
  {
    match o
    case Imported(room) => (plan.0 + [room], plan.1)
    case Skipped(reason) => (plan.0, plan.1 + [SkippedRow(row, reason)])
  }

  /**
   * The outcomes of rows 1 .. n-1 filed in order: the rooms to import, and
   * the skipped rows numbered `i + 1` for row `i`. Every data row lands in
   * exactly one of the two lists.
   */
  function FilePlan(os: seq<RowOutcome>, n: nat): (p: (seq<ImportRoom>, seq<SkippedRow>))
    requires 1 <= n <= |os|
    ensures |p.0| + |p.1| == n - 1
    ensures forall k :: 0 <= k < |p.1| ==> 2 <= p.1[k].row <= n
    decreases n
  {
    if n == 1 then ([], []) else AddOutcome(FilePlan(os, n - 1), os[n - 1], n)
  }

  /** An outcome whose room belongs to the university and to a building the map knows. */
  predicate ValidOutcome(o: RowOutcome, buildingMap: map<string, string>, universityId: string)
  {
    o.Imported? ==> o.room.universityId == universityId && o.room.buildingId in buildingMap.Values
  }

  lemma {:induction false} FilePlanRooms(os: seq<RowOutcome>, n: nat, buildingMap: map<string, string>, universityId: string)
    requires 1 <= n <= |os|
    requires forall j :: 0 <= j < |os| ==> ValidOutcome(os[j], buildingMap, universityId)
    ensures forall k :: 0 <= k < |FilePlan(os, n).0| ==>
              FilePlan(os, n).0[k].universityId == universityId && FilePlan(os, n).0[k].buildingId in buildingMap.Values
    decreases n
  {
    if n > 1 {
      FilePlanRooms(os, n - 1, buildingMap, universityId);
      assert ValidOutcome(os[n - 1], buildingMap, universityId);
    }
  }

  /** Every outcome of the rows is valid. */
  lemma OutcomesValid(rows: seq<seq<string>>, cols: Columns, buildingMap: map<string, string>, universityId: string)
    ensures forall j :: 0 <= j < |rows| ==> ValidOutcome(Outcomes(rows, cols, buildingMap, universityId)[j], buildingMap, universityId)
  {
    forall j | 0 <= j < |rows|
      ensures ValidOutcome(Outcomes(rows, cols, buildingMap, universityId)[j], buildingMap, universityId)
    {
      OutcomesAt(rows, cols, buildingMap, universityId, j);
      var o := ClassifyRow(rows[j], cols, buildingMap, universityId);
      if o.Imported? {
        var key := NameKey(Cell(rows[j], cols.buildingName));
        assert buildingMap[key] in buildingMap.Values;
      }
    }
  }

  /** The import plan of the data rows 1 .. n-1. */
  function ImportPlan(rows: seq<seq<string>>, n: nat, cols: Columns, buildingMap: map<string, string>, universityId: string): (p: (seq<ImportRoom>, seq<SkippedRow>))
    requires 1 <= n <= |rows|
    ensures |p.0| + |p.1| == n - 1
    ensures forall k :: 0 <= k < |p.0| ==> p.0[k].universityId == universityId && p.0[k].buildingId in buildingMap.Values
    ensures forall k :: 0 <= k < |p.1| ==> 2 <= p.1[k].row <= n
  {
    var os := Outcomes(rows, cols, buildingMap, universityId);
    OutcomesValid(rows, cols, buildingMap, universityId);
    FilePlanRooms(os, n, buildingMap, universityId);
    FilePlan(os, n)
  }

  /** The row loop of `handleImport`. */
  method ProcessRows(lines: seq<string>, cols: Columns, buildingMap: map<string, string>, universityId: string)
    returns (rooms: seq<ImportRoom>, skipped: seq<SkippedRow>)
    requires |lines| >= 1
    ensures (rooms, skipped) == ImportPlan(CellRows(lines), |lines|, cols, buildingMap, universityId)
  {
    ghost var rows := CellRows(lines);
    ghost var os := Outcomes(rows, cols, buildingMap, universityId);
    rooms, skipped := [], [];
    var i := 1;
    while i < |lines|
      invariant 1 <= i <= |lines|
      invariant (rooms, skipped) == FilePlan(os, i)
    {
      var values := LineCells(lines[i]);
      assert values == rows[i];
      OutcomesAt(rows, cols, buildingMap, universityId, i);
      var outcome := ClassifyRow(values, cols, buildingMap, universityId);
      if outcome.Imported? {
        rooms := rooms + [outcome.room];
      } else {
        skipped := skipped + [SkippedRow(i + 1, outcome.reason)];
      }
      i := i + 1;
    }
  }

  /** Everything `handleImport` decides before the bulk insert. */
  datatype Prepared = PrepareError(message: string) | ReadyToImport(rooms: seq<ImportRoom>, skipped: seq<SkippedRow>)

  /**
   * The reference for `handleImport` up to the insert: too few lines, a
   * missing column and an import with no valid rows are errors; otherwise
   * the plan of all data lines.
   */
  function PrepareImport(text: string, buildings: seq<Building>, universityId: string): (p: Prepared)
    ensures |NonBlankLines(text)| < 2 ==> p == PrepareError("CSV file is empty or has no data rows")
    ensures p.ReadyToImport? ==> p.rooms != [] && |p.rooms| + |p.skipped| == |NonBlankLines(text)| - 1
    ensures p.ReadyToImport? ==> forall k :: 0 <= k < |p.rooms| ==> p.rooms[k].universityId == universityId
  {
    var lines := NonBlankLines(text);
    if |lines| < 2 then PrepareError("CSV file is empty or has no data rows")
    else match FindColumns(Headers(lines[0]))
      case None => PrepareError("CSV must have columns: room_number, room_name, building_name")
      case Some(cols) =>
        var plan := ImportPlan(CellRows(lines), |lines|, cols, BuildingMapOf(buildings), universityId);
        if plan.0 == [] then PrepareError("No valid rooms to import")
        else ReadyToImport(plan.0, plan.1)
  }

  /** What `createRoomsBulk` answered. */
  datatype BulkReply = BulkOk(count: int) | BulkFailed(error: string)

  datatype ImportResults = ImportResults(imported: int, skipped: nat, skippedRows: seq<SkippedRow>)

  class BulkImportView {
    var file: Option<CsvFile>
    var preview: Option<string>
    var importResults: Option<ImportResults>

    constructor ()
      ensures file == None && preview == None && importResults == None
    {
      file, preview, importResults := None, None, None;
    }

    /** `handleFileChange` with its preview: only a `.csv` name is accepted. */
    method HandleFileChange(selected: Option<CsvFile>) returns (error: Option<string>)
      modifies this`file, this`preview
      ensures selected.None? ==> error == None && file == old(file) && preview == old(preview)
      ensures selected.Some? && !EndsWith(selected.value.name, ".csv") ==>
                error == Some("Please select a CSV file") && file == old(file) && preview == old(preview)
      ensures selected.Some? && EndsWith(selected.value.name, ".csv") ==>
                error == None && file == selected && preview == Some(Preview(selected.value.text))
    {
      error := None;
      if selected.None? {
        return;
      }
      if !EndsWith(selected.value.name, ".csv") {
        error := Some("Please select a CSV file");
        return;
      }
      file := selected;
      preview := Some(Preview(selected.value.text));
    }

    /**
     * `handleImport`: returns the rows handed to `createRoomsBulk` (none
     * when an error comes first), the error or the success message.
     */
    method HandleImport(buildings: seq<Building>, universityId: string, bulk: BulkReply)
      returns (sent: Option<seq<ImportRoom>>, error: Option<string>, success: Option<string>)
      modifies this`importResults
      ensures old(file).None? ==>
                sent == None && error == Some("Please select a file") && success == None && importResults == old(importResults)
      ensures old(file).Some? ==> match PrepareImport(old(file).value.text, buildings, universityId)
                case PrepareError(message) => sent == None && error == Some(message) && success == None && importResults == None
                case ReadyToImport(rooms, skipped) =>
                  sent == Some(rooms)
                  && (bulk.BulkOk? ==> error == None && importResults == Some(ImportResults(bulk.count, |skipped|, skipped))
                                        && success == Some("Successfully imported " + IntToString(bulk.count) + " rooms"))
                  && (bulk.BulkFailed? ==> error == Some(bulk.error) && success == None && importResults == None)
    {
      sent, error, success := None, None, None;
      if file.None? {
        error := Some("Please select a file");
        return;
      }
      importResults := None;
      var lines := NonBlankLines(file.value.text);
      if |lines| < 2 {
        error := Some("CSV file is empty or has no data rows");
        return;
      }
      var cols := FindColumns(Headers(lines[0]));
      if cols.None? {
        error := Some("CSV must have columns: room_number, room_name, building_name");
        return;
      }
      var buildingMap := BuildBuildingMap(buildings);
      var rooms, skipped := ProcessRows(lines, cols.value, buildingMap, universityId);
      if |rooms| == 0 {
        error := Some("No valid rooms to import");
        return;
      }
      sent := Some(rooms);
      match bulk
      case BulkOk(count) =>
        importResults := Some(ImportResults(count, |skipped|, skipped));
        success := Some("Successfully imported " + IntToString(count) + " rooms");
      case BulkFailed(message) =>
        error := Some(message);
    }
  }
}
