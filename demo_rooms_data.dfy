/**
 * The rooms of the three demo buildings, the stand-in for the rooms table
 * that the demo map shows, and its two lookups.
 */
module DemoRoomsData {
  import opened Base
  import opened Campus

  function S(time: string, services: seq<string>): Slot { Slot(time, services) }

  const RegistrarTimetable: Timetable := Timetable(
    Some(["Phone reception", "Personal reception", "Document verification", "Transcript requests"]),
    Some([
      ("monday", [("am", S("8:00 \U{2013} 9:00", ["Phone reception"])),
                  ("midmorning", S("9:00 - 11:00", ["Personal reception", "Document verification"])),
                  ("noon", S("11:00 - 12:00", ["Transcript requests"]))]),
      ("tuesday", [("am", S("8:00 - 10:00", ["Phone reception"])),
                   ("midmorning", S("10:00 - 12:00", ["Personal reception"]))]),
      ("wednesday", [("am", S("8:00 - 9:00", ["Phone reception"])),
                     ("noon", S("11:00 - 12:00", ["Document verification"]))]),
      ("thursday", [("am", S("8:00 - 9:00", ["Phone reception"])),
                    ("pm", S("13:00 \U{2013} 15:00", ["Personal reception"]))]),
      ("friday", [("am", S("9:00 - 12:00", ["Personal reception", "Document verification"]))])]),
    Some("Please arrive 10 minutes before your appointment. Bring valid ID and required documents."))

  const FinancialAidTimetable: Timetable := Timetable(
    Some(["Walk-in consultation", "Scheduled appointments", "Document submission"]),
    Some([
      ("monday", [("morning", S("9:00 - 12:00", ["Walk-in consultation"])),
                  ("afternoon", S("13:00 - 16:00", ["Scheduled appointments"]))]),
      ("wednesday", [("morning", S("9:00 - 12:00", ["Walk-in consultation"])),
                     ("afternoon", S("13:00 - 16:00", ["Scheduled appointments"]))]),
      ("friday", [("morning", S("9:00 - 12:00", ["Document submission"]))])]),
    Some("Walk-ins welcome Monday and Wednesday mornings. Appointments recommended for afternoons."))

  const ReferenceDeskTimetable: Timetable := Timetable(
    Some(["Research consultation", "Library orientation", "Computer assistance"]),
    Some([
      ("monday", [("slot1", S("9:00 - 12:00", ["Research consultation", "Computer assistance"])),
                  ("slot2", S("13:00 - 17:00", ["Research consultation"]))]),
      ("tuesday", [("slot1", S("9:00 - 12:00", ["Library orientation"])),
                   ("slot2", S("13:00 - 17:00", ["Research consultation"]))]),
      ("wednesday", [("slot1", S("9:00 - 12:00", ["Research consultation", "Computer assistance"])),
                     ("slot2", S("13:00 - 17:00", ["Research consultation"]))]),
      ("thursday", [("slot1", S("9:00 - 12:00", ["Library orientation"])),
                    ("slot2", S("13:00 - 17:00", ["Research consultation"]))]),
      ("friday", [("slot1", S("9:00 - 12:00", ["Research consultation"]))])]),
    Some("Library orientations available Tuesday and Thursday mornings. Book your slot online."))

  const ResidentAdvisorTimetable: Timetable := Timetable(
    Some(["Office hours", "Emergency support", "Event planning"]),
    Some([
      ("monday", [("evening", S("18:00 - 21:00", ["Office hours", "Event planning"]))]),
      ("wednesday", [("evening", S("18:00 - 21:00", ["Office hours", "Event planning"]))]),
      ("friday", [("evening", S("18:00 - 20:00", ["Office hours"]))])]),
    Some("Emergency support available 24/7. Call campus security for after-hours emergencies."))

  const AdminRooms: seq<Room> := [
    Room("room-admin-1", "demo-admin", "101", "Registrar's Office", true,
         Some("Course registration, transcripts, and academic records"), Some("Mon-Fri: 9:00 AM - 4:00 PM"),
         Some(1), Some(RegistrarTimetable)),
    Room("room-admin-2", "demo-admin", "102", "Financial Aid Office", true,
         Some("Financial aid counseling, scholarship information, and loan processing"),
         Some("Mon-Fri: 9:00 AM - 4:00 PM"), Some(1), Some(FinancialAidTimetable)),
    Room("room-admin-3", "demo-admin", "201", "Student Services Center", true,
         Some("General student support, ID cards, and campus information"), Some("Mon-Fri: 8:00 AM - 5:00 PM"),
         Some(2), None),
    Room("room-admin-4", "demo-admin", "202", "Conference Room A", false, None, None, Some(2), None)]

  const LibraryRooms: seq<Room> := [
    Room("room-library-1", "demo-library", "Main Desk", "Reference & Information Desk", true,
         Some("Research assistance, library help, and general inquiries"), Some("Mon-Fri: 9:00 AM - 5:00 PM"),
         Some(1), Some(ReferenceDeskTimetable)),
    Room("room-library-2", "demo-library", "Lab-A", "Computer Lab", false, None,
         Some("Mon-Thu: 7:00 AM - 11:00 PM"), Some(2), None),
    Room("room-library-3", "demo-library", "Study-1", "Group Study Room 1", false, None, None, Some(3), None)]

  const DormitoryRooms: seq<Room> := [
    Room("room-dorm-1", "demo-dormitory", "RA-Office", "Resident Advisor Office", true,
         Some("Dormitory support, residential life programs, and student assistance"), Some("Available 24/7"),
         Some(1), Some(ResidentAdvisorTimetable)),
    Room("room-dorm-2", "demo-dormitory", "Common", "Common Lounge", false, None, None, Some(1), None)]

  /** The demo rooms, keyed by building id. */
  const DemoRooms: map<string, seq<Room>> :=
    map["demo-admin" := AdminRooms, "demo-library" := LibraryRooms, "demo-dormitory" := DormitoryRooms]

  /** Every demo room is filed under the building it names. */
  lemma DemoRoomsFiledByBuilding(b: string, k: nat)
    requires b in DemoRooms && k < |DemoRooms[b]|
    ensures DemoRooms[b][k].buildingId == b
  {
  }

  /** `getAllRoomsForBuilding`: the building's rooms, or none for a building the table does not know. */
  function AllRoomsForBuilding(buildingId: string): (r: seq<Room>)
    ensures buildingId !in DemoRooms ==> r == []
    ensures forall k :: 0 <= k < |r| ==> r[k].buildingId == buildingId
  {
    if buildingId in DemoRooms then
      assert forall k :: 0 <= k < |DemoRooms[buildingId]| ==> DemoRooms[buildingId][k].buildingId == buildingId by {
        forall k | 0 <= k < |DemoRooms[buildingId]| { DemoRoomsFiledByBuilding(buildingId, k); }
      }
      DemoRooms[buildingId]
    else []
  }

  /** `getOfficeRoomsForBuilding`: exactly the offices among the building's rooms, in table order. */
  function OfficeRoomsForBuilding(buildingId: string): (r: seq<Room>)
    ensures forall room :: room in r <==> room in AllRoomsForBuilding(buildingId) && room.isOffice
    ensures forall k :: 0 <= k < |r| ==> r[k].buildingId == buildingId
    ensures IsSubseq(r, AllRoomsForBuilding(buildingId))
  {
    var all := AllRoomsForBuilding(buildingId);
    var r := Filter(all, IsOfficeRoom);
    FilterSubseq(all, IsOfficeRoom);
    assert forall room :: room in r <==> room in all && room.isOffice by {
      forall room ensures room in r <==> room in all && room.isOffice {
        FilterMember(all, IsOfficeRoom, room);
      }
    }
    r
  }

  /** All demo rooms in table order. */
  const AllDemoRooms: seq<Room> := AdminRooms + LibraryRooms + DormitoryRooms

  /** No two demo rooms share an id, across all buildings. */
  lemma DemoRoomIdsUnique()
    ensures forall i, j :: 0 <= i < j < |AllDemoRooms| ==> AllDemoRooms[i].id != AllDemoRooms[j].id
  {
  }
}
