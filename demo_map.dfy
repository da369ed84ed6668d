/**
 * The demo sandbox map: three preloaded `demo-` buildings, a search box,
 * and room for exactly one test building of the visitor's own, which is the
 * only building that may be edited or deleted.
 */
module DemoMap {
  import opened Base
  import opened Campus
  import opened RoomsList
  import opened DemoRoomsData

  function Office(name: string, purpose: string, hours: string, roomNumber: string): KeyOffice
  {
    KeyOffice("1", name, purpose, hours, roomNumber)
  }

  function DemoBuilding(id: string, name: string, lng: real, lat: real, category: string, description: string,
                        facilities: seq<string>, departments: seq<string>, hours: string, isAdmin: bool,
                        office: KeyOffice): Building
  {
    Building(id, None, name, Coordinates(lng, lat), Some(category), Some(description), Some(facilities),
             Some(departments), Some(hours), isAdmin, Some([office]), [], 0)
  }

  /** The buildings a fresh demo session starts with. */
  const InitialDemoBuildings: seq<Building> := [
    DemoBuilding("demo-admin", "Administration Building", 19.054707436918342, 47.495248233157284,
      "Administration", "Main administrative offices including Registrar, Financial Aid, and Student Services",
      ["WiFi", "Student Services", "Registrar Office", "Financial Aid"], ["Administration", "Student Affairs"],
      "Mon-Fri: 8:00 AM - 5:00 PM", true,
      Office("Registrar's Office", "Course registration and transcripts", "Mon-Fri: 9:00 AM - 4:00 PM", "Room 101")),
    DemoBuilding("demo-library", "University Library", 19.05693798689157, 47.49267737360714,
      "Library", "Central library with study spaces, computer labs, and extensive book collection",
      ["WiFi", "Computer Lab", "Study Rooms", "Cafe", "Printing Services"], ["Library Services", "Academic Resources"],
      "Mon-Thu: 7:00 AM - 11:00 PM, Fri: 7:00 AM - 8:00 PM", false,
      Office("Reference Desk", "Research assistance and library help", "Mon-Fri: 9:00 AM - 5:00 PM", "First Floor")),
    DemoBuilding("demo-dormitory", "Student Dormitory", 19.053028697400013, 47.473191215229704,
      "Residence", "On-campus housing with modern amenities and common areas",
      ["WiFi", "Laundry", "Common Room", "Study Lounge", "24/7 Security"], ["Housing", "Residential Life"],
      "24/7 Access for Residents", false,
      Office("Resident Advisor Office", "Dormitory support and assistance", "Available 24/7", "First Floor Lobby"))
  ]

  // ---------------------------------------------------------------------
  // Search
  // ---------------------------------------------------------------------

  /** The search effect: every building for an empty query, else those that match, in order. */
  function Search(buildings: seq<Building>, query: string): seq<Building>
  {
    if query == "" then buildings else Filter(buildings, b => Matches(query, b))
  }

  /** A building is shown exactly when it is loaded and the query is empty or matches it, and the order is kept. */
  lemma SearchSpec(buildings: seq<Building>, query: string, b: Building)
    ensures b in Search(buildings, query) <==> b in buildings && (query == "" || Matches(query, b))
    ensures IsSubseq(Search(buildings, query), buildings)
  {
    if query == "" {
      SubseqRefl(buildings);
    } else {
      FilterMember(buildings, b => Matches(query, b), b);
      FilterSubseq(buildings, b => Matches(query, b));
    }
  }

  // ---------------------------------------------------------------------
  // The sandbox rule
  // ---------------------------------------------------------------------

  /** The preloaded buildings are recognised by their id prefix. */
  predicate IsDemoId(id: string) { StartsWith(id, "demo-") }

  /** The id a saved test building receives: `'user-' + Date.now()`. */
  function UserId(now: nat): (id: string)
    ensures !IsDemoId(id)
  {
    assert ("user-" + NatToString(now))[0] == 'u';
    "user-" + NatToString(now)
  }

  ghost predicate AtMostOneUserBuilding(bs: seq<Building>)
  {
    forall i, j :: 0 <= i < |bs| && 0 <= j < |bs| && !IsDemoId(bs[i].id) && !IsDemoId(bs[j].id) ==> i == j
  }

  ghost predicate HasUserBuilding(bs: seq<Building>)
  {
    exists i :: 0 <= i < |bs| && !IsDemoId(bs[i].id)
  }

  /**
   * The sandbox invariant: ids are unique, at most one building is not a
   * demo building, and the "already added" flag says whether there is one.
   */
  ghost predicate Sandbox(bs: seq<Building>, userAdded: bool)
  {
    UniqueIds(bs) && AtMostOneUserBuilding(bs) && (userAdded <==> HasUserBuilding(bs))
  }

  /** A fresh session satisfies the sandbox rule. */
  lemma InitialSandbox()
    ensures Sandbox(InitialDemoBuildings, false)
  {
    assert IsDemoId(InitialDemoBuildings[0].id);
    assert IsDemoId(InitialDemoBuildings[1].id);
    assert IsDemoId(InitialDemoBuildings[2].id);
  }

  /** The update branch of save: the matching building takes the form's data and keeps its id. */
  function ReplaceById(bs: seq<Building>, id: string, data: Building): (r: seq<Building>)
    ensures |r| == |bs|
    ensures forall i :: 0 <= i < |r| ==> r[i].id == bs[i].id
    ensures forall i :: 0 <= i < |r| && bs[i].id != id ==> r[i] == bs[i]
    ensures forall i :: 0 <= i < |r| && bs[i].id == id ==> r[i] == data.(id := id)
  {
    seq(|bs|, i requires 0 <= i < |bs| => if bs[i].id == id then data.(id := id) else bs[i])
  }

  /** The delete branch: `buildings.filter(b => b.id !== id)`. */
  function RemoveById(bs: seq<Building>, id: string): (r: seq<Building>)
    ensures forall b :: b in r <==> b in bs && b.id != id
    ensures IsSubseq(r, bs)
  {
    var p := (b: Building) => b.id != id;
    assert forall b :: b in Filter(bs, p) <==> b in bs && b.id != id by {
      forall b ensures b in Filter(bs, p) <==> b in bs && b.id != id { FilterMember(bs, p, b); }
    }
    FilterSubseq(bs, p);
    Filter(bs, p)
  }

  /** Updating a building keeps the sandbox rule, since no id changes. */
  lemma ReplaceKeepsSandbox(bs: seq<Building>, flag: bool, id: string, data: Building)
    requires Sandbox(bs, flag)
    ensures Sandbox(ReplaceById(bs, id, data), flag)
  {
    var r := ReplaceById(bs, id, data);
    if flag {
      var i :| 0 <= i < |bs| && !IsDemoId(bs[i].id);
      assert !IsDemoId(r[i].id);
    }
  }

  /** Adding the test building while none exists keeps the sandbox rule and sets the flag. */
  lemma AddKeepsSandbox(bs: seq<Building>, data: Building, now: nat)
    requires Sandbox(bs, false)
    ensures Sandbox(bs + [data.(id := UserId(now))], true)
  {
    var r := bs + [data.(id := UserId(now))];
    assert !IsDemoId(r[|bs|].id);
    forall i | 0 <= i < |bs| ensures r[i].id != r[|bs|].id {
      assert IsDemoId(bs[i].id);
    }
  }

  /** Some building carries the id; the page only offers delete for listed buildings. */
  ghost predicate Listed(bs: seq<Building>, id: string)
  {
    exists i :: 0 <= i < |bs| && bs[i].id == id
  }

  /** Deleting the test building (the only non-demo id) leaves only demo buildings, matching a cleared flag. */
  lemma RemoveKeepsSandbox(bs: seq<Building>, flag: bool, id: string)
    requires Sandbox(bs, flag)
    requires !IsDemoId(id) && Listed(bs, id)
    ensures Sandbox(RemoveById(bs, id), false)
  {
    var r := RemoveById(bs, id);
    var k :| 0 <= k < |bs| && bs[k].id == id;
    forall i | 0 <= i < |r| ensures IsDemoId(r[i].id) {
      assert r[i] in bs;
      var j :| 0 <= j < |bs| && bs[j] == r[i];
    }
    FilterUniqueIds(bs, (b: Building) => b.id != id);
  }

  // ---------------------------------------------------------------------
  // The page
  // ---------------------------------------------------------------------

  /** The demo rooms list: the building's demo rooms, offices first, then by room number. */
  function DemoRoomsList(buildingId: string, numLe: (string, string) -> bool): seq<Room>
  {
    SortRooms(AllRoomsForBuilding(buildingId), numLe)
  }

  /** The list holds exactly the building's demo rooms, offices first, each group in room-number order. */
  lemma DemoRoomsListOrder(buildingId: string, numLe: (string, string) -> bool)
    requires TotalPreorder(numLe)
    ensures multiset(DemoRoomsList(buildingId, numLe)) == multiset(AllRoomsForBuilding(buildingId))
    ensures forall i, j :: 0 <= i < j < |DemoRoomsList(buildingId, numLe)| && DemoRoomsList(buildingId, numLe)[j].isOffice ==>
              DemoRoomsList(buildingId, numLe)[i].isOffice
    ensures OfficeCount(DemoRoomsList(buildingId, numLe)) == OfficeCount(AllRoomsForBuilding(buildingId))
  {
    SortRoomsOrder(AllRoomsForBuilding(buildingId), numLe);
    OfficeCountSorted(AllRoomsForBuilding(buildingId), numLe);
  }

  class DemoMapPage {
    var buildings: seq<Building>
    var userAddedBuilding: bool
    var selected: Option<Building>
    var userLocation: Option<Coordinates>
    var showDirections: bool
    var showModal: bool
    var showBuildingForm: bool
    var editing: Option<Building>
    var showDemoInfo: bool
    var showRoomsList: bool
    var officeRooms: seq<Room>
    var showSidebar: bool
    var isMobile: bool

    /** The sandbox rule, and the form only ever edits the test building. */
    ghost predicate Valid()
      reads this
    {
      Sandbox(buildings, userAddedBuilding) && (editing.Some? ==> !IsDemoId(editing.value.id))
    }

    /**
     * A fresh page. `saved` is what the session stored for the building list
     * (`None` when nothing was stored), `savedFlag` the stored flag text.
     */
    constructor (saved: Option<seq<Building>>, savedFlag: Option<string>)
      ensures buildings == if saved.Some? then saved.value else InitialDemoBuildings
      ensures userAddedBuilding <==> savedFlag == Some("true")
      ensures selected == None && userLocation == None && editing == None
      ensures !showDirections && showModal && !showBuildingForm && showDemoInfo && !showRoomsList && officeRooms == []
      ensures showSidebar && !isMobile
      ensures saved.None? && savedFlag.None? ==> Valid()
    {
      buildings := if saved.Some? then saved.value else InitialDemoBuildings;
      userAddedBuilding := savedFlag == Some("true");
      selected := None;
      userLocation := None;
      showDirections := false;
      showModal := true;
      showBuildingForm := false;
      editing := None;
      showDemoInfo := true;
      showRoomsList := false;
      officeRooms := [];
      showSidebar := true;
      isMobile := false;
      InitialSandbox();
    }

    /** `checkMobile`, run on mount and on every resize: a narrow window hides the sidebar. */
    method CheckMobile(width: int)
      modifies this`isMobile, this`showSidebar
      ensures isMobile <==> width <= 768
      ensures showSidebar == if width <= 768 then false else old(showSidebar)
    {
      isMobile := width <= 768;
      if isMobile {
        showSidebar := false;
      }
    }

    /** The menu and list/map buttons shown on mobile. */
    method ToggleSidebar()
      modifies this`showSidebar
      ensures showSidebar == !old(showSidebar)
    {
      showSidebar := !showSidebar;
    }

    /** The geolocation callback once a position is known. */
    method LocationFound(location: Coordinates)
      modifies this`userLocation
      ensures userLocation == Some(location)
    {
      userLocation := Some(location);
    }

    /**
     * `handleBuildingClick`: selects the building, opens its card and loads
     * its demo offices; on mobile the sidebar closes.
     */
    method BuildingClick(b: Building)
      modifies this`selected, this`showDirections, this`showModal, this`showRoomsList, this`officeRooms, this`showSidebar
      ensures selected == Some(b) && !showDirections && showModal && !showRoomsList
      ensures officeRooms == OfficeRoomsForBuilding(b.id)
      ensures showSidebar == if isMobile then false else old(showSidebar)
    {
      selected := Some(b);
      showDirections := false;
      showModal := true;
      showRoomsList := false;
      if isMobile {
        showSidebar := false;
      }
      officeRooms := OfficeRoomsForBuilding(b.id);
    }

    /** `handleShowDirections`: without a location nothing but the prompt happens. */
    method ShowDirections() returns (prompted: bool)
      modifies this`showDirections, this`showModal
      ensures prompted <==> userLocation.None?
      ensures prompted ==> showDirections == old(showDirections) && showModal == old(showModal)
      ensures !prompted ==> showDirections && !showModal
    {
      if userLocation.None? {
        return true;
      }
      showDirections := true;
      showModal := false;
      return false;
    }

    /** `handleCloseDirections`. */
    method CloseDirections()
      modifies this`showDirections, this`selected, this`showModal
      ensures !showDirections && selected == None && showModal
    {
      showDirections := false;
      selected := None;
      showModal := true;
    }

    /** `handleAddBuilding`: refused once the test building exists; otherwise opens an empty form. */
    method AddBuildingClick() returns (refused: bool)
      requires Valid()
      modifies this`editing, this`showBuildingForm, this`showDemoInfo
      ensures Valid()
      ensures refused <==> old(userAddedBuilding)
      ensures refused ==> unchanged(this)
      ensures !refused ==> editing == None && showBuildingForm && !showDemoInfo
    {
      if userAddedBuilding {
        return true;
      }
      editing := None;
      showBuildingForm := true;
      showDemoInfo := false;
      return false;
    }

    /** `handleEditBuilding`: a demo building is refused; the test building opens in the form. */
    method EditBuilding(b: Building) returns (refused: bool)
      requires Valid()
      modifies this`editing, this`showBuildingForm, this`showDemoInfo
      ensures Valid()
      ensures refused <==> IsDemoId(b.id)
      ensures refused ==> unchanged(this)
      ensures !refused ==> editing == Some(b) && showBuildingForm && !showDemoInfo
    {
      if IsDemoId(b.id) {
        return true;
      }
      editing := Some(b);
      showBuildingForm := true;
      showDemoInfo := false;
      return false;
    }

    /**
     * `handleSaveBuilding`: an edit replaces the edited building under its
     * own id; a new building is refused once the test building exists, and
     * is otherwise appended under a `user-` id with the flag set.
     */
    method SaveBuilding(data: Building, now: nat) returns (refused: bool)
      requires Valid()
      modifies this`buildings, this`userAddedBuilding, this`showBuildingForm, this`editing
      ensures Valid()
      ensures refused <==> old(editing).None? && old(userAddedBuilding)
      ensures refused ==> unchanged(this)
      ensures old(editing).Some? ==>
        buildings == ReplaceById(old(buildings), old(editing).value.id, data)
        && userAddedBuilding == old(userAddedBuilding) && !showBuildingForm && editing == None
      ensures old(editing).None? && !refused ==>
        buildings == old(buildings) + [data.(id := UserId(now))]
        && userAddedBuilding && !showBuildingForm && editing == None
    {
      if editing.Some? {
        ReplaceKeepsSandbox(buildings, userAddedBuilding, editing.value.id, data);
        buildings := ReplaceById(buildings, editing.value.id, data);
        showBuildingForm := false;
        editing := None;
        return false;
      }
      if userAddedBuilding {
        return true;
      }
      AddKeepsSandbox(buildings, data, now);
      buildings := buildings + [data.(id := UserId(now))];
      userAddedBuilding := true;
      showBuildingForm := false;
      return false;
    }

    /**
     * `handleDeleteBuilding`: a demo id is refused; otherwise, once the
     * visitor confirms, the building goes, the flag is cleared, and a
     * selection of that building is dropped.
     */
    method DeleteBuilding(id: string, confirmed: bool) returns (refused: bool)
      requires Valid()
      modifies this`buildings, this`userAddedBuilding, this`selected
      ensures Listed(old(buildings), id) ==> Valid()
      ensures refused <==> IsDemoId(id)
      ensures refused || !confirmed ==> unchanged(this)
      ensures !refused && confirmed ==>
        buildings == RemoveById(old(buildings), id) && !userAddedBuilding
        && selected == if old(selected).Some? && old(selected).value.id == id then None else old(selected)
    {
      if IsDemoId(id) {
        return true;
      }
      if confirmed {
        if Listed(buildings, id) {
          RemoveKeepsSandbox(buildings, userAddedBuilding, id);
        }
        buildings := RemoveById(buildings, id);
        userAddedBuilding := false;
        if selected.Some? && selected.value.id == id {
          selected := None;
        }
      }
      return false;
    }
  }
}
