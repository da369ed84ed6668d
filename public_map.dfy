/**
 * The public campus map a university shares: it loads the university named
 * by `?uni=`, searches buildings and rooms on the server and merges the two
 * kinds of hits, and shows a building's offices.
 */
module PublicMap {
  import opened Base
  import opened Campus
  import opened UniversityMaps

  /** The server search's reply: matching buildings and rooms, a reported failure, or a thrown error. */
  datatype SearchReply = SearchOk(buildings: Option<seq<Building>>, rooms: Option<seq<Room>>) | SearchFailed | SearchThrew

  function OrEmpty<T>(xs: Option<seq<T>>): seq<T>
  {
    if xs.Some? then xs.value else []
  }

  /** The loaded building a room hit points to, if the room names one that is loaded. */
  function RoomHit(room: Room, loaded: seq<Building>): (r: seq<Building>)
    ensures |r| <= 1
    ensures forall k :: 0 <= k < |r| ==> r[k] in loaded && r[k].id == room.buildingId
  {
    if room.buildingId == "" then []
    else match FindById(loaded, room.buildingId)
      case None => []
      case Some(b) => [b]
  }

  /** The loaded buildings the room hits point to, in the order of the rooms. */
  function RoomBuildings(rooms: seq<Room>, loaded: seq<Building>): seq<Building>
  {
    HitsUpTo(rooms, |rooms|, loaded)
  }

  /** The buildings the first `n` room hits point to. */
  function HitsUpTo(rooms: seq<Room>, n: nat, loaded: seq<Building>): seq<Building>
    requires n <= |rooms|
  {
    if n == 0 then [] else HitsUpTo(rooms, n - 1, loaded) + RoomHit(rooms[n - 1], loaded)
  }

  /** Room hits only ever contribute loaded buildings. */
  lemma {:induction false} HitsLoaded(rooms: seq<Room>, n: nat, loaded: seq<Building>)
    requires n <= |rooms|
    ensures forall k :: 0 <= k < |HitsUpTo(rooms, n, loaded)| ==> HitsUpTo(rooms, n, loaded)[k] in loaded
  {
    if n > 0 {
      HitsLoaded(rooms, n - 1, loaded);
    }
  }

  /** The merged search result: building hits, then the buildings of room hits, first occurrence of each id. */
  function Merge(direct: seq<Building>, rooms: seq<Room>, loaded: seq<Building>): seq<Building>
  {
    DedupFrom(direct + RoomBuildings(rooms, loaded), {})
  }

  /**
   * The merge has no duplicate ids; it starts with the building hits
   * (de-duplicated, in the server's order); everything else in it is a
   * loaded building, so rooms of buildings that are not loaded add nothing;
   * and every id of a hit of either kind is in it.
   */
  lemma MergeSpec(direct: seq<Building>, rooms: seq<Room>, loaded: seq<Building>)
    ensures UniqueIds(Merge(direct, rooms, loaded))
    ensures Merge(direct, rooms, loaded) == DedupFrom(direct, {}) + DedupFrom(RoomBuildings(rooms, loaded), IdSet(direct))
    ensures forall k :: 0 <= k < |DedupFrom(RoomBuildings(rooms, loaded), IdSet(direct))| ==>
              DedupFrom(RoomBuildings(rooms, loaded), IdSet(direct))[k] in loaded
    ensures IdSet(Merge(direct, rooms, loaded)) == IdSet(direct) + IdSet(RoomBuildings(rooms, loaded))
  {
    var hits := RoomBuildings(rooms, loaded);
    HitsLoaded(rooms, |rooms|, loaded);
    DedupFromConcat(direct, hits, {});
    DedupFromSpec(direct + hits, {});
    DedupFromSpec(hits, {} + IdSet(direct));
    IdSetConcat(direct, hits);
    assert {} + IdSet(direct) == IdSet(direct);
  }

  /** One `push` guarded by the set of seen ids extends the de-duplicated list by the pushed building or by nothing. */
  lemma PushStep(before: seq<Building>, b: Building, ids: set<string>)
    requires ids == IdSet(before)
    ensures DedupFrom(before + [b], {}) == DedupFrom(before, {}) + (if b.id in ids then [] else [b])
    ensures IdSet(before + [b]) == ids + {b.id}
  {
    DedupFromConcat(before, [b], {});
    IdSetConcat(before, [b]);
    assert {} + IdSet(before) == ids;
    assert [b][1..] == [];
  }

  /** One room of the room loop: the building it pushes, if any, is exactly what the de-duplicated list gains. */
  lemma RoomStep(before: seq<Building>, room: Room, loaded: seq<Building>, ids: set<string>)
    requires ids == IdSet(before)
    ensures var pushed := room.buildingId != "" && room.buildingId !in ids && FindById(loaded, room.buildingId).Some?;
      var after := before + RoomHit(room, loaded);
      (pushed ==> DedupFrom(after, {}) == DedupFrom(before, {}) + [FindById(loaded, room.buildingId).value]
                  && IdSet(after) == ids + {FindById(loaded, room.buildingId).value.id})
      && (!pushed ==> DedupFrom(after, {}) == DedupFrom(before, {}) && IdSet(after) == ids)
  {
    var hit := RoomHit(room, loaded);
    if hit == [] {
      assert before + hit == before;
    } else {
      PushStep(before, hit[0], ids);
      assert hit == [hit[0]];
    }
  }

  /** The loop over the building hits. */
  method MergeDirect(ds: seq<Building>) returns (matched: seq<Building>, ids: set<string>)
    ensures matched == DedupFrom(ds, {}) && ids == IdSet(ds)
  {
    ids := {};
    matched := [];
    var i := 0;
    while i < |ds|
      invariant 0 <= i <= |ds|
      invariant matched == DedupFrom(ds[..i], {})
      invariant ids == IdSet(ds[..i])
    {
      var b := ds[i];
      PushStep(ds[..i], b, ids);
      assert ds[..i + 1] == ds[..i] + [b];
      if b.id !in ids {
        matched := matched + [b];
        ids := ids + {b.id};
      }
      i := i + 1;
    }
    assert ds[..|ds|] == ds;
  }

  /** The first `j + 1` room hits are the first `j` and the hit of room `j`. */
  lemma HitsUpToStep(ds: seq<Building>, rs: seq<Room>, j: nat, loaded: seq<Building>)
    requires j < |rs|
    ensures ds + HitsUpTo(rs, j + 1, loaded) == (ds + HitsUpTo(rs, j, loaded)) + RoomHit(rs[j], loaded)
  {
    ConcatAssoc(ds, HitsUpTo(rs, j, loaded), RoomHit(rs[j], loaded));
  }

  /** The loop over the room hits, continuing from the building hits. */
  method MergeRooms(ds: seq<Building>, rs: seq<Room>, loaded: seq<Building>, matched0: seq<Building>, ids0: set<string>)
    returns (matched: seq<Building>)
    requires matched0 == DedupFrom(ds, {}) && ids0 == IdSet(ds)
    ensures matched == Merge(ds, rs, loaded)
  {
    matched := matched0;
    var ids := ids0;
    ghost var before: seq<Building> := ds;
    assert ds + HitsUpTo(rs, 0, loaded) == ds;
    var j := 0;
    while j < |rs|
      invariant 0 <= j <= |rs|
      invariant before == ds + HitsUpTo(rs, j, loaded)
      invariant matched == DedupFrom(before, {})
      invariant ids == IdSet(before)
    {
      var room := rs[j];
      var found := FindById(loaded, room.buildingId);
      RoomStep(before, room, loaded, ids);
      HitsUpToStep(ds, rs, j, loaded);
      if room.buildingId != "" && room.buildingId !in ids && found.Some? {
        matched := matched + [found.value];
        ids := ids + {found.value.id};
      }
      before := before + RoomHit(room, loaded);
      j := j + 1;
    }
  }

  /** The server's search, merged with the `Set` of seen ids and `push`, as the search effect does it. */
  method MergeHits(direct: Option<seq<Building>>, rooms: Option<seq<Room>>, loaded: seq<Building>)
    returns (matched: seq<Building>)
    ensures matched == Merge(OrEmpty(direct), OrEmpty(rooms), loaded)
  {
    var m, ids := MergeDirect(OrEmpty(direct));
    matched := MergeRooms(OrEmpty(direct), OrEmpty(rooms), loaded, m, ids);
  }

  /** The local search used when the server search throws. */
  function LocalSearch(buildings: seq<Building>, query: string): (r: seq<Building>)
    ensures forall b :: b in r <==> b in buildings && MatchesWithOffices(query, b)
    ensures IsSubseq(r, buildings)
  {
    var p := (b: Building) => MatchesWithOffices(query, b);
    assert forall b :: b in Filter(buildings, p) <==> b in buildings && p(b) by {
      forall b ensures b in Filter(buildings, p) <==> b in buildings && p(b) { FilterMember(buildings, p, b); }
    }
    FilterSubseq(buildings, p);
    Filter(buildings, p)
  }

  /** The message shown for each way the load can fail. */
  function LoadErrorMessage(outcome: LoadOutcome): string
  {
    match outcome
    case MissingId => "University ID is required. Please use the link provided by your university."
    case NotFound => "University not found. The ID might have changed during import."
    case _ => "Failed to load university data. Please try again later."
  }

  class PublicMapPage {
    var university: Option<University>
    var error: Option<string>
    var loading: bool
    var buildings: seq<Building>
    var filtered: seq<Building>
    var selected: Option<Building>
    var userLocation: Option<Location>
    var showDirections: bool
    var showModal: bool
    var showRoomsList: bool
    var officeRooms: seq<Room>
    var showSidebar: bool
    var isMobile: bool

    constructor ()
      ensures university == None && error == None && loading && buildings == [] && filtered == []
      ensures selected == None && userLocation == None && !showDirections && showModal && !showRoomsList && officeRooms == []
      ensures showSidebar && !isMobile
    {
      university := None;
      error := None;
      loading := true;
      buildings := [];
      filtered := [];
      selected := None;
      userLocation := None;
      showDirections := false;
      showModal := true;
      showRoomsList := false;
      officeRooms := [];
      showSidebar := true;
      isMobile := false;
    }

    /** `checkMobile`, run on mount and on every resize: a narrow window hides the sidebar. */
    method CheckMobile(width: int)
      modifies this`isMobile, this`showSidebar
      ensures isMobile <==> width <= 768
      ensures showSidebar == if width <= 768 then false else old(showSidebar)
    {
      isMobile := width <= 768;
      if isMobile {
        showSidebar := false;
      }
    }

    /** The menu and list/map buttons shown on mobile. */
    method ToggleSidebar()
      modifies this`showSidebar
      ensures showSidebar == !old(showSidebar)
    {
      showSidebar := !showSidebar;
    }

    /** The load effect: a loaded university shows its buildings admin first; anything else shows an error. */
    method Load(param: Option<string>, getUniversity: string -> Fetch<University>, all: Fetch<seq<University>>)
      modifies this`university, this`error, this`loading, this`buildings, this`filtered
      ensures !loading
      ensures Shown(LoadUniversity(param, getUniversity, all).0, old(university), old(error), old(buildings), old(filtered))
    {
      Show(LoadUniversity(param, getUniversity, all).0);
    }

    /** The page state after a load with the given outcome. */
    ghost predicate Shown(outcome: LoadOutcome, university0: Option<University>, error0: Option<string>,
                          buildings0: seq<Building>, filtered0: seq<Building>)
      reads this
    {
      if outcome.Loaded? then
        university == Some(outcome.university) && buildings == outcome.buildings && filtered == outcome.buildings
        && error == error0
      else
        error == Some(LoadErrorMessage(outcome))
        && university == university0 && buildings == buildings0 && filtered == filtered0
    }

    method Show(outcome: LoadOutcome)
      modifies this`university, this`error, this`loading, this`buildings, this`filtered
      ensures !loading
      ensures Shown(outcome, old(university), old(error), old(buildings), old(filtered))
    {
      if outcome.Loaded? {
        university := Some(outcome.university);
        buildings := outcome.buildings;
        filtered := outcome.buildings;
      } else {
        error := Some(LoadErrorMessage(outcome));
      }
      loading := false;
    }

    /**
     * The search effect: an empty query shows every building; a server
     * reply is merged; a reported failure keeps the current list; a thrown
     * error falls back to the local search.
     */
    method Search(query: string, reply: SearchReply)
      modifies this`filtered
      ensures query == "" ==> filtered == buildings
      ensures query != "" && reply.SearchOk? ==>
        filtered == Merge(OrEmpty(reply.buildings), OrEmpty(reply.rooms), buildings)
      ensures query != "" && reply.SearchFailed? ==> filtered == old(filtered)
      ensures query != "" && reply.SearchThrew? ==> filtered == LocalSearch(buildings, query)
    {
      if query == "" {
        filtered := buildings;
      } else {
        match reply
        case SearchOk(direct, rooms) =>
          filtered := MergeHits(direct, rooms, buildings);
        case SearchFailed =>
        case SearchThrew =>
          filtered := LocalSearch(buildings, query);
      }
    }

    /**
     * `handleBuildingClick`: selects the building and, once its rooms arrive,
     * keeps the offices among them; on mobile the sidebar closes.
     */
    method BuildingClick(b: Building, rooms: Fetch<seq<Room>>)
      modifies this`selected, this`showDirections, this`showModal, this`showRoomsList, this`officeRooms, this`showSidebar
      ensures selected == Some(b) && !showDirections && showModal && !showRoomsList
      ensures officeRooms == if rooms.Fetched? && rooms.data.Some? then Filter(rooms.data.value, IsOfficeRoom)
                             else old(officeRooms)
      ensures showSidebar == if isMobile then false else old(showSidebar)
    {
      selected := Some(b);
      showDirections := false;
      showModal := true;
      showRoomsList := false;
      if rooms.Fetched? && rooms.data.Some? {
        officeRooms := Filter(rooms.data.value, IsOfficeRoom);
      }
      if isMobile {
        showSidebar := false;
      }
    }

    method LocationFound(location: Location)
      modifies this`userLocation
      ensures userLocation == Some(location)
    {
      userLocation := Some(location);
    }

    /** `handleShowDirections`: without a location only the prompt happens. */
    method ShowDirections() returns (prompted: bool)
      modifies this`showDirections, this`showModal
      ensures prompted <==> userLocation.None?
      ensures prompted ==> showDirections == old(showDirections) && showModal == old(showModal)
      ensures !prompted ==> showDirections && !showModal
    {
      if userLocation.None? {
        return true;
      }
      showDirections := true;
      showModal := false;
      return false;
    }

    /** `handleOpenInGoogleMaps`: the link opened for the selection, none without one. */
    method OpenInGoogleMaps(show: real -> string) returns (url: Option<string>)
      ensures url == GoogleMapsUrl(selected, userLocation, show)
    {
      url := GoogleMapsUrl(selected, userLocation, show);
    }
  }

  /** The office list holds exactly the fetched offices, in order. */
  lemma OfficeRoomsSpec(rooms: seq<Room>, r: Room)
    ensures r in Filter(rooms, IsOfficeRoom) <==> r in rooms && r.isOffice
    ensures IsSubseq(Filter(rooms, IsOfficeRoom), rooms)
  {
    FilterMember(rooms, IsOfficeRoom, r);
    FilterSubseq(rooms, IsOfficeRoom);
  }
}
