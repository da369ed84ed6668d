/**
 * The embeddable campus map a university places in an iframe: the same
 * lookup as the public map, and a compact building card that lists at most
 * three offices and three facilities.
 */
module EmbedMap {
  import opened Base
  import opened Campus
  import opened UniversityMaps

  /** The card's office list: at most three offices, and the number left out. */
  datatype OfficeSummary = OfficeSummary(shown: seq<Room>, more: Option<string>)

  /** `officeRooms.slice(0, 3)` plus the "+N more offices" line when there are more than three. */
  function Offices(offices: seq<Room>): OfficeSummary
  {
    OfficeSummary(Take(offices, 3), if |offices| > 3 then Some("+" + NatToString(|offices| - 3) + " more offices") else None)
  }

  /**
   * The card shows the first offices, at most three, in order; a "more"
   * line appears exactly when offices were left out, and the number it
   * names plus the shown ones is the number of offices.
   */
  lemma OfficesSpec(offices: seq<Room>)
    ensures |Offices(offices).shown| == if |offices| < 3 then |offices| else 3
    ensures Offices(offices).shown + offices[|Offices(offices).shown|..] == offices
    ensures Offices(offices).more.Some? <==> |offices| > 3
    ensures Offices(offices).more.Some? ==>
      exists hidden: nat :: Offices(offices).more.value == "+" + NatToString(hidden) + " more offices"
                            && |Offices(offices).shown| + hidden == |offices|
  {
    var r := Offices(offices);
    assert r.shown + offices[|r.shown|..] == offices;
    if |offices| > 3 {
      var hidden: nat := |offices| - 3;
      assert r.more.value == "+" + NatToString(hidden) + " more offices";
    }
  }

  /** The facilities line: the first three joined with ", ", then " +N more" when there are more. */
  function FacilitiesLine(facilities: seq<string>): string
  {
    Join(Take(facilities, 3), ", ") + (if |facilities| > 3 then " +" + NatToString(|facilities| - 3) + " more" else "")
  }

  /** The section is rendered only for a non-empty facility list. */
  function FacilitiesSection(b: Building): Option<string>
  {
    if b.facilities.Some? && |b.facilities.value| > 0 then Some(FacilitiesLine(b.facilities.value)) else None
  }

  /**
   * With at most three facilities the line lists them all and can be read
   * back with the comma-list parser; with more, the first three can be read
   * back from the part before the count, and the count is the rest.
   */
  lemma FacilitiesLineSpec(facilities: seq<string>)
    requires forall k :: 0 <= k < |facilities| ==> ListItem(facilities[k])
    ensures |facilities| <= 3 ==> ParseList(FacilitiesLine(facilities)) == facilities
    ensures |facilities| > 3 ==>
      FacilitiesLine(facilities) == Join(facilities[..3], ", ") + (" +" + NatToString(|facilities| - 3) + " more")
      && ParseList(Join(facilities[..3], ", ")) == facilities[..3]
  {
    if |facilities| <= 3 {
      assert Take(facilities, 3) == facilities;
      var line := Join(facilities, ", ");
      assert FacilitiesLine(facilities) == line + "";
      assert line + "" == line;
      ParseJoinRoundTrip(facilities);
    } else {
      var shown := facilities[..3];
      assert Take(facilities, 3) == shown;
      assert forall k :: 0 <= k < |shown| ==> ListItem(shown[k]) by {
        forall k | 0 <= k < |shown| ensures ListItem(shown[k]) { assert shown[k] == facilities[k]; }
      }
      ParseJoinRoundTrip(shown);
    }
  }

  /** The "open full map" link: the public map of the same `uni` parameter (`null` when absent). */
  function FullMapUrl(origin: string, uni: Option<string>): string
  {
    origin + "/map?uni=" + (if uni.Some? then uni.value else "null")
  }

  /** For a present parameter the link is exactly the public link the admin dashboard hands out. */
  lemma FullMapUrlIsPublicLink(origin: string, uniId: string)
    ensures FullMapUrl(origin, Some(uniId)) == PublicMapLink(origin, uniId)
  {
  }

  function LoadErrorMessage(outcome: LoadOutcome): string
  {
    match outcome
    case MissingId => "University ID is required. Please use the embed code provided by your university."
    case NotFound => "University not found. Please check the embed code."
    case _ => "Failed to load university data. Please try again later."
  }

  class EmbedMapPage {
    var university: Option<University>
    var error: Option<string>
    var loading: bool
    var buildings: seq<Building>
    var selected: Option<Building>
    var userLocation: Option<Location>
    var showDirections: bool
    var showModal: bool
    var officeRooms: seq<Room>

    constructor ()
      ensures university == None && error == None && loading && buildings == []
      ensures selected == None && userLocation == None && !showDirections && !showModal && officeRooms == []
    {
      university := None;
      error := None;
      loading := true;
      buildings := [];
      selected := None;
      userLocation := None;
      showDirections := false;
      showModal := false;
      officeRooms := [];
    }

    /** The page state after a load with the given outcome. */
    ghost predicate Shown(outcome: LoadOutcome, university0: Option<University>, error0: Option<string>,
                          buildings0: seq<Building>)
      reads this
    {
      if outcome.Loaded? then
        university == Some(outcome.university) && buildings == outcome.buildings && error == error0
      else
        error == Some(LoadErrorMessage(outcome)) && university == university0 && buildings == buildings0
    }

    /** The load effect, with the embed page's messages. */
    method Load(param: Option<string>, getUniversity: string -> Fetch<University>, all: Fetch<seq<University>>)
      modifies this`university, this`error, this`loading, this`buildings
      ensures !loading
      ensures Shown(LoadUniversity(param, getUniversity, all).0, old(university), old(error), old(buildings))
    {
      Show(LoadUniversity(param, getUniversity, all).0);
    }

    method Show(outcome: LoadOutcome)
      modifies this`university, this`error, this`loading, this`buildings
      ensures !loading
      ensures Shown(outcome, old(university), old(error), old(buildings))
    {
      if outcome.Loaded? {
        university := Some(outcome.university);
        buildings := outcome.buildings;
      } else {
        error := Some(LoadErrorMessage(outcome));
      }
      loading := false;
    }

    /** `handleBuildingClick`: selects the building and, once its rooms arrive, keeps the offices among them. */
    method BuildingClick(b: Building, rooms: Fetch<seq<Room>>)
      modifies this`selected, this`showDirections, this`showModal, this`officeRooms
      ensures selected == Some(b) && !showDirections && showModal
      ensures officeRooms == if rooms.Fetched? && rooms.data.Some? then Filter(rooms.data.value, IsOfficeRoom)
                             else old(officeRooms)
    {
      selected := Some(b);
      showDirections := false;
      showModal := true;
      if rooms.Fetched? && rooms.data.Some? {
        officeRooms := Filter(rooms.data.value, IsOfficeRoom);
      }
    }

    method LocationFound(location: Location)
      modifies this`userLocation
      ensures userLocation == Some(location)
    {
      userLocation := Some(location);
    }

    /**
     * `handleShowDirections`: without a location it only asks, and requests
     * the location when the visitor agrees; with one it enters directions
     * mode and closes the card.
     */
    method ShowDirections(agreed: bool) returns (requested: bool)
      modifies this`showDirections, this`showModal
      ensures requested <==> userLocation.None? && agreed
      ensures userLocation.None? ==> showDirections == old(showDirections) && showModal == old(showModal)
      ensures userLocation.Some? ==> showDirections && !showModal
    {
      if userLocation.None? {
        return agreed;
      }
      showDirections := true;
      showModal := false;
      return false;
    }

    /** `handleCloseModal`: clears the selection and both flags. */
    method CloseModal()
      modifies this`selected, this`showDirections, this`showModal
      ensures selected == None && !showDirections && !showModal
    {
      selected := None;
      showDirections := false;
      showModal := false;
    }
  }
}
