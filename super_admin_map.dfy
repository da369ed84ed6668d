/**
 * The super-admin overview map: one marker per university that has
 * buildings, placed at its admin building (or its first building), and a
 * sidebar search over university names and cities.
 */
module SuperAdminMap {
  import opened Base
  import opened Campus
  import opened UniversityMaps

  /** The sidebar search: the lower-cased name or city contains the lower-cased query. */
  predicate UniversityMatches(query: string, u: University)
  {
    Contains(ToLower(u.name), ToLower(query)) || Contains(ToLower(u.city), ToLower(query))
  }

  function FilterUniversities(us: seq<University>, query: string): seq<University>
  {
    if query == "" then us else Filter(us, (u: University) => UniversityMatches(query, u))
  }

  /** An empty query keeps every university; another keeps, in order, exactly those that match. */
  lemma FilterUniversitiesSpec(us: seq<University>, query: string)
    ensures query == "" ==> FilterUniversities(us, query) == us
    ensures query != "" ==> forall u :: u in FilterUniversities(us, query) <==> u in us && UniversityMatches(query, u)
    ensures IsSubseq(FilterUniversities(us, query), us)
  {
    var p := (u: University) => UniversityMatches(query, u);
    if query == "" {
      SubseqRefl(us);
    } else {
      FilterSubseq(us, p);
      forall u ensures u in Filter(us, p) <==> u in us && p(u) { FilterMember(us, p, u); }
    }
  }

  /** A university's detail record when its read succeeded, else the summary already loaded. */
  function Detailed(summary: University, detail: string -> Option<University>): (r: University)
    ensures detail(summary.id).None? ==> r == summary
  {
    if detail(summary.id).Some? then detail(summary.id).value else summary
  }

  predicate HasBuildings(u: University)
  {
    u.buildings.Some? && |u.buildings.value| > 0
  }

  /** `buildings.find(b => b.is_admin_building)`. */
  function FindAdmin(bs: seq<Building>): (r: Option<nat>)
    ensures r.Some? ==> r.value < |bs| && bs[r.value].isAdminBuilding
                        && forall j :: 0 <= j < r.value ==> !bs[j].isAdminBuilding
    ensures r.None? ==> forall k :: 0 <= k < |bs| ==> !bs[k].isAdminBuilding
  {
    if bs == [] then None
    else if bs[0].isAdminBuilding then Some(0)
    else match FindAdmin(bs[1..])
      case None => None
      case Some(k) => Some(k + 1)
  }

  /** The marker of one university. */
  datatype DisplayBuilding = DisplayBuilding(id: string, name: string, category: string, coordinates: Coordinates,
                                             description: string, university: University, isAdminBuilding: bool)

  /** "N building" with an `s` unless N is one. */
  function BuildingCountLabel(n: nat): string
  {
    NatToString(n) + " building" + (if n != 1 then "s" else "")
  }

  /** The building the marker stands at: the first admin building, else the first. */
  function DisplayBuildingOf(bs: seq<Building>): Building
    requires |bs| > 0
  {
    match FindAdmin(bs)
    case Some(k) => bs[k]
    case None => bs[0]
  }

  function MarkerFor(u: University): DisplayBuilding
    requires HasBuildings(u)
  {
    var bs := u.buildings.value;
    var b := DisplayBuildingOf(bs);
    DisplayBuilding(u.id, u.name, u.city, b.coordinates, BuildingCountLabel(|bs|), u, b.isAdminBuilding)
  }

  /** The markers: one per university with buildings, in order. */
  function DisplayBuildings(us: seq<University>): (r: seq<DisplayBuilding>)
    ensures |r| == |Filter(us, HasBuildings)|
  {
    var withBuildings := Filter(us, HasBuildings);
    seq(|withBuildings|, k requires 0 <= k < |withBuildings| => MarkerFor(withBuildings[k]))
  }

  /**
   * Each marker is the university it stands for, under that university's
   * id, at the first admin building when there is one and at the first
   * building otherwise, flagged admin exactly when it stands at an admin
   * building; universities without buildings get none.
   */
  lemma DisplayBuildingsSpec(us: seq<University>)
    ensures forall k :: 0 <= k < |DisplayBuildings(us)| ==>
      var d := DisplayBuildings(us)[k];
      var u := Filter(us, HasBuildings)[k];
      var bs := u.buildings.value;
      d.university == u && d.id == u.id && d.category == u.city && HasBuildings(u) && u in us
      && (d.isAdminBuilding <==> exists j :: 0 <= j < |bs| && bs[j].isAdminBuilding)
      && (d.isAdminBuilding ==> FindAdmin(bs).Some? && d.coordinates == bs[FindAdmin(bs).value].coordinates)
      && (!d.isAdminBuilding ==> d.coordinates == bs[0].coordinates)
    ensures forall u :: u in us && HasBuildings(u) ==> exists k :: 0 <= k < |DisplayBuildings(us)| && DisplayBuildings(us)[k].university == u
  {
    var f := Filter(us, HasBuildings);
    forall k | 0 <= k < |f| ensures f[k] in us { FilterMember(us, HasBuildings, f[k]); }
    forall u | u in us && HasBuildings(u)
      ensures exists k :: 0 <= k < |DisplayBuildings(us)| && DisplayBuildings(us)[k].university == u
    {
      FilterMember(us, HasBuildings, u);
      var k :| 0 <= k < |f| && f[k] == u;
      assert DisplayBuildings(us)[k].university == u;
    }
  }

  /** Distinct university ids give distinct marker ids. */
  lemma DisplayIdsUnique(us: seq<University>)
    requires forall i, j :: 0 <= i < |us| && 0 <= j < |us| && us[i].id == us[j].id ==> i == j
    ensures forall i, j :: 0 <= i < |DisplayBuildings(us)| && 0 <= j < |DisplayBuildings(us)|
                           && DisplayBuildings(us)[i].id == DisplayBuildings(us)[j].id
                           ==> i == j
  {
    var f := Filter(us, HasBuildings);
    var d := DisplayBuildings(us);
    FilterNoDupIds(us);
    forall i, j | 0 <= i < |d| && 0 <= j < |d| && d[i].id == d[j].id ensures i == j {
      assert d[i].id == f[i].id && d[j].id == f[j].id;
      assert f[i].id == f[j].id;
    }
  }

  lemma {:induction false} FilterNoDupIds(us: seq<University>)
    requires forall i, j :: 0 <= i < |us| && 0 <= j < |us| && us[i].id == us[j].id ==> i == j
    ensures forall i, j :: 0 <= i < |Filter(us, HasBuildings)| && 0 <= j < |Filter(us, HasBuildings)|
                           && Filter(us, HasBuildings)[i].id == Filter(us, HasBuildings)[j].id
                           ==> i == j
  {
    if us != [] {
      FilterNoDupIds(us[1..]);
      var rest := Filter(us[1..], HasBuildings);
      forall k | 0 <= k < |rest| ensures rest[k].id != us[0].id {
        FilterMember(us[1..], HasBuildings, rest[k]);
        var m :| 0 <= m < |us[1..]| && us[1..][m] == rest[k];
        assert us[m + 1] == rest[k];
      }
    }
  }

  /** "N building(s)": the label reads back as the count, plural exactly when it is not one. */
  lemma BuildingCountLabelSpec(n: nat)
    ensures |NatToString(n)| <= |BuildingCountLabel(n)|
    ensures BuildingCountLabel(n)[..|NatToString(n)|] == NatToString(n)
    ensures ParseDigits(BuildingCountLabel(n)[..|NatToString(n)|]) == n
    ensures EndsWith(BuildingCountLabel(n), "s") <==> n != 1
  {
    ParseNatToString(n);
    var text := BuildingCountLabel(n);
    assert text[..|NatToString(n)|] == NatToString(n);
    if n == 1 {
      assert text == "1 building";
    }
  }

  class SuperAdminMapPage {
    var universities: seq<University>
    var filtered: seq<University>
    var displayBuildings: seq<DisplayBuilding>
    var searchQuery: string
    var selected: Option<University>
    var showSidebar: bool
    var isMobile: bool
    var loading: bool

    constructor ()
      ensures universities == [] && filtered == [] && displayBuildings == [] && searchQuery == ""
      ensures selected == None && showSidebar && !isMobile && loading
    {
      universities := [];
      filtered := [];
      displayBuildings := [];
      searchQuery := "";
      selected := None;
      showSidebar := true;
      isMobile := false;
      loading := true;
    }

    /**
     * `loadUniversities`: every university is replaced by its detail
     * record when that read succeeds, and the markers are derived from the
     * result; a failed list read only ends loading.
     */
    method LoadUniversities(list: Fetch<seq<University>>, detail: string -> Option<University>)
      modifies this`universities, this`filtered, this`displayBuildings, this`loading
      ensures !loading
      ensures !list.Fetched? ==>
        universities == old(universities) && filtered == old(filtered) && displayBuildings == old(displayBuildings)
      ensures list.Fetched? ==>
        var summaries := if list.data.Some? then list.data.value else [];
        |universities| == |summaries|
        && (forall k :: 0 <= k < |summaries| ==> universities[k] == Detailed(summaries[k], detail))
        && filtered == universities && displayBuildings == DisplayBuildings(universities)
    {
      loading := true;
      if !list.Fetched? {
        loading := false;
        return;
      }
      var summaries := if list.data.Some? then list.data.value else [];
      var withBuildings := seq(|summaries|, k requires 0 <= k < |summaries| => Detailed(summaries[k], detail));
      universities := withBuildings;
      filtered := withBuildings;
      displayBuildings := DisplayBuildings(withBuildings);
      loading := false;
    }

    /** The search effect: the filtered list follows the query over the loaded universities. */
    method SetSearchQuery(query: string)
      modifies this`searchQuery, this`filtered
      ensures searchQuery == query && filtered == FilterUniversities(universities, query)
    {
      searchQuery := query;
      filtered := FilterUniversities(universities, query);
    }

    /** `checkMobile`: a narrow window (at most 768) hides the sidebar; a wide one leaves it as it is. */
    method CheckMobile(width: int)
      modifies this`isMobile, this`showSidebar
      ensures isMobile <==> width <= 768
      ensures showSidebar == if width <= 768 then false else old(showSidebar)
    {
      isMobile := width <= 768;
      if isMobile {
        showSidebar := false;
      }
    }

    /** `handleUniversityClick`: selects the marker's university and, on mobile, hides the sidebar. */
    method UniversityClick(d: DisplayBuilding)
      modifies this`selected, this`showSidebar
      ensures selected == Some(d.university)
      ensures showSidebar == if isMobile then false else old(showSidebar)
    {
      selected := Some(d.university);
      if isMobile {
        showSidebar := false;
      }
    }
  }

  /** `handleViewDashboard`: the university's public map. */
  function ViewLink(universityId: string): (r: string)
    ensures EndsWith(r, "?uni=" + universityId)
  {
    LinksEndWithId("", universityId);
    PublicMapLink("", universityId)
  }
}
