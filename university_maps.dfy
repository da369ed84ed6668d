/**
 * What the public map and the embeddable map share: the `?uni=` lookup
 * with its fallback to a name match, the admin-first building order, the
 * Google Maps link for the selected building and the links to the pages.
 */
module UniversityMaps {
  import opened Base
  import opened Campus

  /** A database read: its data (possibly null), a reported failure, or a thrown error. */
  datatype Fetch<T> = Fetched(data: Option<T>) | FetchFailed(error: string) | FetchThrew

  /** The reads the lookup performs, in order. */
  datatype Lookup = UniversityById(id: string) | AllUniversities

  datatype LoadOutcome =
    | MissingId                                            // no (or an empty) `uni` parameter
    | NotFound                                             // neither lookup produced a university
    | LoadError                                            // a read threw
    | Loaded(university: University, buildings: seq<Building>)

  /** `s.replace(/\s+/g, '')`. */
  function StripSpaces(s: string): (r: string)
    ensures forall k :: 0 <= k < |r| ==> !IsSpace(r[k])
  {
    Filter(s, c => !IsSpace(c))
  }

  /** The fallback match: the id itself, or the lower-cased name without white space contains the lower-cased id. */
  predicate NameMatch(u: University, uniId: string)
  {
    u.id == uniId || Contains(StripSpaces(ToLower(u.name)), ToLower(uniId))
  }

  /** The position of the first university that matches. */
  function FindIndex(us: seq<University>, uniId: string): (r: Option<nat>)
    ensures r.Some? ==> r.value < |us| && NameMatch(us[r.value], uniId)
                        && forall j :: 0 <= j < r.value ==> !NameMatch(us[j], uniId)
    ensures r.None? ==> forall k :: 0 <= k < |us| ==> !NameMatch(us[k], uniId)
  {
    if us == [] then None
    else if NameMatch(us[0], uniId) then Some(0)
    else match FindIndex(us[1..], uniId)
      case None => None
      case Some(k) => Some(k + 1)
  }

  /** `all.find(u => …)`: the first university that matches. */
  function FindUniversity(us: seq<University>, uniId: string): (r: Option<University>)
    ensures r.Some? ==> exists k :: 0 <= k < |us| && us[k] == r.value && NameMatch(us[k], uniId)
                                    && forall j :: 0 <= j < k ==> !NameMatch(us[j], uniId)
    ensures r.None? ==> forall k :: 0 <= k < |us| ==> !NameMatch(us[k], uniId)
  {
    match FindIndex(us, uniId)
    case None => None
    case Some(k) => Some(us[k])
  }

  /** The last step of the lookup: a university with data is loaded with its buildings admin first. */
  function Finish(result: Fetch<University>, calls: seq<Lookup>): (LoadOutcome, seq<Lookup>)
  {
    if result.Fetched? && result.data.Some? then
      var u := result.data.value;
      (Loaded(u, AdminFirst(if u.buildings.Some? then u.buildings.value else [])), calls)
    else if result.FetchThrew? then (LoadError, calls)
    else (NotFound, calls)
  }

  /** The fallback once the read by id has failed: read all universities, pick the first match, read it by id. */
  function Fallback(uniId: string, getUniversity: string -> Fetch<University>, all: Fetch<seq<University>>)
    : (r: (LoadOutcome, seq<Lookup>))
    ensures |r.1| >= 2 && r.1[..2] == [UniversityById(uniId), AllUniversities]
    ensures forall k :: 2 <= k < |r.1| ==> r.1[k].UniversityById?
    ensures r.0.Loaded? ==> |r.1| == 3 && getUniversity(r.1[2].id) == Fetched(Some(r.0.university))
  {
    var calls := [UniversityById(uniId), AllUniversities];
    match all
    case FetchThrew => (LoadError, calls)
    case FetchFailed(_) => (NotFound, calls)
    case Fetched(None) => (NotFound, calls)
    case Fetched(Some(us)) =>
      match FindUniversity(us, uniId)
      case None => (NotFound, calls)
      case Some(u) =>
        assert (calls + [UniversityById(u.id)])[..2] == calls;
        Finish(getUniversity(u.id), calls + [UniversityById(u.id)])
  }

  /**
   * `loadUniversity`: read by id; only when that read fails, fall back to
   * the list of all universities.
   */
  function LoadUniversity(param: Option<string>, getUniversity: string -> Fetch<University>,
                          all: Fetch<seq<University>>): (LoadOutcome, seq<Lookup>)
  {
    if param.None? || param.value == "" then (MissingId, [])
    else
      var uniId := param.value;
      var first := getUniversity(uniId);
      if !first.FetchFailed? then Finish(first, [UniversityById(uniId)])
      else Fallback(uniId, getUniversity, all)
  }

  /** A missing or empty `uni` parameter is reported before any read. */
  lemma LoadMissingId(param: Option<string>, getUniversity: string -> Fetch<University>, all: Fetch<seq<University>>)
    ensures LoadUniversity(param, getUniversity, all).0.MissingId? <==> param.None? || param.value == ""
    ensures LoadUniversity(param, getUniversity, all).0.MissingId? ==> LoadUniversity(param, getUniversity, all).1 == []
  {
  }

  /** The first read is by the given id, and the list of all universities is read exactly when it fails. */
  lemma LoadReads(param: Option<string>, getUniversity: string -> Fetch<University>, all: Fetch<seq<University>>)
    requires param.Some? && param.value != ""
    ensures var calls := LoadUniversity(param, getUniversity, all).1;
      calls[0] == UniversityById(param.value)
      && (AllUniversities in calls <==> getUniversity(param.value).FetchFailed?)
  {
    var calls := LoadUniversity(param, getUniversity, all).1;
    if getUniversity(param.value).FetchFailed? {
      assert calls[1] == AllUniversities;
    } else {
      assert calls == [UniversityById(param.value)];
    }
  }

  /** A read by id that returns a university loads it with no further read. */
  lemma LoadDirect(param: Option<string>, getUniversity: string -> Fetch<University>, all: Fetch<seq<University>>)
    requires param.Some? && param.value != ""
    requires getUniversity(param.value).Fetched? && getUniversity(param.value).data.Some?
    ensures LoadUniversity(param, getUniversity, all).0.Loaded?
    ensures LoadUniversity(param, getUniversity, all).0.university == getUniversity(param.value).data.value
    ensures LoadUniversity(param, getUniversity, all).1 == [UniversityById(param.value)]
  {
  }

  /**
   * A loaded university is what one of the reads by id returned, and its
   * buildings are the stable admin-first partition of its building list.
   */
  lemma LoadedSpec(param: Option<string>, getUniversity: string -> Fetch<University>, all: Fetch<seq<University>>)
    requires LoadUniversity(param, getUniversity, all).0.Loaded?
    ensures var (outcome, calls) := LoadUniversity(param, getUniversity, all);
      (exists k :: 0 <= k < |calls| && calls[k].UniversityById? && getUniversity(calls[k].id) == Fetched(Some(outcome.university)))
      && var bs := if outcome.university.buildings.Some? then outcome.university.buildings.value else [];
         outcome.buildings == Filter(bs, IsAdmin) + FilterOut(bs, IsAdmin)
  {
    var (outcome, calls) := LoadUniversity(param, getUniversity, all);
    var u := outcome.university;
    AdminFirstPartition(if u.buildings.Some? then u.buildings.value else []);
    if getUniversity(param.value).FetchFailed? {
      assert getUniversity(calls[2].id) == Fetched(Some(u));
    } else {
      assert getUniversity(calls[0].id) == Fetched(Some(u));
    }
  }

  /** The fallback lookup picks a university only when it matches the requested id or name. */
  lemma FallbackMatches(param: Option<string>, getUniversity: string -> Fetch<University>, us: seq<University>)
    requires param.Some? && param.value != "" && getUniversity(param.value).FetchFailed?
    ensures var (outcome, calls) := LoadUniversity(param, getUniversity, Fetched(Some(us)));
      |calls| == 3 <==> exists k :: 0 <= k < |us| && NameMatch(us[k], param.value)
  {
  }

  // ---------------------------------------------------------------------
  // Links
  // ---------------------------------------------------------------------

  /** A position from the browser's geolocation. */
  datatype Location = Location(latitude: real, longitude: real)

  const DirectionsPrefix := "https://www.google.com/maps/dir/?api=1&origin="
  const SearchPrefix := "https://www.google.com/maps/search/?api=1&query="

  /** `lat,lng` as the template prints it; `show` is JavaScript's number-to-string. */
  function LatLng(lat: real, lng: real, show: real -> string): string
  {
    show(lat) + "," + show(lng)
  }

  /**
   * `handleOpenInGoogleMaps`: nothing without a selection; walking
   * directions from the visitor when a location is known, else a search.
   */
  function GoogleMapsUrl(selected: Option<Building>, location: Option<Location>, show: real -> string): Option<string>
  {
    if selected.None? then None
    else
      var dest := LatLng(selected.value.coordinates.lat, selected.value.coordinates.lng, show);
      if location.Some? then
        Some(DirectionsPrefix + LatLng(location.value.latitude, location.value.longitude, show)
             + "&destination=" + dest + "&travelmode=walking")
      else Some(SearchPrefix + dest)
  }

  /**
   * The link is a directions link exactly when a location is known, and
   * either way it names the building latitude first: the stored pair is
   * `[lng, lat]` and the link swaps it.
   */
  lemma GoogleMapsUrlSpec(selected: Option<Building>, location: Option<Location>, show: real -> string)
    ensures GoogleMapsUrl(selected, location, show).Some? <==> selected.Some?
    ensures selected.Some? ==>
      var url := GoogleMapsUrl(selected, location, show).value;
      var dest := LatLng(selected.value.coordinates.lat, selected.value.coordinates.lng, show);
      (StartsWith(url, DirectionsPrefix) <==> location.Some?)
      && (location.None? ==> url == SearchPrefix + dest && StartsWith(url, SearchPrefix))
      && Contains(url, dest)
  {
    if selected.Some? {
      var url := GoogleMapsUrl(selected, location, show).value;
      var dest := LatLng(selected.value.coordinates.lat, selected.value.coordinates.lng, show);
      if location.Some? {
        var from := LatLng(location.value.latitude, location.value.longitude, show);
        assert url == (DirectionsPrefix + from + "&destination=") + dest + "&travelmode=walking";
        ContainsMiddle(DirectionsPrefix + from + "&destination=", dest, "&travelmode=walking");
        assert url[..|DirectionsPrefix|] == DirectionsPrefix;
      } else {
        assert url == SearchPrefix + dest + "";
        ContainsMiddle(SearchPrefix, dest, "");
        assert url[..|SearchPrefix|] == SearchPrefix;
        assert url[..|DirectionsPrefix|] != DirectionsPrefix by {
          assert url[28] == 's' && DirectionsPrefix[28] == 'd';
        }
      }
    }
  }

  /** The shareable public link of a university. */
  function PublicMapLink(origin: string, uniId: string): string
  {
    origin + "/map?uni=" + uniId
  }

  /** The iframe source of the embeddable map. */
  function EmbedLink(origin: string, uniId: string): string
  {
    origin + "/embed?uni=" + uniId
  }

  /** `query=value` is the last thing in the link, so the id can be read back off either link. */
  lemma LinksEndWithId(origin: string, uniId: string)
    ensures EndsWith(PublicMapLink(origin, uniId), "?uni=" + uniId)
    ensures EndsWith(EmbedLink(origin, uniId), "?uni=" + uniId)
    ensures PublicMapLink(origin, uniId)[..|origin|] == origin && EmbedLink(origin, uniId)[..|origin|] == origin
  {
    assert PublicMapLink(origin, uniId) == (origin + "/map") + ("?uni=" + uniId);
    assert EmbedLink(origin, uniId) == (origin + "/embed") + ("?uni=" + uniId);
  }
}
