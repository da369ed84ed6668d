/**
 * The records the maps, dashboards and room editors exchange with the
 * database: universities, buildings and rooms with their timetables, and
 * the two list operations several pages share (admin building first,
 * de-duplication by id).
 */
module Campus {
  import opened Base
  import opened Assoc

  /** Stored as the pair `[longitude, latitude]`. */
  datatype Coordinates = Coordinates(lng: real, lat: real)

  /** A `key_offices` row; `id` is its primary key. */
  datatype KeyOffice = KeyOffice(id: string, name: string, purpose: string, hours: string, roomNumber: string)

  /**
   * A building row. Optional columns are `None` when the row has no value
   * (null or missing). `roomsAggregate` is the `rooms(count)` join the admin
   * dashboard reads (its first entry is the count) and `roomCount` the
   * fallback `room_count` column, 0 when absent.
   */
  datatype Building = Building(
    id: string,
    universityId: Option<string>,
    name: string,
    coordinates: Coordinates,
    category: Option<string>,
    description: Option<string>,
    facilities: Option<seq<string>>,
    departments: Option<seq<string>>,
    hours: Option<string>,
    isAdminBuilding: bool,
    keyOffices: Option<seq<KeyOffice>>,
    roomsAggregate: seq<int>,
    roomCount: int)

  datatype University = University(id: string, name: string, city: string, buildings: Option<seq<Building>>)

  /** One timetable slot: its display time and the services offered in it. */
  datatype Slot = Slot(time: string, services: seq<string>)

  /** A day maps slot keys to slots, the schedule maps day names to days (both JS objects). */
  type DaySchedule = seq<(string, Slot)>
  type Schedule = seq<(string, DaySchedule)>

  /** The day's slots, `{}` when the schedule has no entry for it. */
  function DayOf(schedule: Schedule, day: string): DaySchedule
  {
    match Get(schedule, day)
    case None => []
    case Some(d) => d
  }

  datatype Timetable = Timetable(services: Option<seq<string>>, schedule: Option<Schedule>, notes: Option<string>)

  datatype Room = Room(
    id: string,
    buildingId: string,
    roomNumber: string,
    roomName: string,
    isOffice: bool,
    purpose: Option<string>,
    hours: Option<string>,
    floor: Option<int>,
    timetable: Option<Timetable>)

  predicate IsOfficeRoom(r: Room) { r.isOffice }

  /** What a database write answered: success, or failure with the error message (also a thrown error's message). */
  datatype WriteReply = WriteOk | WriteFailed(error: string)

  /** The weekdays the timetable components iterate over, in display order. */
  const Days: seq<string> := ["monday", "tuesday", "wednesday", "thursday", "friday", "saturday", "sunday"]

  predicate IsAdmin(b: Building) { b.isAdminBuilding }

  /**
   * The maps' sort comparator, read as "a may precede b": -1 when only a is
   * an admin building, 1 when only b is, 0 otherwise.
   */
  predicate AdminLe(a: Building, b: Building)
  {
    var c := if a.isAdminBuilding && !b.isAdminBuilding then -1
             else if !a.isAdminBuilding && b.isAdminBuilding then 1
             else 0;
    c <= 0
  }

  /** The map pages' building order: `buildings.sort(admin first)`. */
  function AdminFirst(bs: seq<Building>): seq<Building>
  {
    SortBy(bs, AdminLe)
  }

  /**
   * The admin-first order is the stable partition: the admin buildings in
   * their loaded order, then all the others in theirs.
   */
  lemma AdminFirstPartition(bs: seq<Building>)
    ensures AdminFirst(bs) == Filter(bs, IsAdmin) + FilterOut(bs, IsAdmin)
  {
    SortByFlagFirst(bs, AdminLe, IsAdmin);
  }

  /** Ids of a sequence of buildings, as a set. */
  function IdSet(bs: seq<Building>): set<string>
  {
    if bs == [] then {} else {bs[0].id} + IdSet(bs[1..])
  }

  ghost predicate UniqueIds(bs: seq<Building>)
  {
    forall i, j :: 0 <= i < j < |bs| ==> bs[i].id != bs[j].id
  }

  /** A filter keeps ids unique. */
  lemma {:induction false} FilterUniqueIds(bs: seq<Building>, p: Building -> bool)
    requires UniqueIds(bs)
    ensures UniqueIds(Filter(bs, p))
    decreases |bs|
  {
    if bs != [] {
      var rest := Filter(bs[1..], p);
      FilterUniqueIds(bs[1..], p);
      if p(bs[0]) {
        forall k | 0 <= k < |rest| ensures rest[k].id != bs[0].id {
          FilterMember(bs[1..], p, rest[k]);
          var j :| 0 <= j < |bs[1..]| && bs[1..][j] == rest[k];
          assert bs[j + 1] == rest[k];
        }
      }
    }
  }

  /**
   * Keeps the first building for every id not in `seen`, in order: the
   * `Set` of ids plus `push` the search merge uses.
   */
  function DedupFrom(bs: seq<Building>, seen: set<string>): seq<Building>
    decreases |bs|
  {
    if bs == [] then []
    else if bs[0].id in seen then DedupFrom(bs[1..], seen)
    else [bs[0]] + DedupFrom(bs[1..], seen + {bs[0].id})
  }

  /**
   * The de-duplicated list holds buildings of the input whose ids were not
   * seen, no id twice, and every unseen id of the input once.
   */
  lemma {:induction false} DedupFromSpec(bs: seq<Building>, seen: set<string>)
    ensures forall i :: 0 <= i < |DedupFrom(bs, seen)| ==> DedupFrom(bs, seen)[i] in bs && DedupFrom(bs, seen)[i].id !in seen
    ensures UniqueIds(DedupFrom(bs, seen))
    ensures IdSet(DedupFrom(bs, seen)) == IdSet(bs) - seen
    decreases |bs|
  {
    if bs != [] {
      var x := bs[0];
      if x.id in seen {
        DedupFromSpec(bs[1..], seen);
      } else {
        var rest := DedupFrom(bs[1..], seen + {x.id});
        DedupFromSpec(bs[1..], seen + {x.id});
        var r := [x] + rest;
        assert r[1..] == rest;
        forall i | 1 <= i < |r| ensures r[i].id != x.id { assert r[i] == rest[i - 1]; }
      }
    }
  }

  /** `xs?.some(x => x.toLowerCase().includes(q))`, with `q` already lower-cased. */
  predicate SomeContains(xs: Option<seq<string>>, q: string)
  {
    xs.Some? && exists k :: 0 <= k < |xs.value| && Contains(ToLower(xs.value[k]), q)
  }

  /**
   * The building search of the map pages: the name, the category, a
   * department or a facility contains the query, ignoring case.
   */
  predicate Matches(query: string, b: Building)
  {
    var q := ToLower(query);
    Contains(ToLower(b.name), q)
    || (b.category.Some? && Contains(ToLower(b.category.value), q))
    || SomeContains(b.departments, q)
    || SomeContains(b.facilities, q)
  }

  /** The public map's local search also matches key office names. */
  predicate MatchesWithOffices(query: string, b: Building)
  {
    Matches(query, b)
    || (b.keyOffices.Some?
        && exists k :: 0 <= k < |b.keyOffices.value| && Contains(ToLower(b.keyOffices.value[k].name), ToLower(query)))
  }

  lemma {:induction false} IdSetConcat(a: seq<Building>, b: seq<Building>)
    ensures IdSet(a + b) == IdSet(a) + IdSet(b)
    decreases |a|
  {
    if a == [] {
      assert a + b == b;
    } else {
      assert (a + b)[1..] == a[1..] + b;
      IdSetConcat(a[1..], b);
    }
  }

  /** De-duplicating a concatenation treats the second part as if the first part's ids were already seen. */
  lemma {:induction false} DedupFromConcat(a: seq<Building>, b: seq<Building>, seen: set<string>)
    ensures DedupFrom(a + b, seen) == DedupFrom(a, seen) + DedupFrom(b, seen + IdSet(a))
    decreases |a|
  {
    if a == [] {
      assert a + b == b;
      assert seen + IdSet(a) == seen;
    } else {
      var x, rest := a[0], a[1..];
      var s' := if x.id in seen then seen else seen + {x.id};
      DedupFromConcat(rest, b, s');
      assert s' + IdSet(rest) == seen + IdSet(a) by {
        assert IdSet(a) == {x.id} + IdSet(rest);
      }
      assert a + b == [x] + (rest + b);
      if x.id in seen {
        assert DedupFrom(a + b, seen) == DedupFrom(rest + b, seen);
      } else {
        assert DedupFrom(a + b, seen) == [x] + DedupFrom(rest + b, s');
      }
    }
  }

  predicate Truthy(s: Option<string>) { s.Some? && s.value != [] }

  /** `buildings.find(b => b.id === id)`. */
  function FindById(bs: seq<Building>, id: string): (r: Option<Building>)
    ensures r.Some? ==> r.value in bs && r.value.id == id
    ensures r.Some? ==> exists i :: 0 <= i < |bs| && bs[i] == r.value && forall j :: 0 <= j < i ==> bs[j].id != id
    ensures r.None? ==> forall i :: 0 <= i < |bs| ==> bs[i].id != id
  {
    if bs == [] then None
    else if bs[0].id == id then Some(bs[0])
    else
      var r := FindById(bs[1..], id);
      assert forall j :: 0 <= j < |bs| - 1 ==> bs[1..][j] == bs[j + 1];
      r
  }
}
