/**
 * The university admin's dashboard: the redirect without a session, the
 * room total over the university's buildings, the save and delete
 * handlers around the building modal, and the share link and embed code.
 */
module AdminDashboard {
  import opened Base
  import opened Campus
  import opened UniversityMaps
  import opened AdminAuth

  /** The mount effect: without a session the page sends the visitor to the login page. */
  function DashboardRedirect(session: Option<Session>): (r: Option<string>)
    ensures r.None? <==> session.Some?
    ensures r.Some? ==> r.value == "/admin/login"
  {
    if session.None? then Some("/admin/login") else None
  }

  // ---------------------------------------------------------------------
  // Room total
  // ---------------------------------------------------------------------

  /** `building.rooms?.[0]?.count || building.room_count || 0`: a zero count falls through. */
  function RoomsOf(b: Building): int
  {
    if |b.roomsAggregate| > 0 && b.roomsAggregate[0] != 0 then b.roomsAggregate[0] else b.roomCount
  }

  /** `reduce((total, b) => total + count, 0)`, folding from the left. */
  function SumRooms(bs: seq<Building>): int
    decreases |bs|
  {
    if bs == [] then 0 else SumRooms(bs[..|bs| - 1]) + RoomsOf(bs[|bs| - 1])
  }

  /** `getTotalRoomsCount`: nothing loaded, or no building list, counts zero. */
  function TotalRooms(university: Option<University>): (r: int)
    ensures university.None? || university.value.buildings.None? ==> r == 0
    ensures university.Some? && university.value.buildings.Some? ==> r == SumRooms(university.value.buildings.value)
  {
    if university.None? || university.value.buildings.None? then 0
    else SumRooms(university.value.buildings.value)
  }

  /** The total of two lists of buildings is the sum of their totals. */
  lemma {:induction false} SumRoomsConcat(a: seq<Building>, b: seq<Building>)
    ensures SumRooms(a + b) == SumRooms(a) + SumRooms(b)
    decreases |b|
  {
    if b == [] {
      assert a + b == a;
    } else {
      var init := b[..|b| - 1];
      assert (a + b)[..|a + b| - 1] == a + init;
      SumRoomsConcat(a, init);
    }
  }

  /** Splitting the buildings by any property splits the total: room counts depend on no order. */
  lemma {:induction false} SumRoomsSplit(bs: seq<Building>, p: Building -> bool)
    ensures SumRooms(bs) == SumRooms(Filter(bs, p)) + SumRooms(FilterOut(bs, p))
    decreases |bs|
  {
    if bs != [] {
      var head := [bs[0]];
      assert bs == head + bs[1..];
      SumRoomsConcat(head, bs[1..]);
      SumRoomsSplit(bs[1..], p);
      var kept := if p(bs[0]) then head else [];
      var dropped := if p(bs[0]) then [] else head;
      SumRoomsConcat(kept, Filter(bs[1..], p));
      SumRoomsConcat(dropped, FilterOut(bs[1..], p));
    }
  }

  /** The total is the same whether the buildings are listed as loaded or admin building first. */
  lemma TotalRoomsAdminFirst(bs: seq<Building>)
    ensures SumRooms(AdminFirst(bs)) == SumRooms(bs)
  {
    AdminFirstPartition(bs);
    SumRoomsConcat(Filter(bs, IsAdmin), FilterOut(bs, IsAdmin));
    SumRoomsSplit(bs, IsAdmin);
  }

  /** With no negative count, the total is at least every building's own count. */
  lemma {:induction false} SumRoomsBounds(bs: seq<Building>)
    requires forall k :: 0 <= k < |bs| ==> RoomsOf(bs[k]) >= 0
    ensures SumRooms(bs) >= 0
    ensures forall k :: 0 <= k < |bs| ==> RoomsOf(bs[k]) <= SumRooms(bs)
    decreases |bs|
  {
    if bs != [] {
      var init := bs[..|bs| - 1];
      assert forall k :: 0 <= k < |init| ==> init[k] == bs[k];
      SumRoomsBounds(init);
    }
  }

  /** A building whose aggregate count is non-zero counts that number; otherwise its `room_count`. */
  lemma SumRoomsSingle(b: Building)
    ensures SumRooms([b]) == if |b.roomsAggregate| > 0 && b.roomsAggregate[0] != 0 then b.roomsAggregate[0] else b.roomCount
  {
    assert [b][..0] == [];
  }

  // ---------------------------------------------------------------------
  // Share link, embed code, recent buildings
  // ---------------------------------------------------------------------

  const EmbedHead := "<iframe \n  src=\""
  const EmbedTail := "\" \n  width=\"100%\" \n  height=\"600\" \n  frameborder=\"0\" \n  allowfullscreen>\n</iframe>"

  /** `getEmbedCode`: an iframe whose `src` is the embeddable map of the university. */
  function EmbedCode(origin: string, universityId: string): (r: string)
    ensures Contains(r, EmbedLink(origin, universityId))
    ensures StartsWith(r, EmbedHead) && EndsWith(r, EmbedTail)
  {
    ContainsMiddle(EmbedHead, EmbedLink(origin, universityId), EmbedTail);
    EmbedHead + EmbedLink(origin, universityId) + EmbedTail
  }

  /** Fixed text around a middle part: equal results have equal middles. */
  lemma MiddleInjective<T>(p: seq<T>, x: seq<T>, y: seq<T>, q: seq<T>)
    requires p + x + q == p + y + q
    ensures x == y
  {
    assert |x| == |y|;
    assert (p + x + q)[|p|..|p| + |x|] == x;
    assert (p + y + q)[|p|..|p| + |y|] == y;
  }

  /** Different universities get different embed codes: the id is read back between the fixed parts. */
  lemma EmbedCodeInjective(origin: string, id1: string, id2: string)
    requires EmbedCode(origin, id1) == EmbedCode(origin, id2)
    ensures id1 == id2
  {
    MiddleInjective(EmbedHead, EmbedLink(origin, id1), EmbedLink(origin, id2), EmbedTail);
    MiddleInjective(origin + "/embed?uni=", id1, id2, []);
  }

  /** The overview lists the first three buildings, in order. */
  function RecentBuildings(bs: seq<Building>): (r: seq<Building>)
    ensures |r| == if |bs| < 3 then |bs| else 3
    ensures forall i :: 0 <= i < |r| ==> r[i] == bs[i]
  {
    Take(bs, 3)
  }

  // ---------------------------------------------------------------------
  // The page
  // ---------------------------------------------------------------------

  /** Which provider operation a save called. */
  datatype SaveCall = UpdateCall(buildingId: string) | AddCall

  class AdminDashboardPage {
    var university: Option<University>
    var showModal: bool
    var editing: Option<Building>
    var deleteConfirm: Option<string>
    var copySuccess: bool
    /** The text of the last `alert`, when one was shown. */
    var alertText: Option<string>

    constructor ()
      ensures university == None && !showModal && editing == None && deleteConfirm == None
      ensures !copySuccess && alertText == None
    {
      university := None;
      showModal := false;
      editing := None;
      deleteConfirm := None;
      copySuccess := false;
      alertText := None;
    }

    /** `handleAddBuilding`: an empty form in the modal. */
    method AddBuildingClicked()
      modifies this`editing, this`showModal
      ensures editing == None && showModal
    {
      editing := None;
      showModal := true;
    }

    /** `handleEditBuilding`: the building's form in the modal. */
    method EditBuildingClicked(b: Building)
      modifies this`editing, this`showModal
      ensures editing == Some(b) && showModal
    {
      editing := Some(b);
      showModal := true;
    }

    /**
     * `handleSaveBuilding`: updates the building being edited, else adds a
     * new one. On success the university is reloaded (`reloaded` is what
     * `getUniversity` returns) and the modal closes, and an update also
     * ends the editing; on failure the error is alerted and the modal stays.
     */
    method SaveBuilding(result: Outcome, reloaded: Option<University>) returns (call: SaveCall)
      modifies this`university, this`showModal, this`editing, this`alertText
      ensures call == if old(editing).Some? then UpdateCall(old(editing).value.id) else AddCall
      ensures result.Succeeded? ==>
        university == reloaded && !showModal && editing == None && alertText == old(alertText)
      ensures result.Failed? ==>
        university == old(university) && showModal == old(showModal) && editing == old(editing)
        && alertText == Some("Error: " + result.error)
    {
      if editing.Some? {
        call := UpdateCall(editing.value.id);
        if result.Succeeded? {
          university := reloaded;
          showModal := false;
          editing := None;
        } else {
          alertText := Some("Error: " + result.error);
        }
      } else {
        call := AddCall;
        if result.Succeeded? {
          university := reloaded;
          showModal := false;
        } else {
          alertText := Some("Error: " + result.error);
        }
      }
    }

    /** `handleDeleteBuilding`: asks for confirmation first. */
    method DeleteBuildingClicked(buildingId: string)
      modifies this`deleteConfirm
      ensures deleteConfirm == Some(buildingId)
    {
      deleteConfirm := Some(buildingId);
    }

    /**
     * `confirmDelete`: with a non-empty id awaiting confirmation, deletes
     * that building (the id is returned); the confirmation is cleared only
     * when the delete succeeded. With none, nothing is called.
     */
    method ConfirmDelete(result: Outcome, reloaded: Option<University>) returns (deleted: Option<string>)
      modifies this`university, this`deleteConfirm, this`alertText
      ensures deleted.Some? <==> Truthy(old(deleteConfirm))
      ensures deleted.Some? ==> deleted == old(deleteConfirm)
      ensures deleted.None? ==>
        university == old(university) && deleteConfirm == old(deleteConfirm) && alertText == old(alertText)
      ensures deleted.Some? && result.Succeeded? ==>
        university == reloaded && deleteConfirm == None && alertText == old(alertText)
      ensures deleted.Some? && result.Failed? ==>
        university == old(university) && deleteConfirm == old(deleteConfirm) && alertText == Some("Error: " + result.error)
    {
      if !Truthy(deleteConfirm) {
        return None;
      }
      deleted := deleteConfirm;
      if result.Succeeded? {
        university := reloaded;
        deleteConfirm := None;
      } else {
        alertText := Some("Error: " + result.error);
      }
    }

    /**
     * `copyPublicLink`: the link copied is the university's public map
     * under the page's origin. The button exists only once the university
     * has loaded.
     */
    method CopyPublicLink(origin: string) returns (link: string)
      requires university.Some?
      modifies this`copySuccess
      ensures copySuccess
      ensures link == PublicMapLink(origin, university.value.id)
      ensures StartsWith(link, origin) && EndsWith(link, "?uni=" + university.value.id)
    {
      link := PublicMapLink(origin, university.value.id);
      LinksEndWithId(origin, university.value.id);
      copySuccess := true;
    }

    /** `copyEmbedCode`: the text copied is the iframe for this university. */
    method CopyEmbedCode(origin: string) returns (code: string)
      requires university.Some?
      modifies this`copySuccess
      ensures copySuccess
      ensures code == EmbedCode(origin, university.value.id)
      ensures Contains(code, EmbedLink(origin, university.value.id))
    {
      code := EmbedCode(origin, university.value.id);
      copySuccess := true;
    }

    /** The two-second timer that hides the copy confirmation. */
    method CopyTimerElapsed()
      modifies this`copySuccess
      ensures !copySuccess
    {
      copySuccess := false;
    }
  }
}
