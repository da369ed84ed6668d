/**
 * The rooms modal of the public map: its load handler sorts the fetched
 * rooms offices first and then by room number, and its summary counts the
 * offices.
 */
module RoomsList {
  import opened Base
  import opened Campus

  /**
   * The comparator of the rooms lists, read as "a may precede b": offices
   * before other rooms, and within each group the numeric-aware room number
   * order `numLe` (`localeCompare(…, { numeric: true }) <= 0`).
   */
  function OfficeLe(numLe: (string, string) -> bool): (Room, Room) -> bool
  {
    (a: Room, b: Room) =>
      if a.isOffice && !b.isOffice then true
      else if !a.isOffice && b.isOffice then false
      else numLe(a.roomNumber, b.roomNumber)
  }

  /** `rooms.sort(officesFirstThenNumber)`. */
  function SortRooms(rooms: seq<Room>, numLe: (string, string) -> bool): seq<Room>
  {
    SortBy(rooms, OfficeLe(numLe))
  }

  lemma OfficeLePreorder(numLe: (string, string) -> bool)
    requires TotalPreorder(numLe)
    ensures TotalPreorder(OfficeLe(numLe))
  {
    var le := OfficeLe(numLe);
    forall a: Room, b: Room, c: Room | le(a, b) && le(b, c) ensures le(a, c) {
      if a.isOffice == b.isOffice && b.isOffice == c.isOffice {
        assert numLe(a.roomNumber, b.roomNumber) && numLe(b.roomNumber, c.roomNumber);
      }
    }
    forall a: Room, b: Room ensures le(a, b) || le(b, a) {
      if a.isOffice == b.isOffice {
        assert numLe(a.roomNumber, b.roomNumber) || numLe(b.roomNumber, a.roomNumber);
      }
    }
  }

  /**
   * The sorted list keeps every fetched room, puts every office before every
   * other room, and orders rooms of the same kind by room number.
   */
  lemma SortRoomsOrder(rooms: seq<Room>, numLe: (string, string) -> bool)
    requires TotalPreorder(numLe)
    ensures multiset(SortRooms(rooms, numLe)) == multiset(rooms)
    ensures forall i, j :: 0 <= i < j < |rooms| && SortRooms(rooms, numLe)[j].isOffice ==>
              SortRooms(rooms, numLe)[i].isOffice
    ensures forall i, j :: 0 <= i < j < |rooms| && SortRooms(rooms, numLe)[i].isOffice == SortRooms(rooms, numLe)[j].isOffice ==>
              numLe(SortRooms(rooms, numLe)[i].roomNumber, SortRooms(rooms, numLe)[j].roomNumber)
  {
    OfficeLePreorder(numLe);
    SortBySorted(rooms, OfficeLe(numLe));
    var r := SortRooms(rooms, numLe);
    forall i, j | 0 <= i < j < |rooms| ensures (r[j].isOffice ==> r[i].isOffice) {
      assert OfficeLe(numLe)(r[i], r[j]);
    }
    forall i, j | 0 <= i < j < |rooms| && r[i].isOffice == r[j].isOffice
      ensures numLe(r[i].roomNumber, r[j].roomNumber)
    {
      assert OfficeLe(numLe)(r[i], r[j]);
    }
  }

  /** What `getRooms` answered: its data (possibly null) or an error message (also a thrown error's message). */
  datatype RoomsReply = RoomsData(data: Option<seq<Room>>) | RoomsError(message: string)

  /** The modal's state once `loadRooms` has finished. */
  datatype RoomsView = RoomsView(rooms: seq<Room>, error: Option<string>, loading: bool)

  /** `loadRooms`: sort the data on success (null data is no rooms); on failure keep the old rooms and show the error. */
  function LoadRooms(previous: seq<Room>, reply: RoomsReply, numLe: (string, string) -> bool): (v: RoomsView)
    ensures !v.loading
    ensures reply.RoomsError? ==> v == RoomsView(previous, Some(reply.message), false)
    ensures reply.RoomsData? ==> v.error == None
    ensures reply == RoomsData(None) ==> v.rooms == []
    ensures reply.RoomsData? && reply.data.Some? ==> multiset(v.rooms) == multiset(reply.data.value)
    ensures reply.RoomsData? ==> v.rooms == SortRooms(if reply.data.Some? then reply.data.value else [], numLe)
  {
    match reply
    case RoomsData(data) =>
      var fetched := if data.Some? then data.value else [];
      RoomsView(SortRooms(fetched, numLe), None, false)
    case RoomsError(message) => RoomsView(previous, Some(message), false)
  }

  /**
   * A successful load lists the fetched rooms offices first, and rooms of the
   * same kind in room-number order, whenever the collation is a total preorder.
   */
  lemma LoadRoomsOrder(previous: seq<Room>, reply: RoomsReply, numLe: (string, string) -> bool)
    requires TotalPreorder(numLe)
    requires reply.RoomsData?
    ensures var rooms := LoadRooms(previous, reply, numLe).rooms;
      (forall i, j :: 0 <= i < j < |rooms| && rooms[j].isOffice ==> rooms[i].isOffice)
      && (forall i, j :: 0 <= i < j < |rooms| && rooms[i].isOffice == rooms[j].isOffice ==>
            numLe(rooms[i].roomNumber, rooms[j].roomNumber))
  {
    var fetched := if reply.data.Some? then reply.data.value else [];
    SortRoomsOrder(fetched, numLe);
    assert |SortRooms(fetched, numLe)| == |fetched| by {
      assert |multiset(SortRooms(fetched, numLe))| == |multiset(fetched)|;
    }
  }

  /** The "Offices" figure of the summary. */
  function OfficeCount(rooms: seq<Room>): (n: nat)
    ensures n <= |rooms|
  {
    Count(rooms, (r: Room) => r.isOffice)
  }

  /** Sorting does not change the office figure. */
  lemma OfficeCountSorted(rooms: seq<Room>, numLe: (string, string) -> bool)
    ensures OfficeCount(SortRooms(rooms, numLe)) == OfficeCount(rooms)
  {
    FilterMultiset(SortRooms(rooms, numLe), rooms, (r: Room) => r.isOffice);
  }

  lemma {:induction false} FilterMultiset<T>(a: seq<T>, b: seq<T>, p: T -> bool)
    requires multiset(a) == multiset(b)
    ensures |Filter(a, p)| == |Filter(b, p)|
    decreases |a|
  {
    if a != [] {
      var x := a[0];
      assert x in multiset(b);
      var k :| 0 <= k < |b| && b[k] == x;
      var b' := b[..k] + b[k + 1..];
      assert b == b[..k] + ([x] + b[k + 1..]);
      assert multiset(b') == multiset(b) - multiset{x};
      assert a == [x] + a[1..];
      assert multiset(a[1..]) == multiset(b');
      FilterMultiset(a[1..], b', p);
      FilterConcat([x], a[1..], p);
      FilterConcat(b[..k], [x] + b[k + 1..], p);
      FilterConcat([x], b[k + 1..], p);
      FilterConcat(b[..k], b[k + 1..], p);
    }
  }
}
