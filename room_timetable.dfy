/**
 * The read-only weekly timetable of a room: the union of slot keys over all
 * days, sorted; the days present, Monday first; the column headers; and the
 * day-by-slot grid of services.
 */
module RoomTimetable {
  import opened Base
  import opened Assoc
  import opened Campus

  // ---------------------------------------------------------------------
  // The default sort order of strings
  // ---------------------------------------------------------------------

  /** `Array.prototype.sort()` without a comparator: character-by-character order, a prefix first. */
  predicate StringLe(a: string, b: string)
    decreases |a|
  {
    a == [] || (b != [] && (a[0] < b[0] || (a[0] == b[0] && StringLe(a[1..], b[1..]))))
  }

  lemma {:induction false} StringLeTotal(a: string, b: string)
    ensures StringLe(a, b) || StringLe(b, a)
    decreases |a|
  {
    if a != [] && b != [] && a[0] == b[0] {
      StringLeTotal(a[1..], b[1..]);
    }
  }

  lemma {:induction false} StringLeTrans(a: string, b: string, c: string)
    requires StringLe(a, b) && StringLe(b, c)
    ensures StringLe(a, c)
    decreases |a|
  {
    if a != [] && b != [] && c != [] && a[0] == b[0] && b[0] == c[0] {
      StringLeTrans(a[1..], b[1..], c[1..]);
    }
  }

  lemma {:induction false} StringLeAntisym(a: string, b: string)
    requires StringLe(a, b) && StringLe(b, a)
    ensures a == b
    decreases |a|
  {
    if a != [] {
      StringLeAntisym(a[1..], b[1..]);
      assert a == [a[0]] + a[1..] && b == [b[0]] + b[1..];
    }
  }

  lemma StringLePreorder()
    ensures TotalPreorder(StringLe)
  {
    forall a: string, b: string ensures StringLe(a, b) || StringLe(b, a) {
      StringLeTotal(a, b);
    }
    forall a: string, b: string, c: string | StringLe(a, b) && StringLe(b, c) ensures StringLe(a, c) {
      StringLeTrans(a, b, c);
    }
  }

  // ---------------------------------------------------------------------
  // The union of slot keys
  // ---------------------------------------------------------------------

  /** `set.add(k)` on a `Set` held as its insertion-ordered elements. */
  function AddKey(acc: seq<string>, k: string): seq<string>
  {
    if k in acc then acc else acc + [k]
  }

  /** Adding the keys of one day, one after the other. */
  function AddKeys(acc: seq<string>, keys: seq<string>): seq<string>
    decreases |keys|
  {
    if keys == [] then acc else AddKey(AddKeys(acc, keys[..|keys| - 1]), keys[|keys| - 1])
  }

  /** The `Set` of slot keys after visiting every day of the schedule in object order. */
  function SlotSet(schedule: Schedule): seq<string>
    decreases |schedule|
  {
    if schedule == [] then [] else AddKeys(SlotSet(schedule[..|schedule| - 1]), Keys(schedule[|schedule| - 1].1))
  }

  lemma AddKeySpec(acc: seq<string>, k: string, x: string)
    ensures x in AddKey(acc, k) <==> x in acc || x == k
    ensures NoDup(acc) ==> NoDup(AddKey(acc, k))
  {
    if k !in acc && NoDup(acc) {
      var r := acc + [k];
      forall i, j | 0 <= i < j < |r| ensures r[i] != r[j] {
        if j == |acc| { assert r[i] == acc[i]; }
      }
    }
  }

  lemma {:induction false} AddKeysSpec(acc: seq<string>, keys: seq<string>, x: string)
    ensures x in AddKeys(acc, keys) <==> x in acc || x in keys
    ensures NoDup(acc) ==> NoDup(AddKeys(acc, keys))
    decreases |keys|
  {
    if keys != [] {
      var init := keys[..|keys| - 1];
      AddKeysSpec(acc, init, x);
      AddKeySpec(AddKeys(acc, init), keys[|keys| - 1], x);
      assert keys == init + [keys[|keys| - 1]];
    }
  }

  /** Some day of the schedule has a slot with key `x`. */
  ghost predicate HasSlotKey(schedule: Schedule, x: string)
  {
    exists i :: 0 <= i < |schedule| && x in Keys(schedule[i].1)
  }

  lemma {:induction false} SlotSetSpec(schedule: Schedule, x: string)
    ensures x in SlotSet(schedule) <==> HasSlotKey(schedule, x)
    ensures NoDup(SlotSet(schedule))
    decreases |schedule|
  {
    if schedule != [] {
      var n := |schedule| - 1;
      var init := schedule[..n];
      SlotSetSpec(init, x);
      AddKeysSpec(SlotSet(init), Keys(schedule[n].1), x);
      if HasSlotKey(schedule, x) {
        var i :| 0 <= i < |schedule| && x in Keys(schedule[i].1);
        if i < n { assert init[i] == schedule[i]; }
      }
      if HasSlotKey(init, x) {
        var i :| 0 <= i < |init| && x in Keys(init[i].1);
        assert init[i] == schedule[i];
      }
    }
  }

  /** `Array.from(allTimeSlots).sort()`. */
  function TimeSlots(schedule: Schedule): seq<string>
  {
    SortBy(SlotSet(schedule), StringLe)
  }

  /** The column slots are exactly the keys used on some day, each once, in increasing order. */
  lemma TimeSlotsSpec(schedule: Schedule, x: string)
    ensures x in TimeSlots(schedule) <==> HasSlotKey(schedule, x)
    ensures NoDup(TimeSlots(schedule))
    ensures forall i, j :: 0 <= i < j < |TimeSlots(schedule)| ==>
      StringLe(TimeSlots(schedule)[i], TimeSlots(schedule)[j]) && TimeSlots(schedule)[i] != TimeSlots(schedule)[j]
  {
    var u := SlotSet(schedule);
    var r := TimeSlots(schedule);
    SlotSetSpec(schedule, x);
    assert x in r <==> x in u by {
      assert x in r <==> x in multiset(r);
      assert x in u <==> x in multiset(u);
    }
    NoDupMultiset(u);
    NoDupMultiset(r);
    StringLePreorder();
    SortBySorted(u, StringLe);
  }

  /**
   * The loop that fills the `Set`: every day's keys, in object order, are
   * added one by one; the result is then sorted.
   */
  method CollectTimeSlots(schedule: Schedule) returns (slots: seq<string>)
    ensures slots == TimeSlots(schedule)
  {
    var all: seq<string> := [];
    var i := 0;
    while i < |schedule|
      invariant 0 <= i <= |schedule|
      invariant all == SlotSet(schedule[..i])
    {
      var keys := Keys(schedule[i].1);
      var j := 0;
      ghost var before := all;
      while j < |keys|
        invariant 0 <= j <= |keys|
        invariant all == AddKeys(before, keys[..j])
      {
        if keys[j] !in all {
          all := all + [keys[j]];
        }
        assert keys[..j + 1][..j] == keys[..j];
        j := j + 1;
      }
      assert keys[..j] == keys;
      assert schedule[..i + 1][..i] == schedule[..i];
      i := i + 1;
    }
    assert schedule[..i] == schedule;
    slots := SortBy(all, StringLe);
  }

  // ---------------------------------------------------------------------
  // Days, headers and cells
  // ---------------------------------------------------------------------

  predicate DayPresent(schedule: Schedule, day: string) { Get(schedule, day).Some? }

  /** `DAYS.filter(day => schedule[day])`: a day object counts even when it has no slot. */
  function PresentDays(schedule: Schedule): seq<string>
  {
    Filter(Days, day => DayPresent(schedule, day))
  }

  lemma PresentDaysSpec(schedule: Schedule, day: string)
    ensures day in PresentDays(schedule) <==> day in Days && day in Keys(schedule)
    ensures IsSubseq(PresentDays(schedule), Days)
  {
    FilterMember(Days, d => DayPresent(schedule, d), day);
    FilterSubseq(Days, d => DayPresent(schedule, d));
    GetSomeIffKey(schedule, day);
  }

  /** `Object.values(schedule).find(day => day[slot])?.[slot]`: the slot in the first day object that has it. */
  function FirstSlot(schedule: Schedule, slot: string): (r: Option<Slot>)
    ensures r.Some? ==>
      exists i :: 0 <= i < |schedule| && Get(schedule[i].1, slot) == r && forall j :: 0 <= j < i ==> Get(schedule[j].1, slot).None?
    ensures r.None? ==> forall i :: 0 <= i < |schedule| ==> Get(schedule[i].1, slot).None?
  {
    if schedule == [] then None
    else match Get(schedule[0].1, slot)
      case Some(s) => Some(s)
      case None =>
        var r := FirstSlot(schedule[1..], slot);
        assert forall j :: 0 <= j < |schedule| - 1 ==> schedule[1..][j] == schedule[j + 1];
        r
  }

  /** The column header: the slot's time in the first day that has it, else (missing or empty) the key itself. */
  function Header(schedule: Schedule, slot: string): (h: string)
    ensures h == slot || exists i :: 0 <= i < |schedule| && Get(schedule[i].1, slot).Some? && Get(schedule[i].1, slot).value.time == h
    ensures FirstSlot(schedule, slot).Some? && FirstSlot(schedule, slot).value.time != "" ==> h == FirstSlot(schedule, slot).value.time
    ensures !(FirstSlot(schedule, slot).Some? && FirstSlot(schedule, slot).value.time != "") ==> h == slot
  {
    match FirstSlot(schedule, slot)
    case Some(s) => if s.time != "" then s.time else slot
    case None => slot
  }

  /** A grid cell: the services of that day's slot, or the `-` placeholder. */
  datatype Cell = NoService | Services(items: seq<string>)

  function CellAt(schedule: Schedule, day: string, slot: string): (c: Cell)
    ensures c.NoService? <==> Get(DayOf(schedule, day), slot).None?
    ensures c.Services? ==> c.items == Get(DayOf(schedule, day), slot).value.services
  {
    match Get(DayOf(schedule, day), slot)
    case None => NoService
    case Some(s) => Services(s.services)
  }

  /** What the component renders when it renders anything. */
  datatype TimetableView = TimetableView(
    services: seq<string>,
    slots: seq<string>,
    headers: seq<string>,
    days: seq<string>,
    grid: seq<seq<Cell>>,
    notes: Option<string>)

  function Row(schedule: Schedule, day: string, slots: seq<string>): (row: seq<Cell>)
    ensures |row| == |slots|
    ensures forall j :: 0 <= j < |slots| ==> row[j] == CellAt(schedule, day, slots[j])
  {
    seq(|slots|, j requires 0 <= j < |slots| => CellAt(schedule, day, slots[j]))
  }

  function Headers(schedule: Schedule, slots: seq<string>): (hs: seq<string>)
    ensures |hs| == |slots|
    ensures forall j :: 0 <= j < |slots| ==> hs[j] == Header(schedule, slots[j])
  {
    seq(|slots|, j requires 0 <= j < |slots| => Header(schedule, slots[j]))
  }

  function Grid(schedule: Schedule, days: seq<string>, slots: seq<string>): (g: seq<seq<Cell>>)
    ensures |g| == |days|
    ensures forall i :: 0 <= i < |days| ==> g[i] == Row(schedule, days[i], slots)
  {
    seq(|days|, i requires 0 <= i < |days| => Row(schedule, days[i], slots))
  }

  /**
   * `RoomTimetable`: nothing without a timetable, a schedule or a present
   * day; otherwise the legend (services default to none), one header per
   * slot, and one row per present day.
   */
  function Render(timetable: Option<Timetable>): (v: Option<TimetableView>)
    ensures v.Some? <==> timetable.Some? && timetable.value.schedule.Some? && PresentDays(timetable.value.schedule.value) != []
    ensures v.Some? ==>
      var schedule := timetable.value.schedule.value;
      v.value.slots == TimeSlots(schedule) && v.value.days == PresentDays(schedule)
      && v.value.headers == Headers(schedule, v.value.slots) && v.value.grid == Grid(schedule, v.value.days, v.value.slots)
  {
    if timetable.None? || timetable.value.schedule.None? then None
    else
      var t := timetable.value;
      var schedule := t.schedule.value;
      var days := PresentDays(schedule);
      if days == [] then None
      else
        var slots := TimeSlots(schedule);
        var services := if t.services.Some? then t.services.value else [];
        Some(TimetableView(services, slots, Headers(schedule, slots), days, Grid(schedule, days, slots), t.notes))
  }

  /** A cell shows services exactly when that present day has a slot under that column's key. */
  lemma RenderCells(timetable: Option<Timetable>, i: nat, j: nat)
    requires Render(timetable).Some?
    requires i < |Render(timetable).value.days| && j < |Render(timetable).value.slots|
    ensures var v := Render(timetable).value;
      var schedule := timetable.value.schedule.value;
      v.days[i] in Keys(schedule)
      && (v.grid[i][j].Services? <==> v.slots[j] in Keys(DayOf(schedule, v.days[i])))
  {
    var v := Render(timetable).value;
    var schedule := timetable.value.schedule.value;
    assert v.days[i] in v.days;
    PresentDaysSpec(schedule, v.days[i]);
    GetSomeIffKey(DayOf(schedule, v.days[i]), v.slots[j]);
  }
}
