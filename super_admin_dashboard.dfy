/**
 * The super-admin dashboard: who may see it, the session countdown and
 * its extension, and the statistics panel with its recent activity.
 */
module SuperAdminDashboard {
  import opened Base
  import opened Campus
  import opened UniversityMaps
  import opened AdminAuth

  /**
   * The redirect of both super-admin pages: none for a super admin, the
   * login page without a session, the admin dashboard for a regular admin.
   */
  function SuperAdminRedirect(session: Option<Session>): (r: Option<string>)
    ensures r.None? <==> session.Some? && session.value.user.isSuperAdmin
    ensures r.Some? ==> r.value in {"/admin", "/admin/dashboard"}
    ensures r == Some("/admin") <==> session.None?
  {
    if session.None? then Some("/admin")
    else if !session.value.user.isSuperAdmin then Some("/admin/dashboard")
    else None
  }

  /** `formatTime`: minutes, a colon, and the seconds padded to two digits. */
  function FormatTime(seconds: nat): string
  {
    NatToString(seconds / 60) + ":" + PadStart2(NatToString(seconds % 60))
  }

  /** Reads `m:ss` back: digits, a colon, exactly two digits. */
  function ParseClock(t: string): Option<nat>
  {
    var parts := Split(t, ':');
    if |parts| == 2 && |parts[1]| == 2 && parts[0] != []
       && (forall i :: 0 <= i < |parts[0]| ==> IsDigit(parts[0][i]))
       && IsDigit(parts[1][0]) && IsDigit(parts[1][1])
    then Some(ParseDigits(parts[0]) * 60 + ParseDigits(parts[1]))
    else None
  }

  lemma NoColonInDigits(s: string)
    requires forall i :: 0 <= i < |s| ==> IsDigit(s[i])
    ensures ':' !in s
  {
    assert forall i :: 0 <= i < |s| ==> s[i] != ':';
  }

  /** The padded seconds are two digits with the value of the seconds. */
  lemma PaddedSeconds(secs: nat)
    requires secs < 60
    ensures var p := PadStart2(NatToString(secs));
      |p| == 2 && IsDigit(p[0]) && IsDigit(p[1]) && ParseDigits(p) == secs
  {
    var d := NatToString(secs);
    ParseNatToString(secs);
    assert Pow10(1) == 10 && Pow10(2) == 100;
    if secs < 10 {
      NatToStringLength(secs, 1);
      var p := PadStart2(d);
      assert p == "0" + d;
      assert p[..1] == "0";
    } else {
      NatToStringLength(secs, 2);
    }
  }

  /**
   * The countdown text reads back as the number of seconds: minutes times
   * sixty plus the seconds, which are always below sixty.
   */
  lemma FormatTimeRoundTrip(seconds: nat)
    ensures ParseClock(FormatTime(seconds)) == Some(seconds)
  {
    var m := NatToString(seconds / 60);
    var p := PadStart2(NatToString(seconds % 60));
    PaddedSeconds(seconds % 60);
    NoColonInDigits(m);
    NoColonInDigits(p);
    assert FormatTime(seconds) == m + [':'] + p;
    SplitAtFirst(m, ':', p);
    SplitNoSep(p, ':');
    ParseNatToString(seconds / 60);
  }

  /** One timer tick: above one second it counts down, else the session ends at zero. */
  function Tick(prev: int): (r: (int, bool))
    ensures r.1 <==> prev <= 1
    ensures r.1 ==> r.0 == 0
    ensures !r.1 ==> r.0 == prev - 1 && r.0 >= 1
  {
    if prev <= 1 then (0, true) else (prev - 1, false)
  }

  /** From any start the counter stays non-negative and reaches zero, with a logout, after n ticks. */
  function TickFrom(start: int, n: nat): (r: (int, bool))
    decreases n
  {
    if n == 0 then (start, false)
    else
      var (left, loggedOut) := Tick(start);
      if loggedOut then (left, true) else TickFrom(left, n - 1)
  }

  /** A full counter of `start` seconds logs out after exactly `start` ticks and never goes below zero. */
  lemma {:induction false} CountdownEnds(start: nat, n: nat)
    requires start >= 1
    ensures TickFrom(start, n).0 >= 0
    ensures TickFrom(start, n).1 <==> n >= start
    ensures n < start ==> TickFrom(start, n).0 == start - n
    decreases n
  {
    if n > 0 && start > 1 {
      CountdownEnds(start - 1, n - 1);
    }
  }

  /**
   * `timeRemaining <= 120`: on the `m:ss` clock the timer is critical
   * while it shows 0 or 1 minute, and at 2:00 exactly.
   */
  predicate IsTimerCritical(timeRemaining: int)
    ensures timeRemaining >= 0 ==>
      (IsTimerCritical(timeRemaining) <==> timeRemaining / 60 < 2 || (timeRemaining / 60 == 2 && timeRemaining % 60 == 0))
  {
    timeRemaining <= 120
  }

  /**
   * Counting down from `start` seconds, the timer shows as critical exactly
   * once at most two minutes are left, and stays critical after the logout.
   */
  lemma {:induction false} CriticalInLastTwoMinutes(start: nat, n: nat)
    requires start >= 1
    ensures IsTimerCritical(TickFrom(start, n).0) <==> n + 120 >= start
    decreases n
  {
    if n > 0 && start > 1 {
      CriticalInLastTwoMinutes(start - 1, n - 1);
    }
  }

  datatype Stats = Stats(totalUniversities: nat, totalBuildings: nat, totalAdmins: nat, recentActivity: seq<University>)

  /** `universitiesList.slice(-5).reverse()`: the last five of the list, the last one first. */
  function RecentActivity(us: seq<University>): (r: seq<University>)
    ensures |r| == if |us| < 5 then |us| else 5
  {
    Reverse(if |us| <= 5 then us else us[|us| - 5..])
  }

  /** The recent list holds the last universities of the list in reverse order. */
  lemma RecentActivityReversed(us: seq<University>)
    ensures forall k :: 0 <= k < |RecentActivity(us)| ==> RecentActivity(us)[k] == us[|us| - 1 - k]
  {
    var tail := if |us| <= 5 then us else us[|us| - 5..];
    forall k | 0 <= k < |RecentActivity(us)| ensures RecentActivity(us)[k] == us[|us| - 1 - k] {
      ReverseAt(tail, k);
    }
  }

  /** The counts `getStats` reports. */
  datatype Counts = Counts(universities: nat, buildings: nat, admins: nat)

  class SuperAdminDashboardPage {
    var universities: seq<University>
    var stats: Stats
    var loading: bool
    var timeRemaining: int

    constructor ()
      ensures universities == [] && stats == Stats(0, 0, 0, []) && loading && timeRemaining == 600
    {
      universities := [];
      stats := Stats(0, 0, 0, []);
      loading := true;
      timeRemaining := 600;
    }

    /** One second of the session timer; the result says whether it logged out. */
    method TimerTick() returns (loggedOut: bool)
      modifies this`timeRemaining
      ensures loggedOut <==> old(timeRemaining) <= 1
      ensures timeRemaining == if loggedOut then 0 else old(timeRemaining) - 1
      ensures timeRemaining >= 0
    {
      if timeRemaining <= 1 {
        timeRemaining := 0;
        return true;
      }
      timeRemaining := timeRemaining - 1;
      return false;
    }

    /** `handleExtendSession`: the counter restarts at ten minutes only when the extension succeeded. */
    method ExtendSession(extended: Outcome)
      modifies this`timeRemaining
      ensures timeRemaining == if extended.Succeeded? then 600 else old(timeRemaining)
    {
      if extended.Succeeded? {
        timeRemaining := 600;
      }
    }

    /**
     * `loadUniversities`: a failed read only ends loading; otherwise the
     * list (null read as empty) is shown, and the statistics are replaced
     * only when their read succeeded (`counts` is `None` when it failed).
     */
    method LoadUniversities(list: Fetch<seq<University>>, counts: Option<Counts>)
      modifies this`universities, this`stats, this`loading
      ensures !loading
      ensures !list.Fetched? ==> universities == old(universities) && stats == old(stats)
      ensures list.Fetched? ==>
        var us := if list.data.Some? then list.data.value else [];
        universities == us
        && stats == if counts.Some?
                    then Stats(counts.value.universities, counts.value.buildings, counts.value.admins, RecentActivity(us))
                    else old(stats)
    {
      loading := true;
      if !list.Fetched? {
        loading := false;
        return;
      }
      var us := if list.data.Some? then list.data.value else [];
      if counts.Some? {
        var c := counts.value;
        stats := Stats(c.universities, c.buildings, c.admins, RecentActivity(us));
      }
      universities := us;
      loading := false;
    }
  }

  /** `handleViewPublicMap`: the relative public-map link of a university. */
  function PublicMapPath(universityId: string): (r: string)
    ensures r == PublicMapLink("", universityId)
  {
    "/map?uni=" + universityId
  }
}
