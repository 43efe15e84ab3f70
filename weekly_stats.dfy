/**
 * The "This Week's Entries" card: computes the ISO 8601 week number of
 * the current date, fetches that week's entries and shows their count.
 */
module WeeklyStats {
  import opened Wrappers
  import opened Backend
  import opened Entries
  import opened Calendar
  import Text

  /** The Thursday of the Monday-to-Sunday week containing day `d`. */
  function Thursday(d: int): (t: int)
    ensures IsoWeekday(t) == 3
    ensures d - 3 <= t <= d + 3
  {
    IsoWeekdayShift(d, 3 - IsoWeekday(d));
    d + 3 - IsoWeekday(d)
  }

  /** The first Thursday of year `y`, which lies in its first seven days. */
  function FirstThursday(y: int): (t: int)
    ensures IsoWeekday(t) == 3
    ensures YearStart(y) <= t <= YearStart(y) + 6
  {
    var w := IsoWeekday(YearStart(y));
    var k := if w <= 3 then 3 - w else 10 - w;
    IsoWeekdayShift(YearStart(y), k);
    YearStart(y) + k
  }

  /**
   * The ISO 8601 week number (ISO 8601:2004 section 2.2.10) of day `d`:
   * weeks run Monday to Sunday, a week belongs to the year its Thursday
   * falls in, and week 1 is the week of that year's first Thursday.
   */
  function IsoWeek(d: int): int
  {
    var t := Thursday(d);
    1 + (t - FirstThursday(YearOf(t))) / 7
  }

  /** `Math.round(x / 7)` for an integer `x`: the floor of x/7 + 1/2. */
  function RoundDiv7(x: int): int
  {
    (2 * x + 7) / 14
  }

  lemma RoundDiv7Exact(m: int)
    ensures RoundDiv7(7 * m) == m
  {
  }

  /**
   * `Date.prototype.getWeek`, step by step on a time value in milliseconds
   * (local time): copy, `setHours(0, 0, 0, 0)`, move to the Thursday with
   * `setDate`, build 4 January of that Thursday's year, and round the
   * week distance. The result is the ISO week of the calendar day, so the
   * time of day plays no part.
   */
  method GetWeek(time: int) returns (week: int)
    ensures week == IsoWeek(time / MsPerDay)
  {
    var date := time;
    date := (date / MsPerDay) * MsPerDay;
    MidnightDay(time / MsPerDay);
    var day := date / MsPerDay;
    date := date + (3 - (JsDay(day) + 6) % 7) * MsPerDay;
    ghost var t := Thursday(time / MsPerDay);
    assert date == t * MsPerDay;
    MidnightDay(t);
    var year := YearOf(date / MsPerDay);
    var week1 := (YearStart(year) + 3) * MsPerDay;
    MidnightDay(YearStart(year) + 3);
    assert date - week1 == (t - (YearStart(year) + 3)) * MsPerDay;
    MidnightDay(t - (YearStart(year) + 3));
    var x := (date - week1) / MsPerDay - 3 + (JsDay(week1 / MsPerDay) + 6) % 7;
    week := 1 + RoundDiv7(x);

    ghost var f := FirstThursday(year);
    assert x == t - f by {
      var jan4 := YearStart(year) + 3;
      assert week1 / MsPerDay == jan4;
      assert (date - week1) / MsPerDay == t - jan4;
      assert (JsDay(week1 / MsPerDay) + 6) % 7 == IsoWeekday(jan4);
      FirstThursdayInJan4Week(year);
    }
    SameWeekdayWeeksApart(t, f);
    assert 7 * ((t - f) / 7) == t - f;
    RoundDiv7Exact((t - f) / 7);
    assert year == YearOf(t) && week == 1 + (t - f) / 7;
  }

  /**
   * The year's first Thursday is the Thursday of the week of 4 January,
   * which is what the offset `-3 + ((week1.getDay() + 6) % 7)` relies on.
   */
  lemma FirstThursdayInJan4Week(y: int)
    ensures FirstThursday(y) == Thursday(YearStart(y) + 3)
  {
    SameWeekdayClose(FirstThursday(y), Thursday(YearStart(y) + 3));
  }

  /** Week numbers run from 1 to 53. */
  lemma IsoWeekRange(d: int)
    ensures 1 <= IsoWeek(d) <= 53
  {
    var t := Thursday(d);
    var y := YearOf(t);
    YearStartStep(y);
    var f := FirstThursday(y);
    SameWeekdayWeeksApart(t, f);
  }

  /** 4 January is always in week 1. */
  lemma Jan4InWeekOne(y: int)
    ensures IsoWeek(YearStart(y) + 3) == 1
  {
    var d := YearStart(y) + 3;
    var t := Thursday(d);
    YearStartStep(y);
    YearOfUnique(t, y);
    SameWeekdayClose(t, FirstThursday(y));
  }

  /** All seven days from a Monday to the next Sunday have the same week number. */
  lemma SameWeekSameNumber(monday: int, k: int)
    requires IsoWeekday(monday) == 0 && 0 <= k < 7
    ensures IsoWeek(monday + k) == IsoWeek(monday)
  {
    IsoWeekdayShift(monday, k);
    assert Thursday(monday + k) == Thursday(monday);
  }

  /** The next week within the same week-year has the next number. */
  lemma NextWeekNextNumber(d: int)
    requires YearOf(Thursday(d + 7)) == YearOf(Thursday(d))
    ensures IsoWeek(d + 7) == IsoWeek(d) + 1
  {
    IsoWeekdayShift(d, 7);
    var t := Thursday(d);
    assert Thursday(d + 7) == t + 7;
    var x := t - FirstThursday(YearOf(t));
    assert (x + 7) / 7 == x / 7 + 1;
  }

  /** The count line: 0, 1 and n entries are phrased differently. */
  function WeeklyPhrase(count: nat): (p: string)
    ensures count == 0 ==> p == "No entries this week"
    ensures count == 1 ==> p == "1 entry this week"
    ensures count >= 2 ==> p == Text.NatToString(count) + " entries this week"
  {
    if count == 0 then "No entries this week"
    else if count == 1 then "1 entry this week"
    else Text.NatToString(count) + " entries this week"
  }

  lemma PhraseShape(n: nat)
    ensures n >= 2 ==> |WeeklyPhrase(n)| >= 19 && '0' <= WeeklyPhrase(n)[0] <= '9'
  {
  }

  /** Different counts are phrased differently. */
  lemma WeeklyPhraseInjective(m: nat, n: nat)
    requires WeeklyPhrase(m) == WeeklyPhrase(n)
    ensures m == n
  {
    PhraseShape(m);
    PhraseShape(n);
    if m >= 2 && n >= 2 {
      var a := Text.NatToString(m);
      var b := Text.NatToString(n);
      assert a == WeeklyPhrase(m)[..|a|];
      assert b == WeeklyPhrase(n)[..|b|];
      Text.NatToStringInjective(m, n);
    }
  }

  const WeekPrefix := "/api/changelog/week/"

  /** The request path for the entries of week `week`; the number reads back from it. */
  function WeekPath(week: nat): (p: string)
    ensures |p| > |WeekPrefix| && p[..|WeekPrefix|] == WeekPrefix
    ensures Text.IsDigits(p[|WeekPrefix|..]) && Text.ParseNat(p[|WeekPrefix|..]) == week
  {
    Text.ParseNatToString(week);
    var p := WeekPrefix + Text.NatToString(week);
    assert p[|WeekPrefix|..] == Text.NatToString(week);
    p
  }

  class WeeklyStatsState {
    var weeklyCount: nat
    var loading: bool

    constructor ()
      ensures weeklyCount == 0 && loading
    {
      weeklyCount := 0;
      loading := true;
    }

    /**
     * `fetchWeeklyStats` at time `now`: without a token nothing happens;
     * otherwise the entries of the current ISO week are requested, a
     * success shows their number, a failure keeps the old count, and
     * loading ends either way.
     */
    method FetchWeeklyStats(token: Option<string>, now: int, response: Response<seq<ChangelogEntry>>)
      returns (path: Option<string>)
      modifies this
      ensures !HasToken(token) ==> path == None && weeklyCount == old(weeklyCount) && loading == old(loading)
      ensures HasToken(token) ==> !loading && 1 <= IsoWeek(now / MsPerDay) <= 53
                                  && path == Some(WeekPath(IsoWeek(now / MsPerDay)))
      ensures HasToken(token) && response.Ok? ==> weeklyCount == |response.body|
      ensures HasToken(token) && !response.Ok? ==> weeklyCount == old(weeklyCount)
    {
      if !HasToken(token) {
        return None;
      }
      loading := true;
      var currentWeek := GetWeek(now);
      IsoWeekRange(now / MsPerDay);
      path := Some(WeekPath(currentWeek));
      if response.Ok? {
        weeklyCount := |response.body|;
      }
      loading := false;
    }
  }

  /** The headline: "..." while loading, else the count. */
  function Headline(loading: bool, weeklyCount: nat): (h: string)
    ensures loading <==> h == "..."
    ensures !loading ==> h == Text.NatToString(weeklyCount) && Text.ParseNat(h) == weeklyCount
  {
    Text.ParseNatToString(weeklyCount);
    if loading then "..." else Text.NatToString(weeklyCount)
  }
}
