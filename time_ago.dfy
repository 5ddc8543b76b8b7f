/** `formatTimeAgo` of train_crowd_monitor.js: how long ago a time was, in words. */
module TimeAgo {
  import opened Wrappers
  import opened JsText

  /**
   * `Math.floor((now - date) / 1000)` for times in milliseconds: the whole seconds
   * elapsed, rounded down (Dafny's `/` by a positive divisor rounds down as well).
   */
  function ElapsedSeconds(date: int, now: int): (d: int)
    ensures d * 1000 <= now - date < (d + 1) * 1000
  {
    (now - date) / 1000
  }

  datatype Unit = Sec | Min | Hour

  function UnitSeconds(u: Unit): nat {
    match u
    case Sec => 1
    case Min => 60
    case Hour => 3600
  }

  /** An amount of a unit, as the text shows it. */
  datatype Elapsed = Elapsed(amount: int, unit: Unit)

  /**
   * The amount and unit shown for `d` elapsed seconds: seconds below a minute
   * (also for a time in the future), whole minutes below an hour, whole hours after.
   */
  function Elapse(d: int): (e: Elapsed)
    ensures e.unit == Sec <==> d < 60
    ensures e.unit == Min <==> 60 <= d < 3600
    ensures e.unit == Sec ==> e.amount == d
    ensures e.unit == Min ==> 1 <= e.amount <= 59
    ensures e.unit == Hour ==> 1 <= e.amount
    ensures e.unit != Sec ==> e.amount * UnitSeconds(e.unit) <= d < (e.amount + 1) * UnitSeconds(e.unit)
  {
    if d < 60 then Elapsed(d, Sec)
    else if d < 3600 then Elapsed(d / 60, Min)
    else Elapsed(d / 3600, Hour)
  }

  /** The words for an amount of a unit; "hour" takes an "s" only for more than one. */
  function Text(e: Elapsed): string {
    IntToString(e.amount) +
      match e.unit
      case Sec => " sec ago"
      case Min => " min ago"
      case Hour => " hour" + (if e.amount > 1 then "s" else "") + " ago"
  }

  /**
   * `formatTimeAgo(date)` read at time `now`. Read back, its text gives the elapsed
   * seconds below a minute, otherwise the elapsed time rounded down to whole minutes
   * (1 to 59) or whole hours.
   */
  function FormatTimeAgo(date: int, now: int): (s: string)
    ensures ParseTimeAgo(s) == Some(Elapse(ElapsedSeconds(date, now)))
  {
    TextReadsBack(Elapse(ElapsedSeconds(date, now)));
    Text(Elapse(ElapsedSeconds(date, now)))
  }

  /**
   * Reads an amount and unit back from the words: the amount must be written as
   * JavaScript writes it, and "hours" must go with an amount above one, "hour" with
   * any other.
   */
  function ParseTimeAgo(s: string): Option<Elapsed> {
    if EndsWith(s, " sec ago") then ParseAmount(s[..|s| - 8], Sec)
    else if EndsWith(s, " min ago") then ParseAmount(s[..|s| - 8], Min)
    else if EndsWith(s, " hours ago") then ParseHours(s[..|s| - 10], true)
    else if EndsWith(s, " hour ago") then ParseHours(s[..|s| - 9], false)
    else None
  }

  function ParseAmount(digits: string, u: Unit): Option<Elapsed> {
    match ParseInt(digits)
    case Some(a) => Some(Elapsed(a, u))
    case None => None
  }

  function ParseHours(digits: string, plural: bool): Option<Elapsed> {
    match ParseInt(digits)
    case Some(a) => if (a > 1) == plural then Some(Elapsed(a, Hour)) else None
    case None => None
  }

  /** The words are unambiguous: the amount and unit can be read back from them. */
  lemma TextReadsBack(e: Elapsed)
    ensures ParseTimeAgo(Text(e)) == Some(e)
  {
    var n := IntToString(e.amount);
    IntToStringRoundTrip(e.amount);
    match e.unit
    case Sec => SecReadsBack(n);
    case Min => MinReadsBack(n);
    case Hour =>
      if e.amount > 1 {
        assert Text(e) == n + " hours ago";
        HoursReadsBack(n);
      } else {
        assert Text(e) == n + " hour ago";
        HourReadsBack(n);
      }
  }

  lemma SecReadsBack(n: string)
    ensures ParseTimeAgo(n + " sec ago") == ParseAmount(n, Sec)
  {
    EndsWithAppend(n, " sec ago", " sec ago");
    assert (n + " sec ago")[..|n|] == n;
  }

  lemma MinReadsBack(n: string)
    ensures ParseTimeAgo(n + " min ago") == ParseAmount(n, Min)
  {
    EndsWithAppend(n, " min ago", " sec ago");
    EndsWithAppend(n, " min ago", " min ago");
    assert (n + " min ago")[..|n|] == n;
  }

  lemma HoursReadsBack(n: string)
    ensures ParseTimeAgo(n + " hours ago") == ParseHours(n, true)
  {
    EndsWithAppend(n, " hours ago", " sec ago");
    EndsWithAppend(n, " hours ago", " min ago");
    EndsWithAppend(n, " hours ago", " hours ago");
    assert (n + " hours ago")[..|n|] == n;
  }

  lemma HourReadsBack(n: string)
    ensures ParseTimeAgo(n + " hour ago") == ParseHours(n, false)
  {
    var s := n + " hour ago";
    EndsWithAppend(n, " hour ago", " sec ago");
    EndsWithAppend(n, " hour ago", " min ago");
    EndsWithAppend(n, " hour ago", " hour ago");
    assert s[|s| - 5] == 'r';
    EndsWithAt(s, " hours ago", 5);
    assert s[..|n|] == n;
  }

  /**
   * The words are exact: the only text that reads back as an amount and unit is the
   * text written for them.
   */
  lemma ParseTimeAgoExact(s: string)
    ensures ParseTimeAgo(s).Some? ==> Text(ParseTimeAgo(s).value) == s
  {
    if EndsWith(s, " sec ago") {
      AmountExact(s, " sec ago", Sec);
    } else if EndsWith(s, " min ago") {
      AmountExact(s, " min ago", Min);
    } else if EndsWith(s, " hours ago") {
      HoursExact(s, " hours ago", true);
    } else if EndsWith(s, " hour ago") {
      HoursExact(s, " hour ago", false);
    }
  }

  /** A seconds or minutes text that reads back is the amount's own text, then the suffix. */
  lemma AmountExact(s: string, suffix: string, u: Unit)
    requires EndsWith(s, suffix)
    requires (u == Sec && suffix == " sec ago") || (u == Min && suffix == " min ago")
    ensures var e := ParseAmount(s[..|s| - |suffix|], u); e.Some? ==> Text(e.value) == s
  {
    var digits := s[..|s| - |suffix|];
    ParseIntCanonical(digits);
    assert s == digits + suffix;
  }

  /** An hours text that reads back is the amount's own text, then the suffix. */
  lemma HoursExact(s: string, suffix: string, plural: bool)
    requires EndsWith(s, suffix)
    requires (plural && suffix == " hours ago") || (!plural && suffix == " hour ago")
    ensures var e := ParseHours(s[..|s| - |suffix|], plural); e.Some? ==> Text(e.value) == s
  {
    var digits := s[..|s| - |suffix|];
    ParseIntCanonical(digits);
    assert s == digits + suffix;
  }

  /** The text ends in "hours ago" exactly for an amount of more than one hour. */
  lemma TextPlural(e: Elapsed)
    ensures EndsWith(Text(e), " hours ago") <==> e.unit == Hour && e.amount > 1
  {
    var n := IntToString(e.amount);
    var s := Text(e);
    EndsWithAt(s, " hours ago", 5);
    match e.unit
    case Sec =>
      assert s == n + " sec ago";
      assert s[|s| - 5] == 'c';
    case Min =>
      assert s == n + " min ago";
      assert s[|s| - 5] == 'n';
    case Hour =>
      if e.amount > 1 {
        assert s == n + " hours ago";
        EndsWithAppend(n, " hours ago", " hours ago");
      } else {
        assert s == n + " hour ago";
        assert s[|s| - 5] == 'r';
      }
  }

  /**
   * `formatTimeAgo` writes "hours ago" exactly when two hours or more have passed;
   * one full hour up to two shows the singular "hour ago".
   */
  lemma FormatTimeAgoPlural(date: int, now: int)
    ensures var d := ElapsedSeconds(date, now);
      && (EndsWith(FormatTimeAgo(date, now), " hours ago") <==> d >= 7200)
      && (3600 <= d < 7200 ==> EndsWith(FormatTimeAgo(date, now), " hour ago"))
  {
    var d := ElapsedSeconds(date, now);
    var e := Elapse(d);
    TextPlural(e);
    if d >= 7200 {
      assert e.unit == Hour && e.amount == d / 3600;
    } else if d >= 3600 {
      assert e == Elapsed(1, Hour);
      assert Text(e) == "1" + " hour ago";
      EndsWithAppend("1", " hour ago", " hour ago");
    }
  }

  /** "5 sec ago", "1 min ago", "1 hour ago" and "2 hours ago" for 5 s, 90 s, 3600 s and 7200 s. */
  lemma FormatTimeAgoExamples(now: int)
    ensures FormatTimeAgo(now - 5000, now) == "5 sec ago"
    ensures FormatTimeAgo(now - 90000, now) == "1 min ago"
    ensures FormatTimeAgo(now - 3600000, now) == "1 hour ago"
    ensures FormatTimeAgo(now - 7200000, now) == "2 hours ago"
  {
    assert ElapsedSeconds(now - 5000, now) == 5;
    assert ElapsedSeconds(now - 90000, now) == 90;
    assert ElapsedSeconds(now - 3600000, now) == 3600;
    assert ElapsedSeconds(now - 7200000, now) == 7200;
    assert Elapse(5) == Elapsed(5, Sec);
    assert Elapse(90) == Elapsed(1, Min);
    assert Elapse(3600) == Elapsed(1, Hour);
    assert Elapse(7200) == Elapsed(2, Hour);
    assert IntToString(5) == "5";
    assert IntToString(1) == "1";
    assert IntToString(2) == "2";
    assert Text(Elapsed(5, Sec)) == "5 sec ago";
    assert Text(Elapsed(1, Min)) == "1 min ago";
    assert Text(Elapsed(1, Hour)) == "1 hour ago";
    assert Text(Elapsed(2, Hour)) == "2 hours ago";
  }
}
