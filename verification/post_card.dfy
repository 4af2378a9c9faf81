/** The pure parts of the post card: the relative-age label and the
    fallbacks used for the author handle, the avatar initials and the kudos
    count. */
module PostCard {
  import opened Nullable
  import opened Entities
  import Decimal

  const MsPerMinute := 60000
  const MsPerHour := 3600000
  const MsPerDay := 86400000
  /** Ages of this many milliseconds or more show the locale date. */
  const MsPerThirtyDays := 2592000000

  /** `Math.floor(a / b)` for a positive divisor. */
  function FloorDiv(a: int, b: int): (q: int)
    requires b > 0
    ensures b * q <= a < b * (q + 1)
  {
    a / b
  }

  /** The bucket `timeAgo` picks: the age in whole minutes, hours or days,
      or the long locale date for anything thirty days or older. */
  datatype Age = JustNow | MinutesAgo(minutes: int) | HoursAgo(hours: int) | DaysAgo(days: int) | LocaleDate

  /** `timeAgo` on the difference `now - created` in milliseconds. A
      negative difference (a timestamp in the future) is "just now". */
  function TimeAgo(diffMs: int): (r: Age)
    ensures r.MinutesAgo? ==> 1 <= r.minutes <= 59
    ensures r.HoursAgo? ==> 1 <= r.hours <= 23
    ensures r.DaysAgo? ==> 1 <= r.days <= 29
  {
    var diffMins := FloorDiv(diffMs, 60000);
    if diffMins < 1 then JustNow
    else if diffMins < 60 then MinutesAgo(diffMins)
    else
      var diffHours := FloorDiv(diffMins, 60);
      if diffHours < 24 then HoursAgo(diffHours)
      else
        var diffDays := FloorDiv(diffHours, 24);
        if diffDays < 30 then DaysAgo(diffDays) else LocaleDate
  }

  /** Floor division has one answer. */
  lemma FloorDivUnique(x: int, d: int, q: int)
    requires d > 0 && d * q <= x < d * (q + 1)
    ensures FloorDiv(x, d) == q
  {
  }

  lemma MulMonotone(d: int, x: int, y: int)
    requires d > 0 && x <= y
    ensures d * x <= d * y
  {
  }

  /** Flooring twice is flooring once by the product. */
  lemma FloorDivNested(x: int, a: int, b: int)
    requires a > 0 && b > 0
    ensures FloorDiv(FloorDiv(x, a), b) == FloorDiv(x, a * b)
  {
    var q := FloorDiv(x, a);
    var r := FloorDiv(q, b);
    MulMonotone(a, b * r, q);
    MulMonotone(a, q + 1, b * (r + 1));
    assert a * (b * r) == (a * b) * r;
    assert a * (b * (r + 1)) == (a * b) * (r + 1);
    FloorDivUnique(x, a * b, r);
  }

  /** Flooring is monotone in the dividend. */
  lemma FloorDivMonotone(x: int, y: int, d: int)
    requires d > 0 && x <= y
    ensures FloorDiv(x, d) <= FloorDiv(y, d)
  {
  }

  /** The buckets as ranges of milliseconds: exactly one applies to every
      difference, and each shows the difference floored to its own unit. */
  lemma TimeAgoBuckets(d: int)
    ensures TimeAgo(d) == JustNow <==> d < MsPerMinute
    ensures TimeAgo(d).MinutesAgo? <==> MsPerMinute <= d < MsPerHour
    ensures TimeAgo(d).HoursAgo? <==> MsPerHour <= d < MsPerDay
    ensures TimeAgo(d).DaysAgo? <==> MsPerDay <= d < MsPerThirtyDays
    ensures TimeAgo(d) == LocaleDate <==> MsPerThirtyDays <= d
    ensures TimeAgo(d).MinutesAgo? ==> TimeAgo(d).minutes == FloorDiv(d, MsPerMinute)
    ensures TimeAgo(d).HoursAgo? ==> TimeAgo(d).hours == FloorDiv(d, MsPerHour)
    ensures TimeAgo(d).DaysAgo? ==> TimeAgo(d).days == FloorDiv(d, MsPerDay)
  {
    // the hour and day counts are floored from the already-floored count
    FloorDivNested(d, MsPerMinute, 60);
    FloorDivNested(d, MsPerHour, 24);
  }

  /** Bucket order: just now, minutes, hours, days, locale date. */
  function Rank(a: Age): nat
  {
    match a
    case JustNow => 0
    case MinutesAgo(_) => 1
    case HoursAgo(_) => 2
    case DaysAgo(_) => 3
    case LocaleDate => 4
  }

  /** The number a bucket shows (none for "just now" and the date). */
  function Count(a: Age): int
  {
    match a
    case MinutesAgo(n) => n
    case HoursAgo(n) => n
    case DaysAgo(n) => n
    case _ => 0
  }

  /** `x` reads as no older than `y`. */
  predicate NoOlder(x: Age, y: Age)
  {
    Rank(x) < Rank(y) || (Rank(x) == Rank(y) && Count(x) <= Count(y))
  }

  /** An older post never gets a younger-looking label. */
  lemma TimeAgoMonotone(d1: int, d2: int)
    requires d1 <= d2
    ensures NoOlder(TimeAgo(d1), TimeAgo(d2))
  {
    TimeAgoBuckets(d1);
    TimeAgoBuckets(d2);
    FloorDivMonotone(d1, d2, MsPerMinute);
    FloorDivMonotone(d1, d2, MsPerHour);
    FloorDivMonotone(d1, d2, MsPerDay);
  }

  /** The label `timeAgo` returns; `localeDate` stands for the clock- and
      locale-dependent `toLocaleDateString()` text. */
  function TimeAgoText(diffMs: int, localeDate: string): (r: string)
    ensures diffMs < MsPerMinute ==> r == "just now"
    ensures MsPerThirtyDays <= diffMs ==> r == localeDate
    ensures MsPerMinute <= diffMs < MsPerThirtyDays ==>
              2 <= |r| <= 3 && r[|r| - 1] in {'m', 'h', 'd'}
  {
    TimeAgoBuckets(diffMs);
    match TimeAgo(diffMs)
    case JustNow => "just now"
    case MinutesAgo(m) => Decimal.Show(m) + "m"
    case HoursAgo(h) => Decimal.Show(h) + "h"
    case DaysAgo(n) => Decimal.Show(n) + "d"
    case LocaleDate => localeDate
  }

  /** A short label is two or three characters: the count, read back from
      its digits, followed by its unit letter. */
  lemma TimeAgoTextReadsBack(d: int, localeDate: string)
    requires MsPerMinute <= d < MsPerThirtyDays
    ensures var t := TimeAgoText(d, localeDate);
            && 2 <= |t| <= 3
            && Decimal.AllDigits(t[..|t| - 1])
            && Decimal.Parse(t[..|t| - 1]) == Count(TimeAgo(d))
            && t[|t| - 1] == (if d < MsPerHour then 'm' else if d < MsPerDay then 'h' else 'd')
  {
    TimeAgoBuckets(d);
    var n := Count(TimeAgo(d));
    assert 1 <= n < 60;
    Decimal.ParseShow(n);
    var t := TimeAgoText(d, localeDate);
    assert t[..|t| - 1] == Decimal.Show(n);
  }

  function Min(a: int, b: int): int
  {
    if a <= b then a else b
  }

  /** The author handle: `agent_username || agent_id.slice(0, 8)`. */
  function Handle(p: Post): (r: string)
    ensures Truthy(p.agentUsername) ==> r == p.agentUsername.value
    ensures !Truthy(p.agentUsername) ==> r <= p.agentId && |r| == Min(8, |p.agentId|)
  {
    OrElse(p.agentUsername, p.agentId[..Min(8, |p.agentId|)])
  }

  /** ASCII upper-casing of one character. */
  function UpperAscii(c: char): char
  {
    if 'a' <= c <= 'z' then (c as int - 32) as char else c
  }

  function ToUpper(s: string): (r: string)
    ensures |r| == |s|
    ensures forall i :: 0 <= i < |s| ==> r[i] == UpperAscii(s[i])
  {
    seq(|s|, i requires 0 <= i < |s| => UpperAscii(s[i]))
  }

  /** The avatar initials: `agent_username?.slice(0, 2).toUpperCase() || "AG"`. */
  function Initials(p: Post): (r: string)
    ensures 1 <= |r| <= 2
    ensures !Truthy(p.agentUsername) ==> r == "AG"
    ensures Truthy(p.agentUsername) ==>
              |r| == Min(2, |p.agentUsername.value|)
              && forall i :: 0 <= i < |r| ==> r[i] == UpperAscii(p.agentUsername.value[i])
  {
    var shown := match p.agentUsername
      case Some(u) => Some(ToUpper(u[..Min(2, |u|)]))
      case None => None;
    OrElse(shown, "AG")
  }

  /** The kudos shown: `kudos_count || 0`. A zero count falls back to zero,
      so the fallback only matters when the count is absent. */
  function KudosShown(p: Post): (r: int)
    ensures p.kudosCount.Some? ==> r == p.kudosCount.value
    ensures p.kudosCount.None? ==> r == 0
  {
    match p.kudosCount
    case Some(k) => k  // a zero count is falsy, but `|| 0` then yields 0 too
    case None => 0
  }
}
