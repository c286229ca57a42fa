/** The map view (src/components/MapView.tsx): the relative-time text of a
    popup, the marker colour, the popup badge and the heat-layer points. */
module MapView {
  import opened Quakes
  import opened Severity
  import Text

  const MillisPerHour: int := 1000 * 60 * 60
  const MillisPerDay: int := 24 * MillisPerHour

  // ---------------------------------------------------------------------
  // Relative time
  // ---------------------------------------------------------------------

  /** Whole hours between `timestamp` and `now`, rounded down
      (`Math.floor(diff / (1000 * 60 * 60))`; negative when `timestamp` lies
      in the future). */
  function HoursSince(now: int, timestamp: int): (hours: int)
    ensures hours * MillisPerHour <= now - timestamp < (hours + 1) * MillisPerHour
  {
    // With a positive divisor Dafny's division rounds down, as Math.floor does.
    (now - timestamp) / MillisPerHour
  }

  function Plural(n: int): string {
    if n > 1 then "s" else ""
  }

  /** `timeAgo(timestamp)`, with the clock reading `Date.now()` passed in as `now`. */
  function TimeAgo(now: int, timestamp: int): (text: string)
    ensures HoursSince(now, timestamp) < 1 <==> text == "less than an hour ago"
    ensures |text| > 4 && text[|text| - 4..] == " ago"
  {
    var hours := HoursSince(now, timestamp);
    if hours < 1 then "less than an hour ago"
    else if hours < 24 then
      var text := Text.NatToString(hours) + " hour" + Plural(hours) + " ago";
      assert text[0] == Text.NatToString(hours)[0];
      assert Text.IsDigit(text[0]);
      text
    else
      var days := hours / 24;
      var text := Text.NatToString(days) + " day" + Plural(days) + " ago";
      assert text[0] == Text.NatToString(days)[0];
      assert Text.IsDigit(text[0]);
      text
  }

  /** What a relative-time text says. */
  datatype Elapsed = UnderAnHour | HoursAgo(hours: nat) | DaysAgo(days: nat)

  /** `e` is the right description of a time difference of `diff` milliseconds. */
  predicate Describes(e: Elapsed, diff: int) {
    match e
    case UnderAnHour => diff < MillisPerHour
    case HoursAgo(n) => 1 <= n < 24 && n * MillisPerHour <= diff < (n + 1) * MillisPerHour
    case DaysAgo(d) => 1 <= d && d * MillisPerDay <= diff < (d + 1) * MillisPerDay
  }

  /** Reads a relative-time text back. */
  function ReadTimeAgo(text: string): Option<Elapsed> {
    if text == "less than an hour ago" then Some(UnderAnHour)
    else
      var k := Text.LeadingDigits(text);
      if k == 0 then None
      else
        var n := Text.DigitsValue(text[..k]);
        var rest := text[k..];
        if rest == " hour ago" || rest == " hours ago" then Some(HoursAgo(n))
        else if rest == " day ago" || rest == " days ago" then Some(DaysAgo(n))
        else None
  }

  /** The number a text shows: 0 for "less than an hour ago". */
  function Shown(e: Elapsed): nat {
    match e
    case UnderAnHour => 0
    case HoursAgo(n) => n
    case DaysAgo(d) => d
  }

  predicate EndsInPlural(text: string) {
    |text| >= 5 && text[|text| - 5..] == "s ago"
  }

  /** A number followed by a unit is read back as that number and unit. */
  lemma {:induction false} ReadNumberedText(n: nat, rest: string)
    requires rest != [] && rest[0] == ' '
    ensures ReadTimeAgo(Text.NatToString(n) + rest) ==
      if rest == " hour ago" || rest == " hours ago" then Some(HoursAgo(n))
      else if rest == " day ago" || rest == " days ago" then Some(DaysAgo(n))
      else None
  {
    var d := Text.NatToString(n);
    var text := d + rest;
    Text.LeadingDigitsOfNumber(n, rest);
    Text.DigitsValueOfNatToString(n);
    assert text[0] == d[0];
    assert Text.IsDigit(d[0]);
    assert text != "less than an hour ago";
    assert text[..|d|] == d;
    assert text[|d|..] == rest;
  }

  lemma {:induction false} ReadHoursText(n: nat)
    ensures ReadTimeAgo(Text.NatToString(n) + " hour" + Plural(n) + " ago") == Some(HoursAgo(n))
    ensures EndsInPlural(Text.NatToString(n) + " hour" + Plural(n) + " ago") <==> n > 1
  {
    var d := Text.NatToString(n);
    var rest := if n > 1 then " hours ago" else " hour ago";
    assert d + " hour" + Plural(n) + " ago" == d + rest;
    ReadNumberedText(n, rest);
    var text := d + rest;
    assert text[|text| - 5..] == rest[|rest| - 5..];
  }

  lemma {:induction false} ReadDaysText(n: nat)
    ensures ReadTimeAgo(Text.NatToString(n) + " day" + Plural(n) + " ago") == Some(DaysAgo(n))
    ensures EndsInPlural(Text.NatToString(n) + " day" + Plural(n) + " ago") <==> n > 1
  {
    var d := Text.NatToString(n);
    var rest := if n > 1 then " days ago" else " day ago";
    assert d + " day" + Plural(n) + " ago" == d + rest;
    ReadNumberedText(n, rest);
    assert rest[1] == 'd' != " hour ago"[1];
    assert rest[1] != " hours ago"[1];
    var text := d + rest;
    assert text[|text| - 5..] == rest[|rest| - 5..];
  }

  /** Whole days from whole hours: `Math.floor(hours / 24)` is the number of
      whole days in the time difference. */
  lemma DaysFromHours(diff: int, hours: int)
    requires hours >= 24
    requires hours * MillisPerHour <= diff < (hours + 1) * MillisPerHour
    ensures 1 <= hours / 24
    ensures (hours / 24) * MillisPerDay <= diff < (hours / 24 + 1) * MillisPerDay
  {
    var days := hours / 24;
    assert days * 24 <= hours < (days + 1) * 24;
    assert days * MillisPerDay == (days * 24) * MillisPerHour;
    assert (days + 1) * MillisPerDay == ((days + 1) * 24) * MillisPerHour;
  }

  /** The text is always readable and tells the truth: under an hour
      (including a timestamp in the future), the whole hours for 1 to 23
      hours, and the whole days from 24 hours on; the unit takes a trailing
      "s" exactly when the number shown is above 1. */
  lemma {:induction false} TimeAgoIsAccurate(now: int, timestamp: int)
    ensures ReadTimeAgo(TimeAgo(now, timestamp)).Some?
    ensures Describes(ReadTimeAgo(TimeAgo(now, timestamp)).value, now - timestamp)
    ensures EndsInPlural(TimeAgo(now, timestamp)) <==> Shown(ReadTimeAgo(TimeAgo(now, timestamp)).value) > 1
  {
    var hours := HoursSince(now, timestamp);
    if 1 <= hours < 24 {
      ReadHoursText(hours);
    } else if hours >= 24 {
      ReadDaysText(hours / 24);
      DaysFromHours(now - timestamp, hours);
    } else {
      var text := "less than an hour ago";
      assert text[|text| - 5..] == "r ago";
    }
  }

  // ---------------------------------------------------------------------
  // Marker colour and popup badge
  // ---------------------------------------------------------------------

  /** The marker fill colour of each severity class. */
  function Hex(s: Severity): string {
    match s
    case Red => "#ef4444"
    case Orange => "#f97316"
    case Yellow => "#facc15"
    case Green => "#22c55e"
  }

  /** The class a marker colour stands for. */
  function SeverityOfHex(color: string): Option<Severity> {
    if color == "#ef4444" then Some(Red)
    else if color == "#f97316" then Some(Orange)
    else if color == "#facc15" then Some(Yellow)
    else if color == "#22c55e" then Some(Green)
    else None
  }

  /** `getColor(mag)`: the marker colour of the magnitude's severity class. */
  function GetColor(mag: real): (color: string)
    ensures color == Hex(SeverityOf(mag))
    ensures SeverityOfHex(color) == Some(SeverityOf(mag))
  {
    if mag >= 6.0 then "#ef4444"
    else if mag >= 4.0 then "#f97316"
    else if mag >= 2.0 then "#facc15"
    else "#22c55e"
  }

  /** A larger magnitude never gets a marker colour of a lower class. */
  lemma GetColorMonotone(m1: real, m2: real)
    requires m1 <= m2
    ensures Rank(SeverityOfHex(GetColor(m1)).value) <= Rank(SeverityOfHex(GetColor(m2)).value)
  {
    SeverityMonotone(m1, m2);
  }

  /** The popup badge class of each severity class. */
  function Badge(s: Severity): string {
    match s
    case Red => "bg-red-100 text-red-700 dark:bg-red-900/30 dark:text-red-300"
    case Orange => "bg-orange-100 text-orange-700 dark:bg-orange-900/30 dark:text-orange-300"
    case Yellow => "bg-yellow-100 text-yellow-700 dark:bg-yellow-900/30 dark:text-yellow-300"
    case Green => "bg-green-100 text-green-700 dark:bg-green-900/30 dark:text-green-300"
  }

  /** The popup badge class: the badge of the magnitude's severity class,
      the same class the marker colour shows. */
  function BadgeClass(mag: real): (c: string)
    ensures c == Badge(SeverityOf(mag))
  {
    if mag >= 6.0 then "bg-red-100 text-red-700 dark:bg-red-900/30 dark:text-red-300"
    else if mag >= 4.0 then "bg-orange-100 text-orange-700 dark:bg-orange-900/30 dark:text-orange-300"
    else if mag >= 2.0 then "bg-yellow-100 text-yellow-700 dark:bg-yellow-900/30 dark:text-yellow-300"
    else "bg-green-100 text-green-700 dark:bg-green-900/30 dark:text-green-300"
  }

  // ---------------------------------------------------------------------
  // Heat-layer points
  // ---------------------------------------------------------------------

  /** A Leaflet heat point: latitude first, then longitude, then weight. */
  datatype HeatPoint = HeatPoint(lat: real, lng: real, intensity: real)

  /** `mag || 0`: 0 is the only falsy magnitude, and it stays 0. */
  function OrZero(mag: real): (r: real)
    ensures r == mag
  {
    if mag != 0.0 then mag else 0.0
  }

  /** The heat point of one quake: the GeoJSON order longitude, latitude is
      swapped, and the weight is the magnitude over 10. */
  function HeatPointOf(q: Quake): (p: HeatPoint)
    ensures p.lat == q.coordinates.latitude && p.lng == q.coordinates.longitude
    ensures p.intensity == q.mag / 10.0
    ensures 0.0 <= q.mag <= 10.0 ==> 0.0 <= p.intensity <= 1.0
  {
    var position := q.coordinates.AsArray();
    var lon, lat := position[0], position[1];
    var mag := OrZero(q.mag);
    HeatPoint(lat, lon, mag / 10.0)
  }

  /** `earthquakes.map(...)`: one heat point per quake, in input order. */
  function HeatmapPoints(qs: seq<Quake>): (points: seq<HeatPoint>)
    ensures |points| == |qs|
    ensures forall i :: 0 <= i < |qs| ==>
      points[i].lat == qs[i].coordinates.latitude && points[i].lng == qs[i].coordinates.longitude &&
      points[i].intensity == qs[i].mag / 10.0
  {
    seq(|qs|, i requires 0 <= i < |qs| => HeatPointOf(qs[i]))
  }
}
