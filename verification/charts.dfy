/** The aggregation effect of the charts panel (src/components/EarthquakeCharts.tsx):
    a dense 24-slot hourly series, a four-bucket magnitude histogram and a
    three-band depth partition, recomputed whenever the list of quakes changes. */
module Charts {
  import opened Quakes
  import Text

  /** An hour of the day, as `Date.getHours()` returns it. */
  type Hour = h: int | 0 <= h < 24

  /** One slot of the hourly accumulator. */
  datatype HourTotal = HourTotal(hour: string, count: nat, totalMag: real)

  /** One point of the charted hourly series. */
  datatype HourPoint = HourPoint(hour: string, count: nat, avgMag: real)

  /** One bar of the magnitude histogram. */
  datatype MagBucket = MagBucket(name: string, count: nat)

  /** One slice of the depth pie. */
  datatype DepthSlice = DepthSlice(name: string, value: nat)

  // ---------------------------------------------------------------------
  // Hourly series
  // ---------------------------------------------------------------------

  /** The label of slot `h`: the hour padded to two digits, then ":00". */
  function HourLabel(h: nat): (name: string)
    ensures h < 100 ==> |name| == 5 && name[2..] == ":00"
  {
    var digits := Text.NatToString(h);
    Text.PadStart(digits, 2, '0') + ":00"
  }

  /** The hour a label names, read from its first two characters (-1 when
      they are not digits). */
  function LabelHour(name: string): int {
    if |name| >= 2 && Text.IsDigit(name[0]) && Text.IsDigit(name[1])
    then Text.DigitsValue(name[..2])
    else -1
  }

  /** A one-digit hour is padded with a single leading '0'. */
  lemma PadOneDigit(digits: string)
    requires |digits| == 1
    ensures Text.PadStart(digits, 2, '0') == ['0'] + digits
  {
  }

  /** Every slot label reads back as its own hour, so the 24 labels run
      from "00:00" to "23:00" in ascending order and are all distinct. */
  lemma HourLabelReadsBack(h: nat)
    requires h < 24
    ensures LabelHour(HourLabel(h)) == h
  {
    var digits := Text.NatToString(h);
    var padded := Text.PadStart(digits, 2, '0');
    Text.DigitsValueOfNatToString(h);
    assert HourLabel(h)[..2] == padded;
    if h < 10 {
      PadOneDigit(digits);
      assert padded[..1] == ['0'] && digits[..0] == [];
      assert Text.DigitsValue(padded) == Text.DigitsValue(digits);
    } else {
      assert padded == digits;
    }
  }

  /** Number of quakes whose local hour is `h`. */
  function CountInHour(qs: seq<Quake>, localHour: int -> Hour, h: int): nat {
    if qs == [] then 0
    else CountInHour(qs[..|qs| - 1], localHour, h) + (if localHour(qs[|qs| - 1].time) == h then 1 else 0)
  }

  /** Summed magnitude of the quakes whose local hour is `h`. */
  function MagSumInHour(qs: seq<Quake>, localHour: int -> Hour, h: int): real {
    if qs == [] then 0.0
    else MagSumInHour(qs[..|qs| - 1], localHour, h) + (if localHour(qs[|qs| - 1].time) == h then qs[|qs| - 1].mag else 0.0)
  }

  /** The accumulator after all quakes are recorded: slot `h` holds the
      number and summed magnitude of the quakes of hour `h`. */
  function HourTotals(qs: seq<Quake>, localHour: int -> Hour): seq<HourTotal> {
    seq(24, h requires 0 <= h < 24 => HourTotal(HourLabel(h), CountInHour(qs, localHour, h), MagSumInHour(qs, localHour, h)))
  }

  /** All 24 slot labels read back as their own hours. */
  lemma AllLabelsReadBack()
    ensures forall h :: 0 <= h < 24 ==> LabelHour(HourLabel(h)) == h
  {
    forall h | 0 <= h < 24 {
      HourLabelReadsBack(h);
    }
  }

  /** The accumulator has one slot per hour, whatever the input; slot `h`
      is labelled with hour `h`. */
  lemma HourTotalsShape(qs: seq<Quake>, localHour: int -> Hour)
    ensures |HourTotals(qs, localHour)| == 24
    ensures forall h :: 0 <= h < 24 ==> LabelHour(HourTotals(qs, localHour)[h].hour) == h
  {
    AllLabelsReadBack();
  }

  /** Recording one more quake adds 1 and its magnitude to the slot of its
      hour and leaves the 23 other slots as they were. */
  lemma {:induction false} RecordQuakeStep(qs: seq<Quake>, q: Quake, localHour: int -> Hour, h: Hour)
    ensures HourTotals(qs + [q], localHour)[h] ==
      if h == localHour(q.time) then
        HourTotals(qs, localHour)[h].(count := HourTotals(qs, localHour)[h].count + 1,
                                      totalMag := HourTotals(qs, localHour)[h].totalMag + q.mag)
      else HourTotals(qs, localHour)[h]
  {
    assert (qs + [q])[..|qs|] == qs;
  }

  /** The body of the per-quake loop: `t.count += 1; t.totalMag += mag` on
      the slot of the quake's hour. */
  method RecordQuake(hours: array<HourTotal>, q: Quake, hr: Hour)
    requires hours.Length == 24
    modifies hours
    ensures hours[..] == old(hours[..])[hr := old(hours[hr]).(count := old(hours[hr]).count + 1, totalMag := old(hours[hr]).totalMag + q.mag)]
  {
    var t := hours[hr];
    hours[hr] := t.(count := t.count + 1, totalMag := t.totalMag + q.mag);
  }

  /** One more quake changes the count and the summed magnitude of its own
      hour only. */
  lemma HourSumsStep(qs: seq<Quake>, q: Quake, localHour: int -> Hour, h: int)
    ensures CountInHour(qs + [q], localHour, h) == CountInHour(qs, localHour, h) + if localHour(q.time) == h then 1 else 0
    ensures MagSumInHour(qs + [q], localHour, h) == MagSumInHour(qs, localHour, h) + if localHour(q.time) == h then q.mag else 0.0
  {
    assert (qs + [q])[..|qs|] == qs;
  }

  /** The 24 slot labels, in hour order. */
  function SlotLabels(): (labels: seq<string>)
    ensures |labels| == 24
    ensures forall h :: 0 <= h < 24 ==> labels[h] == HourLabel(h)
  {
    seq(24, h requires 0 <= h < 24 => HourLabel(h))
  }

  /** Slot `h` holds label `labels[h]` and the count and summed magnitude of
      hour `h` of `qs`. The labels are kept apart so that the step below
      need not look inside them. */
  predicate SlotsHold(slots: seq<HourTotal>, labels: seq<string>, qs: seq<Quake>, localHour: int -> Hour) {
    |slots| == 24 && |labels| == 24 &&
    forall h :: 0 <= h < 24 ==>
      slots[h] == HourTotal(labels[h], CountInHour(qs, localHour, h), MagSumInHour(qs, localHour, h))
  }

  /** Slots that hold the totals of `qs`, updated as `RecordQuake` updates
      them, hold the totals of `qs` with `q` appended. */
  lemma {:induction false} SlotsStep(before: seq<HourTotal>, after: seq<HourTotal>, labels: seq<string>, qs: seq<Quake>, q: Quake, localHour: int -> Hour)
    requires SlotsHold(before, labels, qs, localHour)
    requires after == before[localHour(q.time) := before[localHour(q.time)].(count := before[localHour(q.time)].count + 1,
                                                                          totalMag := before[localHour(q.time)].totalMag + q.mag)]
    ensures SlotsHold(after, labels, qs + [q], localHour)
  {
    forall h | 0 <= h < 24
      ensures after[h] == HourTotal(labels[h], CountInHour(qs + [q], localHour, h), MagSumInHour(qs + [q], localHour, h))
    {
      HourSumsStep(qs, q, localHour, h);
    }
  }

  /** Slots labelled by hour that hold the totals of `qs` are the accumulator `HourTotals`. */
  lemma SlotsAreTotals(slots: seq<HourTotal>, qs: seq<Quake>, localHour: int -> Hour)
    requires SlotsHold(slots, SlotLabels(), qs, localHour)
    ensures slots == HourTotals(qs, localHour)
  {
  }

  /** 24 zeroed slots, each labelled with its hour, hold the totals of no quakes. */
  lemma ZeroSlotsHold(slots: seq<HourTotal>, localHour: int -> Hour)
    requires |slots| == 24
    requires forall h :: 0 <= h < 24 ==> slots[h] == HourTotal(HourLabel(h), 0, 0.0)
    ensures SlotsHold(slots, SlotLabels(), [], localHour)
  {
  }

  /** Records `q` in slots that hold the totals of the quakes `done` before it. */
  method RecordNext(hours: array<HourTotal>, ghost labels: seq<string>, ghost done: seq<Quake>, q: Quake, localHour: int -> Hour)
    requires SlotsHold(hours[..], labels, done, localHour)
    modifies hours
    ensures SlotsHold(hours[..], labels, done + [q], localHour)
  {
    ghost var before := hours[..];
    RecordQuake(hours, q, localHour(q.time));
    SlotsStep(before, hours[..], labels, done, q, localHour);
  }

  /** Builds the 24 zeroed slots and records every quake in its hour. */
  method AccumulateHours(quakes: seq<Quake>, localHour: int -> Hour) returns (totals: seq<HourTotal>)
    ensures totals == HourTotals(quakes, localHour)
  {
    var hours := new HourTotal[24](h requires 0 <= h < 24 => HourTotal(HourLabel(h), 0, 0.0));
    ghost var labels := SlotLabels();
    assert quakes[..0] == [];
    ZeroSlotsHold(hours[..], localHour);
    for i := 0 to |quakes|
      invariant SlotsHold(hours[..], labels, quakes[..i], localHour)
    {
      RecordNext(hours, labels, quakes[..i], quakes[i], localHour);
      assert quakes[..i + 1] == quakes[..i] + [quakes[i]];
    }
    assert quakes[..|quakes|] == quakes;
    totals := hours[..];
    SlotsAreTotals(totals, quakes, localHour);
  }

  /** Sum of the counts of the first `n` slots. */
  function SlotCountSum(qs: seq<Quake>, localHour: int -> Hour, n: nat): nat {
    if n == 0 then 0 else SlotCountSum(qs, localHour, n - 1) + CountInHour(qs, localHour, n - 1)
  }

  lemma {:induction false} SlotCountSumStep(qs: seq<Quake>, q: Quake, localHour: int -> Hour, n: nat)
    ensures SlotCountSum(qs + [q], localHour, n) ==
            SlotCountSum(qs, localHour, n) + (if localHour(q.time) < n then 1 else 0)
  {
    assert (qs + [q])[..|qs|] == qs;
    if n > 0 {
      SlotCountSumStep(qs, q, localHour, n - 1);
    }
  }

  lemma {:induction false} SlotCountSumOfNone(localHour: int -> Hour, n: nat)
    ensures SlotCountSum([], localHour, n) == 0
  {
    if n > 0 {
      SlotCountSumOfNone(localHour, n - 1);
    }
  }

  /** Every quake lands in exactly one slot: the 24 hourly counts add up to
      the number of quakes. */
  lemma {:induction false} HourCountsSum(qs: seq<Quake>, localHour: int -> Hour)
    ensures SlotCountSum(qs, localHour, 24) == |qs|
    decreases |qs|
  {
    if qs == [] {
      SlotCountSumOfNone(localHour, 24);
    } else {
      var init, last := qs[..|qs| - 1], qs[|qs| - 1];
      HourCountsSum(init, localHour);
      assert init + [last] == qs;
      SlotCountSumStep(init, last, localHour, 24);
      assert localHour(last.time) < 24;
    }
  }

  /** The average magnitude of a slot; 0 for an empty slot. Rounding to two
      decimals is not modelled. */
  function AverageMagnitude(t: HourTotal): (avg: real)
    ensures t.count == 0 ==> avg == 0.0
    ensures t.count > 0 ==> avg * (t.count as real) == t.totalMag
  {
    if t.count > 0 then t.totalMag / (t.count as real) else 0.0
  }

  /** `hours.map(...)`: the charted series, one point per slot. */
  function HourlySeries(hours: seq<HourTotal>): (series: seq<HourPoint>)
    ensures |series| == |hours|
    ensures forall i :: 0 <= i < |hours| ==>
      series[i].hour == hours[i].hour && series[i].count == hours[i].count &&
      (hours[i].count == 0 ==> series[i].avgMag == 0.0) &&
      (hours[i].count > 0 ==> series[i].avgMag == hours[i].totalMag / (hours[i].count as real))
  {
    seq(|hours|, i requires 0 <= i < |hours| => HourPoint(hours[i].hour, hours[i].count, AverageMagnitude(hours[i])))
  }

  /** The charted series has exactly 24 points, labelled "00:00" to "23:00"
      in order, whatever the input; point `h` counts the quakes of hour `h`
      and its average is 0 when the hour is empty, otherwise the
      summed magnitude over the count. */
  lemma {:induction false} HourlySeriesShape(qs: seq<Quake>, localHour: int -> Hour, h: nat)
    requires h < 24
    ensures |HourlySeries(HourTotals(qs, localHour))| == 24
    ensures LabelHour(HourlySeries(HourTotals(qs, localHour))[h].hour) == h
    ensures HourlySeries(HourTotals(qs, localHour))[h].count == CountInHour(qs, localHour, h)
    ensures CountInHour(qs, localHour, h) == 0 ==> HourlySeries(HourTotals(qs, localHour))[h].avgMag == 0.0
    ensures CountInHour(qs, localHour, h) > 0 ==>
      HourlySeries(HourTotals(qs, localHour))[h].avgMag == MagSumInHour(qs, localHour, h) / (CountInHour(qs, localHour, h) as real)
  {
    var totals := HourTotals(qs, localHour);
    var series := HourlySeries(totals);
    assert series[h] == HourPoint(totals[h].hour, totals[h].count, AverageMagnitude(totals[h]));
    assert totals[h] == HourTotal(HourLabel(h), CountInHour(qs, localHour, h), MagSumInHour(qs, localHour, h));
    HourLabelReadsBack(h);
  }

  /** Every quake of hour `h` has a magnitude between `lo` and `hi`. */
  predicate MagsWithin(qs: seq<Quake>, localHour: int -> Hour, h: int, lo: real, hi: real) {
    forall i :: 0 <= i < |qs| && localHour(qs[i].time) == h ==> lo <= qs[i].mag <= hi
  }

  /** `v` added up `n` times. */
  function Scaled(v: real, n: nat): real {
    if n == 0 then 0.0 else Scaled(v, n - 1) + v
  }

  lemma {:induction false} ScaledIsProduct(v: real, n: nat)
    ensures Scaled(v, n) == v * (n as real)
  {
    if n > 0 {
      ScaledIsProduct(v, n - 1);
      assert v * (n as real) == v * ((n - 1) as real) + v;
    }
  }

  /** The summed magnitude of an hour lies between `lo` and `hi` added up
      once per quake of that hour. */
  lemma {:induction false} MagSumInHourBounds(qs: seq<Quake>, localHour: int -> Hour, h: int, lo: real, hi: real)
    requires MagsWithin(qs, localHour, h, lo, hi)
    ensures Scaled(lo, CountInHour(qs, localHour, h)) <= MagSumInHour(qs, localHour, h)
    ensures MagSumInHour(qs, localHour, h) <= Scaled(hi, CountInHour(qs, localHour, h))
    decreases |qs|
  {
    if qs != [] {
      var init, last := qs[..|qs| - 1], qs[|qs| - 1];
      assert MagsWithin(init, localHour, h, lo, hi) by {
        forall i | 0 <= i < |init| ensures init[i] == qs[i] { }
      }
      MagSumInHourBounds(init, localHour, h, lo, hi);
      if localHour(last.time) == h {
        assert lo <= last.mag <= hi;
      }
    }
  }

  lemma QuotientBounds(x: real, c: real, lo: real, hi: real)
    requires c > 0.0 && lo * c <= x <= hi * c
    ensures lo <= x / c <= hi
  {
    assert x / c - lo == (x - lo * c) / c;
    assert hi - x / c == (hi * c - x) / c;
  }

  /** The average of a non-empty hour lies between the smallest and the
      largest magnitude recorded in that hour. */
  lemma {:induction false} AverageWithinBounds(qs: seq<Quake>, localHour: int -> Hour, h: Hour, lo: real, hi: real)
    requires MagsWithin(qs, localHour, h, lo, hi)
    requires CountInHour(qs, localHour, h) > 0
    ensures lo <= HourlySeries(HourTotals(qs, localHour))[h].avgMag <= hi
  {
    HourMeanWithin(qs, localHour, h, lo, hi);
    HourlySeriesShape(qs, localHour, h);
  }

  /** The summed magnitude of a non-empty hour over its count lies in `[lo, hi]`. */
  lemma HourMeanWithin(qs: seq<Quake>, localHour: int -> Hour, h: Hour, lo: real, hi: real)
    requires MagsWithin(qs, localHour, h, lo, hi)
    requires CountInHour(qs, localHour, h) > 0
    ensures lo <= MagSumInHour(qs, localHour, h) / (CountInHour(qs, localHour, h) as real) <= hi
  {
    MagSumInHourBounds(qs, localHour, h, lo, hi);
    MeanWithin(MagSumInHour(qs, localHour, h), CountInHour(qs, localHour, h), lo, hi);
  }

  /** A sum between `n` copies of `lo` and `n` copies of `hi` has its mean in `[lo, hi]`. */
  lemma MeanWithin(x: real, n: nat, lo: real, hi: real)
    requires n > 0 && Scaled(lo, n) <= x <= Scaled(hi, n)
    ensures lo <= x / (n as real) <= hi
  {
    ScaledIsProduct(lo, n);
    ScaledIsProduct(hi, n);
    QuotientBounds(x, n as real, lo, hi);
  }

  // ---------------------------------------------------------------------
  // Magnitude histogram
  // ---------------------------------------------------------------------

  /** The bucket of a magnitude, counted as the number of the boundaries
      2.5, 4.5 and 6.0 it reaches: a magnitude on a boundary belongs to the
      upper bucket. */
  function MagBucketOf(m: real): (b: nat)
    ensures b < 4
    ensures b == 0 <==> m < 2.5
    ensures b == 1 <==> 2.5 <= m < 4.5
    ensures b == 2 <==> 4.5 <= m < 6.0
    ensures b == 3 <==> 6.0 <= m
  {
    (if m >= 2.5 then 1 else 0) + (if m >= 4.5 then 1 else 0) + (if m >= 6.0 then 1 else 0)
  }

  /** The label of bucket `b`: only the lowest bucket opens with "<" and
      only the highest ends in "+". */
  function MagLabel(b: nat): (name: string)
    ensures |name| >= 4
    ensures name[0] == '<' <==> b == 0
    ensures name[|name| - 1] == '+' <==> b >= 3
  {
    if b == 0 then "< 2.5"
    else if b == 1 then "2.5 \U{2013} 4.5"
    else if b == 2 then "4.5 \U{2013} 6.0"
    else "6.0+"
  }

  /** Number of quakes whose magnitude falls in bucket `b`. */
  function MagCount(qs: seq<Quake>, b: nat): nat {
    if qs == [] then 0
    else MagCount(qs[..|qs| - 1], b) + (if MagBucketOf(qs[|qs| - 1].mag) == b then 1 else 0)
  }

  /** The four labelled buckets with their counts. */
  function MagHistogram(qs: seq<Quake>): (buckets: seq<MagBucket>)
    ensures |buckets| == 4
    ensures forall b :: 0 <= b < 4 ==> buckets[b].name == MagLabel(b) && buckets[b].count == MagCount(qs, b)
    ensures forall i, j :: 0 <= i < j < 4 ==> buckets[i].name != buckets[j].name
  {
    seq(4, b requires 0 <= b < 4 => MagBucket(MagLabel(b), MagCount(qs, b)))
  }

  /** Counting one more quake adds 1 to its own bucket and nothing to the others. */
  lemma MagCountStep(qs: seq<Quake>, q: Quake, b: nat)
    ensures MagCount(qs + [q], b) == MagCount(qs, b) + (if MagBucketOf(q.mag) == b then 1 else 0)
  {
    assert (qs + [q])[..|qs|] == qs;
  }

  /** The body of the per-quake loop: the if-chain that does `count++` on
      the bucket of magnitude `m` and on no other. */
  method CountMagnitude(magBuckets: array<MagBucket>, m: real)
    requires magBuckets.Length == 4
    modifies magBuckets
    ensures forall b :: 0 <= b < 4 ==>
      magBuckets[b] == old(magBuckets[b]).(count := old(magBuckets[b]).count + if MagBucketOf(m) == b then 1 else 0)
  {
    if m < 2.5 {
      magBuckets[0] := magBuckets[0].(count := magBuckets[0].count + 1);
    } else if m < 4.5 {
      magBuckets[1] := magBuckets[1].(count := magBuckets[1].count + 1);
    } else if m < 6.0 {
      magBuckets[2] := magBuckets[2].(count := magBuckets[2].count + 1);
    } else {
      magBuckets[3] := magBuckets[3].(count := magBuckets[3].count + 1);
    }
  }

  /** Sets up four labelled counters at zero and counts every quake in its bucket. */
  method CountMagnitudes(quakes: seq<Quake>) returns (buckets: seq<MagBucket>)
    ensures buckets == MagHistogram(quakes)
  {
    var magBuckets := new MagBucket[4](b requires 0 <= b < 4 => MagBucket(MagLabel(b), 0));
    for i := 0 to |quakes|
      invariant forall b :: 0 <= b < 4 ==> magBuckets[b] == MagBucket(MagLabel(b), MagCount(quakes[..i], b))
    {
      CountMagnitude(magBuckets, quakes[i].mag);
      assert quakes[..i + 1] == quakes[..i] + [quakes[i]];
      forall b | 0 <= b < 4
        ensures magBuckets[b] == MagBucket(MagLabel(b), MagCount(quakes[..i + 1], b))
      {
        MagCountStep(quakes[..i], quakes[i], b);
      }
    }
    assert quakes[..|quakes|] == quakes;
    buckets := magBuckets[..];
  }

  /** Every quake is counted in exactly one magnitude bucket: the four
      counts add up to the number of quakes. */
  lemma {:induction false} MagHistogramSum(qs: seq<Quake>)
    ensures MagCount(qs, 0) + MagCount(qs, 1) + MagCount(qs, 2) + MagCount(qs, 3) == |qs|
    decreases |qs|
  {
    if qs != [] {
      MagHistogramSum(qs[..|qs| - 1]);
    }
  }

  // ---------------------------------------------------------------------
  // Depth partition
  // ---------------------------------------------------------------------

  predicate IsShallow(d: real) { d < 70.0 }
  predicate IsIntermediate(d: real) { d >= 70.0 && d < 300.0 }
  predicate IsDeep(d: real) { d >= 300.0 }

  /** Each depth belongs to exactly one band; 70 km is intermediate and
      300 km is deep. */
  lemma DepthBandsDisjoint(d: real)
    ensures IsShallow(d) || IsIntermediate(d) || IsDeep(d)
    ensures !(IsShallow(d) && IsIntermediate(d)) && !(IsShallow(d) && IsDeep(d)) && !(IsIntermediate(d) && IsDeep(d))
    ensures IsIntermediate(70.0) && IsDeep(300.0)
  {
  }

  /** `earthquakes.map((q) => q.geometry.coordinates[2])`. */
  function Depths(qs: seq<Quake>): (ds: seq<real>)
    ensures |ds| == |qs| && forall i :: 0 <= i < |qs| ==> ds[i] == qs[i].coordinates.AsArray()[2]
  {
    seq(|qs|, i requires 0 <= i < |qs| => qs[i].coordinates.AsArray()[2])
  }

  /** `xs.filter(p)`: the elements satisfying `p`, in order. */
  function Filter(xs: seq<real>, p: real -> bool): (ys: seq<real>)
    ensures |ys| <= |xs|
    ensures forall y :: y in ys ==> y in xs && p(y)
    ensures forall x :: x in xs && p(x) ==> x in ys
    ensures forall y :: multiset(ys)[y] == if p(y) then multiset(xs)[y] else 0
  {
    if xs == [] then []
    else
      var rest := Filter(xs[1..], p);
      var ys := (if p(xs[0]) then [xs[0]] else []) + rest;
      assert xs == [xs[0]] + xs[1..];
      assert multiset(xs) == multiset([xs[0]]) + multiset(xs[1..]);
      assert multiset(ys) == multiset(if p(xs[0]) then [xs[0]] else []) + multiset(rest);
      ys
  }

  /** The three labelled slices with their counts. */
  function DepthHistogram(qs: seq<Quake>): (slices: seq<DepthSlice>)
    ensures |slices| == 3
    ensures slices[0] == DepthSlice("Shallow (<70km)", |Filter(Depths(qs), IsShallow)|)
    ensures slices[1] == DepthSlice("Intermediate (70\U{2013}300km)", |Filter(Depths(qs), IsIntermediate)|)
    ensures slices[2] == DepthSlice("Deep (>300km)", |Filter(Depths(qs), IsDeep)|)
    ensures slices[0].value + slices[1].value + slices[2].value == |qs|
  {
    var depths := Depths(qs);
    BandsCoverAll(depths);
    [ DepthSlice("Shallow (<70km)", |Filter(depths, IsShallow)|),
      DepthSlice("Intermediate (70\U{2013}300km)", |Filter(depths, IsIntermediate)|),
      DepthSlice("Deep (>300km)", |Filter(depths, IsDeep)|) ]
  }

  lemma {:induction false} BandsCoverAll(ds: seq<real>)
    ensures |Filter(ds, IsShallow)| + |Filter(ds, IsIntermediate)| + |Filter(ds, IsDeep)| == |ds|
    decreases |ds|
  {
    if ds != [] {
      BandsCoverAll(ds[1..]);
    }
  }

  // ---------------------------------------------------------------------
  // The component's chart state
  // ---------------------------------------------------------------------

  /** The three pieces of chart state the component holds. */
  class ChartState {
    var chartData: seq<HourPoint>
    var magnitudeData: seq<MagBucket>
    var depthData: seq<DepthSlice>

    /** All three start as empty lists. */
    constructor ()
      ensures chartData == [] && magnitudeData == [] && depthData == []
    {
      chartData, magnitudeData, depthData := [], [], [];
    }

    /** The effect run when the list of quakes changes: on an empty list it
        returns at once and leaves the previous charts in place; otherwise
        it recomputes all three. */
    method Refresh(earthquakes: seq<Quake>, localHour: int -> Hour)
      modifies this
      ensures |earthquakes| == 0 ==>
        chartData == old(chartData) && magnitudeData == old(magnitudeData) && depthData == old(depthData)
      ensures |earthquakes| > 0 ==>
        chartData == HourlySeries(HourTotals(earthquakes, localHour)) &&
        magnitudeData == MagHistogram(earthquakes) &&
        depthData == DepthHistogram(earthquakes)
    {
      if |earthquakes| == 0 {
        return;
      }
      var hours := AccumulateHours(earthquakes, localHour);
      chartData := HourlySeries(hours);
      magnitudeData := CountMagnitudes(earthquakes);
      depthData := DepthHistogram(earthquakes);
    }
  }
}
