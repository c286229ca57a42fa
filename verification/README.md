# USGS earthquake dashboard: the data logic

This project models the data logic of a browser dashboard for USGS
earthquake feeds and proves properties of that model. Rendering, network
and timers are not part of it. The modules are:

- **Quakes**: the earthquake record. It has an id, a magnitude, a place, a
  time in epoch milliseconds and a GeoJSON position. The position order is
  longitude, latitude, depth, as section 3.1.1 of RFC 7946 (GeoJSON)
  orders positions.
- **Severity**: the four colour classes (green below 2, yellow from 2,
  orange from 4, red from 6). The map markers, the map popup badge, the
  statistics table and the globe each write these thresholds out again.
  Each copy is proved to agree with this one definition.
- **Text**: how a non-negative integer turns into decimal text (`${n}`)
  and `padStart`.
- **Charts**: the effect of the charts panel.
  - A 24-slot hourly accumulator, filled in place.
  - The averaged hourly series.
  - A four-bucket magnitude histogram with in-place counters.
  - A three-band depth partition.
  - The component state these three feed. On an empty list the state is
    left alone.
- **Stats**: the statistics panel.
  - Maximum and mean magnitude.
  - The intensity gauge.
  - The page count and the rows of a page.
  - The `currentPage` state, changed by the Prev and Next buttons.
- **MapView**: the map.
  - The "N hours/days ago" text.
  - The marker colour and the popup badge.
  - The heat-layer points.
- **LiveFeed**: the live banner. It picks the latest quake of a fetch and
  sets its state only when the fetch returned something.
- **Globe**: the projection of quakes onto globe points.

Some inputs come from outside the program and are parameters here:

- The hour of day of a timestamp is `localHour: int -> Hour`, with values
  0..23. In the source it is `Date.getHours()` in the runtime's time zone.
- The clock reading `Date.now()` is `now`.

Magnitudes and depths are `real`. Times and page numbers are `int`.

For an empty list `Math.ceil(0 / 10)` is 0, so `Stats.TotalPages` gives 0
pages. The Next updater would then give page 0, but on an empty list the
panel shows only its "no data" message and no paging buttons
(src/components/EarthquakeStats.tsx:44-47), so page 0 is never reached.
`Stats.PageItems` still follows JavaScript's `slice` for every page
number, a negative start included.

## Model

| member | source | states |
|---|---|---|
| Quakes.Coordinates.AsArray | src/utils/fetchEarthquakes.ts:17-19 | the position array is longitude, latitude, depth, in that order |
| Quakes.Magnitudes | src/components/EarthquakeStats.tsx:14 | one magnitude per quake, in list order |
| Text.NatToString | src/components/EarthquakeCharts.tsx:46 | the decimal text is non-empty and all digits, with no leading zero; it has one digit exactly when n < 10, and two digits for 10..99 |
| Text.DigitsValueOfNatToString | src/components/EarthquakeCharts.tsx:46 | reading the decimal text back gives the number |
| Text.NatToStringInjective | src/components/EarthquakeCharts.tsx:46 | different numbers have different texts |
| Text.PadStart | src/components/EarthquakeCharts.tsx:46 | a text already `width` long is unchanged; a shorter one becomes exactly `width` long; the result is fill characters followed by the original text |
| Severity.SeverityOf | src/components/MapView.tsx:33-38 | red exactly when mag >= 6, orange exactly on [4, 6), yellow exactly on [2, 4), green exactly below 2; the rank is the number of thresholds reached |
| Severity.SeverityMonotone | src/components/MapView.tsx:33-38 | a larger magnitude never falls in a lower class |
| Charts.HourLabel | src/components/EarthquakeCharts.tsx:45-49 | every slot label is five characters long and ends in ":00" |
| Charts.HourTotalsShape | src/components/EarthquakeCharts.tsx:45-49 | the accumulator `HourTotals` has 24 slots whatever the input, and slot h is labelled with hour h |
| Charts.HourLabelReadsBack | src/components/EarthquakeCharts.tsx:45-49 | label h reads back as h, so the 24 labels are "00:00" to "23:00", distinct and ascending |
| Charts.RecordQuakeStep | src/components/EarthquakeCharts.tsx:51-57 | one more quake adds 1 to `count` and its magnitude to `totalMag` of the slot of its hour; the other 23 slots are unchanged |
| Charts.RecordQuake | src/components/EarthquakeCharts.tsx:54-56 | the in-place update of slot `hr` (count + 1, totalMag + mag) leaves every other slot as it was |
| Charts.AccumulateHours | src/components/EarthquakeCharts.tsx:45-57 | after the loop, slot h holds the number and the summed magnitude of the quakes whose local hour is h |
| Charts.HourCountsSum | src/components/EarthquakeCharts.tsx:51-57 | the 24 hourly counts add up to the number of quakes |
| Charts.AverageMagnitude | src/components/EarthquakeCharts.tsx:62 | 0 for an empty slot; otherwise average times count equals the summed magnitude |
| Charts.HourlySeries | src/components/EarthquakeCharts.tsx:59-63 | one point per slot, in order, with the slot's label and count; the average is 0 for an empty slot and the summed magnitude over the count otherwise |
| Charts.HourlySeriesShape | src/components/EarthquakeCharts.tsx:59-63 | the series has 24 points whatever the input; point h is labelled with hour h and counts the quakes of hour h; its average is 0 when that count is 0 and the summed magnitude over the count otherwise |
| Charts.MagSumInHourBounds | src/components/EarthquakeCharts.tsx:51-57 | when every quake of hour h has a magnitude in [lo, hi], the hour's summed magnitude lies between lo and hi added once per quake |
| Charts.AverageWithinBounds | src/components/EarthquakeCharts.tsx:59-63 | the average of a non-empty hour lies between the smallest and the largest magnitude of that hour |
| Charts.MagBucketOf | src/components/EarthquakeCharts.tsx:75-81 | every magnitude is in exactly one of four buckets; a boundary magnitude (2.5, 4.5, 6.0) goes to the upper bucket |
| Charts.MagLabel | src/components/EarthquakeCharts.tsx:68-73 | only the lowest bucket's label opens with "<" and only the highest one's ends in "+" |
| Charts.MagHistogram | src/components/EarthquakeCharts.tsx:68-81 | four buckets; bucket b carries the label `MagLabel(b)` (so the labels are pairwise distinct) and counts the quakes whose magnitude falls in it |
| Charts.MagCountStep | src/components/EarthquakeCharts.tsx:75-81 | counting one more quake adds 1 to its own bucket and nothing to the others |
| Charts.CountMagnitude | src/components/EarthquakeCharts.tsx:76-80 | the if-chain increments the counter of the magnitude's bucket and leaves the other three counters unchanged |
| Charts.CountMagnitudes | src/components/EarthquakeCharts.tsx:68-81 | the four in-place counters end as the four labelled buckets, each holding the number of quakes in its interval |
| Charts.MagHistogramSum | src/components/EarthquakeCharts.tsx:75-81 | the four bucket counts add up to the number of quakes |
| Charts.DepthBandsDisjoint | src/components/EarthquakeCharts.tsx:87-89 | every depth is in exactly one band; 70 km is intermediate and 300 km is deep |
| Charts.Depths | src/components/EarthquakeCharts.tsx:86 | one depth per quake, taken from the third position coordinate |
| Charts.Filter | src/components/EarthquakeCharts.tsx:87-89 | `filter` keeps every occurrence of each element that satisfies the predicate and drops every other, so repeated depths are each counted; never longer than the input |
| Charts.BandsCoverAll | src/components/EarthquakeCharts.tsx:87-89 | the three band counts of a list of depths add up to its length |
| Charts.DepthHistogram | src/components/EarthquakeCharts.tsx:86-95 | three slices in the order shallow, intermediate, deep, each with its label and the number of depths in its band (below 70 km, 70 km up to but not including 300 km, 300 km and deeper); their values add up to the number of quakes |
| Charts.ChartState.constructor | src/components/EarthquakeCharts.tsx:31-39 | all three chart lists start empty |
| Charts.ChartState.Refresh | src/components/EarthquakeCharts.tsx:41-96 | an empty list changes nothing; otherwise the hourly series, the magnitude histogram and the depth slices are all replaced by those of the new list |
| Stats.MaxOf | src/components/EarthquakeStats.tsx:15 | the maximum of a non-empty list is at least every element and is one of them |
| Stats.MaxMagnitude | src/components/EarthquakeStats.tsx:15 | 0 for an empty list; otherwise at least every magnitude and equal to one of them |
| Stats.SumOf | src/components/EarthquakeStats.tsx:17 | the `reduce` sum is 0 for an empty list and the element itself for a one-element list |
| Stats.SumOfAppend | src/components/EarthquakeStats.tsx:17 | the sum of two lists laid end to end is the sum of their sums |
| Stats.MeanMagnitude | src/components/EarthquakeStats.tsx:16-18 | 0 for an empty list; otherwise the summed magnitude over the number of quakes |
| Stats.SumAtMost | src/components/EarthquakeStats.tsx:16-18 | a sum of values each at most `bound` is at most `bound` times their number |
| Stats.MeanAtMostMax | src/components/EarthquakeStats.tsx:15-18 | the mean magnitude never exceeds the maximum magnitude |
| Stats.Intensity | src/components/EarthquakeStats.tsx:27 | never above 100; ten times the maximum up to magnitude 10 and 100 from there; negative for a negative maximum, so there is no lower clamp |
| Stats.IntensityOfList | src/components/EarthquakeStats.tsx:15-27 | for non-negative magnitudes the gauge lies in [0, 100] and reaches 100 exactly when some magnitude is at least 10 |
| Stats.MagCellClass | src/components/EarthquakeStats.tsx:100-108 | the table cell colour is the colour of the magnitude's severity class |
| Stats.Ceil | src/components/EarthquakeStats.tsx:21 | the least integer not below x |
| Stats.TotalPages | src/components/EarthquakeStats.tsx:20-21 | the fewest pages of 10 that hold every quake: enough pages, and one page fewer would not be; 0 pages exactly for an empty list |
| Stats.JsSlice | src/components/EarthquakeStats.tsx:22-25 | never longer than the list or than end - start; a start at or past the end of the list gives the empty list; from a start inside the list it is the subsequence up to end, clamped to the list length; an end at or before a non-negative start gives the empty list; a negative start counts back from the end of the list, clamped at 0 |
| Stats.PageItems | src/components/EarthquakeStats.tsx:22-25 | at most 10 rows; page p >= 1 shows the quakes from (p-1)*10 to min(p*10, total) |
| Stats.FlattenFirstPages | src/components/EarthquakeStats.tsx:20-25 | the first k pages laid end to end are the first min(10k, total) quakes |
| Stats.PagesPartition | src/components/EarthquakeStats.tsx:20-25 | pages 1 to totalPages laid end to end give back the list, so every quake is on exactly one page |
| Stats.PageOfIndex | src/components/EarthquakeStats.tsx:20-25 | quake i is row i mod 10 of page i / 10 + 1, which is a valid page |
| Stats.PagePastEndIsEmpty | src/components/EarthquakeStats.tsx:22-25 | a page beyond totalPages shows nothing |
| Stats.PrevPage | src/components/EarthquakeStats.tsx:135 | one page back, but never below 1 |
| Stats.NextPage | src/components/EarthquakeStats.tsx:145 | one page on, but never beyond totalPages |
| Stats.PagingKeepsRange | src/components/EarthquakeStats.tsx:135-145 | from a page in 1..totalPages, Prev and Next stay in 1..totalPages |
| Stats.DisabledButtonsAreNoOps | src/components/EarthquakeStats.tsx:134-147 | Prev leaves the page unchanged exactly on page 1 and Next exactly on the last page, which is where each button is disabled |
| Stats.StatsPanel.constructor | src/components/EarthquakeStats.tsx:10 | the panel starts on page 1 |
| Stats.StatsPanel.CurrentData | src/components/EarthquakeStats.tsx:22-25 | the rows on show are never more than 10 |
| Stats.StatsPanel.Receive | src/components/EarthquakeStats.tsx:9-10 | a new list from the parent keeps the current page |
| Stats.StatsPanel.Prev | src/components/EarthquakeStats.tsx:135 | the page becomes max(p - 1, 1): never below 1, and a page in range stays in range |
| Stats.StatsPanel.Next | src/components/EarthquakeStats.tsx:145 | the page becomes min(p + 1, totalPages): never above totalPages, and a page in range stays in range |
| MapView.TimeAgo | src/components/MapView.tsx:23-30 | the text is "less than an hour ago" exactly when fewer than one whole hour has passed, and always ends in " ago" |
| MapView.HoursSince | src/components/MapView.tsx:24-25 | the whole hours elapsed, rounded down, bracket the time difference |
| MapView.ReadHoursText | src/components/MapView.tsx:27 | "N hour(s) ago" reads back as N hours, and the unit ends in "s" exactly when N > 1 |
| MapView.ReadDaysText | src/components/MapView.tsx:28-29 | "N day(s) ago" reads back as N days, and the unit ends in "s" exactly when N > 1 |
| MapView.DaysFromHours | src/components/MapView.tsx:28 | from 24 hours on, floor(hours / 24) is at least 1 and is the number of whole days in the difference |
| MapView.TimeAgoIsAccurate | src/components/MapView.tsx:23-30 | the text always reads back; it says "less than an hour" for under an hour (a timestamp in the future included), the whole hours for 1 to 23 hours and the whole days from then on; the unit is plural exactly when the number shown is above 1 |
| MapView.GetColor | src/components/MapView.tsx:33-38 | the marker colour is the colour of the magnitude's severity class, and decodes back to that class |
| MapView.GetColorMonotone | src/components/MapView.tsx:33-38 | a larger magnitude never gets the colour of a lower class |
| MapView.BadgeClass | src/components/MapView.tsx:191-199 | the popup badge is the badge of the magnitude's severity class, the same class the marker colour shows |
| MapView.OrZero | src/components/MapView.tsx:74 | `mag \|\| 0` leaves every real magnitude unchanged |
| MapView.HeatPointOf | src/components/MapView.tsx:72-75 | the point is latitude, longitude (the GeoJSON order swapped) and magnitude / 10; a magnitude in [0, 10] gives a weight in [0, 1] |
| MapView.HeatmapPoints | src/components/MapView.tsx:70-78 | one heat point per quake, in list order |
| LiveFeed.Later | src/components/LiveEarthquakeFeed.tsx:13 | the reducer returns one of its two arguments, no earlier than either; on equal times it keeps the running value |
| LiveFeed.FoldLatest | src/components/LiveEarthquakeFeed.tsx:12-14 | the fold ends at the running value or at the first later element of the greatest time, never earlier than the start and never earlier than any element |
| LiveFeed.LatestQuake | src/components/LiveEarthquakeFeed.tsx:12-14 | the chosen quake is in the list; its time is at least every time in the list; on a tie it is the first in list order |
| LiveFeed.Banner.constructor | src/components/LiveEarthquakeFeed.tsx:6 | the banner starts with no quake |
| LiveFeed.Banner.LoadLatest | src/components/LiveEarthquakeFeed.tsx:9-17 | an empty fetch leaves the state unchanged; otherwise the state becomes the latest quake of the fetch; once set, it never becomes empty again |
| Globe.PointColor | src/components/EarthquakeGlobe.tsx:25-32 | the point colour names the magnitude's severity class |
| Globe.PointSize | src/components/EarthquakeGlobe.tsx:24 | the size is the larger of 0.3 and half the magnitude, so never below 0.3 |
| Globe.GlobeAgreesWithMap | src/components/EarthquakeGlobe.tsx:25-32 | the globe colour and the map marker colour put every magnitude in the same class |
| Globe.PointOf | src/components/EarthquakeGlobe.tsx:21-35 | latitude from the second coordinate and longitude from the first; place and magnitude are copied; the size is `Math.max(0.3, mag / 2)`, so at least 0.3 and at least half the magnitude; the colour is the severity class |
| Globe.GlobePoints | src/components/EarthquakeGlobe.tsx:21-36 | one point per quake, in list order |

## Left out

- Fetching and parsing the USGS feed (src/utils/fetchEarthquakes.ts:22-43) is left out because it is network I/O. Only the record interface is modelled, and only the fields the core reads.
- The 5-minute polling of the live banner is left out because it is timers and asynchrony. So are the effects' scheduling and component rendering.
- Time zones and clocks are parameters. `Date.getHours()` is `localHour`, and `Date.now()` is `now`.
- Charts.AverageMagnitude: the average is not rounded to two decimals (`toFixed(2)` then `parseFloat`). Floating-point rounding is not modelled.
- Charts.HourlySeriesShape: the same two-decimal rounding of the average is not modelled.
- Stats.MeanMagnitude: the `toFixed(2)` display string is not modelled. The value is the exact real quotient.
- Every magnitude, depth and coordinate is an exact real. IEEE-754 rounding, NaN and a missing (`null`) magnitude are not modelled. So `mag || 0` is the identity.
- The rest of the dashboard is not part of this model. That covers `toFixed` display, `toLocaleString` times (the globe point's `time`, the banner's formatted time), the pie-label trigonometry and the marker radius.
- The filter panel, the page shell, the modal, the view toggle, the Leaflet heat-layer wrapper and the build configuration are not part of this model. They are UI state, foreign-library glue and configuration.
