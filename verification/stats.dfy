/** The statistics panel (src/components/EarthquakeStats.tsx): summary
    figures over the list of quakes, the intensity gauge, the severity class
    of each table row and the ten-row pagination with its Prev/Next state. */
module Stats {
  import opened Quakes
  import opened Severity

  const ItemsPerPage: nat := 10

  function Min(a: int, b: int): int { if a <= b then a else b }
  function Max(a: int, b: int): int { if a >= b then a else b }

  // ---------------------------------------------------------------------
  // Summary figures
  // ---------------------------------------------------------------------

  /** `Math.max(...ms)` over a non-empty list. */
  function MaxOf(ms: seq<real>): (m: real)
    requires |ms| > 0
    ensures forall i :: 0 <= i < |ms| ==> ms[i] <= m
    ensures exists i :: 0 <= i < |ms| && ms[i] == m
  {
    if |ms| == 1 then ms[0]
    else
      var rest := MaxOf(ms[1..]);
      if ms[0] >= rest then ms[0] else rest
  }

  /** The strongest magnitude, 0 for an empty list: at least every
      magnitude in the list and equal to one of them. */
  function MaxMagnitude(qs: seq<Quake>): (m: real)
    ensures qs == [] ==> m == 0.0
    ensures forall i :: 0 <= i < |qs| ==> qs[i].mag <= m
    ensures qs != [] ==> exists i :: 0 <= i < |qs| && qs[i].mag == m
  {
    var magnitudes := Magnitudes(qs);
    if |magnitudes| > 0 then MaxOf(magnitudes) else 0.0
  }

  /** `ms.reduce((a, b) => a + b, 0)`. */
  function SumOf(ms: seq<real>): (total: real)
    ensures ms == [] ==> total == 0.0
    ensures |ms| == 1 ==> total == ms[0]
  {
    if ms == [] then 0.0 else SumOf(ms[..|ms| - 1]) + ms[|ms| - 1]
  }

  /** The sum of two lists laid end to end is the sum of their sums. */
  lemma {:induction false} SumOfAppend(a: seq<real>, b: seq<real>)
    ensures SumOf(a + b) == SumOf(a) + SumOf(b)
    decreases |b|
  {
    if b != [] {
      var init := b[..|b| - 1];
      assert a + b == (a + init) + [b[|b| - 1]];
      assert (a + b)[..|a + b| - 1] == a + init;
      SumOfAppend(a, init);
    } else {
      assert a + b == a;
    }
  }

  /** The mean magnitude (before it is formatted to two decimals); 0 for an
      empty list. */
  function MeanMagnitude(qs: seq<Quake>): (avg: real)
    ensures qs == [] ==> avg == 0.0
    ensures qs != [] ==> avg == SumOf(Magnitudes(qs)) / (|qs| as real)
  {
    var magnitudes := Magnitudes(qs);
    if |magnitudes| > 0 then SumOf(magnitudes) / (|qs| as real) else 0.0
  }

  lemma {:induction false} SumAtMost(ms: seq<real>, bound: real)
    requires forall i :: 0 <= i < |ms| ==> ms[i] <= bound
    ensures SumOf(ms) <= (|ms| as real) * bound
    decreases |ms|
  {
    if ms != [] {
      var init := ms[..|ms| - 1];
      SumAtMost(init, bound);
      assert (|init| as real + 1.0) * bound == (|init| as real) * bound + bound;
    }
  }

  /** The average card never shows more than the strongest-magnitude card. */
  lemma {:induction false} MeanAtMostMax(qs: seq<Quake>)
    ensures MeanMagnitude(qs) <= MaxMagnitude(qs)
  {
    if qs != [] {
      var ms, m := Magnitudes(qs), MaxMagnitude(qs);
      SumAtMost(ms, m);
      QuotientAtMost(SumOf(ms), |qs| as real, m);
    }
  }

  lemma QuotientAtMost(x: real, n: real, m: real)
    requires n > 0.0 && x <= n * m
    ensures x / n <= m
  {
    assert m - x / n == (n * m - x) / n;
  }

  /** The width of the intensity gauge, `min(maxMag / 10 * 100, 100)`, in
      percent: clamped above at 100, with no clamp below. */
  function Intensity(maxMag: real): (r: real)
    ensures r <= 100.0
    ensures maxMag <= 10.0 ==> r == 10.0 * maxMag
    ensures maxMag >= 10.0 ==> r == 100.0
    ensures maxMag < 0.0 ==> r < 0.0
  {
    var scaled := (maxMag / 10.0) * 100.0;
    if scaled <= 100.0 then scaled else 100.0
  }

  /** For a list of quakes of non-negative magnitude the gauge stays within
      0..100, and it is full exactly when some quake reaches magnitude 10. */
  lemma {:induction false} IntensityOfList(qs: seq<Quake>)
    requires forall i :: 0 <= i < |qs| ==> qs[i].mag >= 0.0
    ensures 0.0 <= Intensity(MaxMagnitude(qs)) <= 100.0
    ensures Intensity(MaxMagnitude(qs)) == 100.0 <==> exists i :: 0 <= i < |qs| && qs[i].mag >= 10.0
  {
  }

  // ---------------------------------------------------------------------
  // Severity class of a table row
  // ---------------------------------------------------------------------

  /** The text colour of each severity class in the table. */
  function TextClass(s: Severity): string {
    match s
    case Red => "text-red-400"
    case Orange => "text-orange-400"
    case Yellow => "text-yellow-400"
    case Green => "text-green-400"
  }

  /** The class of the magnitude cell of a table row. */
  function MagCellClass(mag: real): (c: string)
    ensures c == TextClass(SeverityOf(mag))
  {
    if mag >= 6.0 then "text-red-400"
    else if mag >= 4.0 then "text-orange-400"
    else if mag >= 2.0 then "text-yellow-400"
    else "text-green-400"
  }

  // ---------------------------------------------------------------------
  // Pagination
  // ---------------------------------------------------------------------

  /** `Math.ceil(x)`. */
  function Ceil(x: real): (n: int)
    ensures x <= n as real < x + 1.0
  {
    -((-x).Floor)
  }

  /** `Math.ceil(total / itemsPerPage)`: the fewest pages of ten that hold
      every quake; 0 for an empty list. */
  function TotalPages(total: nat): (pages: nat)
    ensures pages * ItemsPerPage >= total
    ensures pages > 0 ==> (pages - 1) * ItemsPerPage < total
    ensures total == 0 <==> pages == 0
  {
    var n := Ceil(total as real / ItemsPerPage as real);
    assert n as real >= 0.0;
    assert (n * ItemsPerPage) as real == (n as real) * 10.0;
    assert ((n - 1) * ItemsPerPage) as real == (n as real) * 10.0 - 10.0;
    n
  }

  /** `Array.prototype.slice(start, end)`: a negative bound counts back
      from the end, bounds are clamped to the list, and a range that is
      empty after clamping gives the empty list. */
  function JsSlice<T>(s: seq<T>, start: int, end: int): (r: seq<T>)
    ensures |r| <= |s|
    ensures 0 <= start <= end <= |s| ==> r == s[start..end]
    ensures 0 <= start <= |s| && start <= end ==> r == s[start..Min(end, |s|)]
    ensures 0 <= end <= start ==> r == []
    ensures start < 0 && 0 <= end ==>
      r == if Max(|s| + start, 0) < Min(end, |s|) then s[Max(|s| + start, 0)..Min(end, |s|)] else []
    ensures start >= |s| ==> r == []
    ensures start <= end ==> |r| <= end - start
  {
    var len := |s|;
    var from := if start < 0 then Max(len + start, 0) else Min(start, len);
    var to := if end < 0 then Max(len + end, 0) else Min(end, len);
    if from < to then s[from..to] else []
  }

  /** The rows of page `page`: `earthquakes.slice((page - 1) * 10, page * 10)`. */
  function PageItems(qs: seq<Quake>, page: int): (items: seq<Quake>)
    ensures |items| <= ItemsPerPage
    ensures page >= 1 ==> items == qs[Min((page - 1) * ItemsPerPage, |qs|)..Min(page * ItemsPerPage, |qs|)]
  {
    JsSlice(qs, (page - 1) * ItemsPerPage, page * ItemsPerPage)
  }

  /** The concatenation of a list of pages. */
  function Flatten(pages: seq<seq<Quake>>): seq<Quake> {
    if pages == [] then [] else Flatten(pages[..|pages| - 1]) + pages[|pages| - 1]
  }

  /** Pages 1..TotalPages in order. */
  function Pages(qs: seq<Quake>): seq<seq<Quake>> {
    seq(TotalPages(|qs|), i requires 0 <= i => PageItems(qs, i + 1))
  }

  lemma {:induction false} FlattenFirstPages(qs: seq<Quake>, k: nat)
    requires k <= TotalPages(|qs|)
    ensures Flatten(Pages(qs)[..k]) == qs[..Min(k * ItemsPerPage, |qs|)]
    decreases k
  {
    if k == 0 {
    } else {
      var pages := Pages(qs);
      assert pages[..k][..k - 1] == pages[..k - 1];
      FlattenFirstPages(qs, k - 1);
      assert pages[k - 1] == PageItems(qs, k);
      var a, b := Min((k - 1) * ItemsPerPage, |qs|), Min(k * ItemsPerPage, |qs|);
      assert qs[..a] + qs[a..b] == qs[..b];
    }
  }

  /** The pages, taken in order, give back the whole list: every quake is
      shown on exactly one page, at its own position. */
  lemma {:induction false} PagesPartition(qs: seq<Quake>)
    ensures Flatten(Pages(qs)) == qs
  {
    var pages := Pages(qs);
    FlattenFirstPages(qs, |pages|);
    assert pages[..|pages|] == pages;
    assert qs[..|qs|] == qs;
  }

  /** The quake at position `i` is row `i % 10` of page `i / 10 + 1`, and
      that page exists. */
  lemma {:induction false} PageOfIndex(qs: seq<Quake>, i: nat)
    requires i < |qs|
    ensures 1 <= i / ItemsPerPage + 1 <= TotalPages(|qs|)
    ensures i % ItemsPerPage < |PageItems(qs, i / ItemsPerPage + 1)|
    ensures PageItems(qs, i / ItemsPerPage + 1)[i % ItemsPerPage] == qs[i]
  {
    var p := i / ItemsPerPage + 1;
    var n := TotalPages(|qs|);
    assert (p - 1) * ItemsPerPage <= i < p * ItemsPerPage;
  }

  /** A page past the last one shows no rows. */
  lemma {:induction false} PagePastEndIsEmpty(qs: seq<Quake>, page: int)
    requires page > TotalPages(|qs|)
    ensures PageItems(qs, page) == []
  {
    assert (page - 1) * ItemsPerPage >= TotalPages(|qs|) * ItemsPerPage;
  }

  /** The Prev updater `(p) => Math.max(p - 1, 1)`. */
  function PrevPage(p: int): (r: int)
    ensures r >= 1
    ensures p > 1 ==> r == p - 1
    ensures p <= 1 ==> r == 1
  {
    Max(p - 1, 1)
  }

  /** The Next updater `(p) => Math.min(p + 1, totalPages)`. */
  function NextPage(p: int, totalPages: nat): (r: int)
    ensures r <= totalPages
    ensures p < totalPages ==> r == p + 1
    ensures p >= totalPages ==> r == totalPages
  {
    Min(p + 1, totalPages)
  }

  /** Prev and Next keep a page that is in range in range. */
  lemma {:induction false} PagingKeepsRange(p: int, totalPages: nat)
    requires 1 <= p <= totalPages
    ensures 1 <= PrevPage(p) <= totalPages
    ensures 1 <= NextPage(p, totalPages) <= totalPages
  {
  }

  /** Each button is disabled exactly where its updater would leave the
      page as it is. */
  lemma {:induction false} DisabledButtonsAreNoOps(p: int, totalPages: nat)
    requires 1 <= p
    ensures PrevPage(p) == p <==> p == 1
    ensures p <= totalPages ==> (NextPage(p, totalPages) == p <==> p == totalPages)
  {
  }

  /** The statistics panel's page state. The list is a property handed in
      by the parent; `currentPage` is the component's own state, starting at 1. */
  class StatsPanel {
    var earthquakes: seq<Quake>
    var currentPage: int

    constructor (earthquakes: seq<Quake>)
      ensures this.earthquakes == earthquakes && currentPage == 1
    {
      this.earthquakes := earthquakes;
      currentPage := 1;
    }

    function PageCount(): nat
      reads this
    {
      TotalPages(|earthquakes|)
    }

    /** The rows on show. */
    function CurrentData(): (rows: seq<Quake>)
      reads this
      ensures |rows| <= ItemsPerPage
    {
      PageItems(earthquakes, currentPage)
    }

    predicate InRange()
      reads this
    {
      1 <= currentPage <= PageCount()
    }

    /** A new list from the parent: the page number is kept as it was. */
    method Receive(earthquakes: seq<Quake>)
      modifies this
      ensures this.earthquakes == earthquakes && currentPage == old(currentPage)
    {
      this.earthquakes := earthquakes;
    }

    /** The Prev button. */
    method Prev()
      modifies this
      ensures currentPage == Max(old(currentPage) - 1, 1) && earthquakes == old(earthquakes)
      ensures currentPage >= 1
      ensures old(InRange()) ==> InRange()
    {
      currentPage := PrevPage(currentPage);
    }

    /** The Next button. */
    method Next()
      modifies this
      ensures currentPage == Min(old(currentPage) + 1, PageCount()) && earthquakes == old(earthquakes)
      ensures currentPage <= PageCount()
      ensures old(InRange()) ==> InRange()
    {
      currentPage := NextPage(currentPage, PageCount());
    }
  }
}
