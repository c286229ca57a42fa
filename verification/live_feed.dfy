/** The live banner (src/components/LiveEarthquakeFeed.tsx): on every fetch
    it picks the most recent quake and shows it; a fetch that returns
    nothing leaves the banner as it was. */
module LiveFeed {
  import opened Quakes

  /** The reducer `(latest, current) => current.time > latest.time ? current : latest`. */
  function Later(latest: Quake, current: Quake): (r: Quake)
    ensures r == latest || r == current
    ensures latest.time <= r.time && current.time <= r.time
    ensures current.time <= latest.time ==> r == latest
  {
    if current.time > latest.time then current else latest
  }

  /** The left fold of `Later` over `rest`, starting from `latest`: the
      result is `latest` itself or the first element of `rest` that carries
      the greatest time, provided that time is strictly later than `latest`'s. */
  function FoldLatest(latest: Quake, rest: seq<Quake>): (r: Quake)
    ensures latest.time <= r.time
    ensures forall j :: 0 <= j < |rest| ==> rest[j].time <= r.time
    ensures r == latest ||
      exists k :: 0 <= k < |rest| && rest[k] == r && latest.time < r.time &&
        forall j :: 0 <= j < k ==> rest[j].time < r.time
    decreases |rest|
  {
    if rest == [] then latest
    else
      var next := Later(latest, rest[0]);
      var r := FoldLatest(next, rest[1..]);
      if r == latest || r == rest[0] then r
      else
        var k :| 0 <= k < |rest[1..]| && rest[1..][k] == r && next.time < r.time &&
          forall j :: 0 <= j < k ==> rest[1..][j].time < r.time;
        assert rest[k + 1] == r;
        assert forall j :: 0 <= j < k + 1 ==> rest[j].time < r.time;
        r
  }

  /** `data.reduce(...)` on a non-empty list (with no initial value the fold
      starts from the first element): an element of the list whose time is
      at least every other time, and on a tie the earliest such element,
      because the comparison is strict. */
  function LatestQuake(data: seq<Quake>): (r: Quake)
    requires |data| > 0
    ensures forall j :: 0 <= j < |data| ==> data[j].time <= r.time
    ensures exists k ::
      0 <= k < |data| && data[k] == r && (forall j :: 0 <= j < k ==> data[j].time < r.time)
  {
    var r := FoldLatest(data[0], data[1..]);
    if r == data[0] then r
    else
      var k :| 0 <= k < |data[1..]| && data[1..][k] == r && data[0].time < r.time &&
        forall j :: 0 <= j < k ==> data[1..][j].time < r.time;
      assert data[k + 1] == r;
      assert forall j :: 0 <= j < k + 1 ==> data[j].time < r.time;
      r
  }

  /** The banner's state: the quake on show, none at first. */
  class Banner {
    var latestQuake: Option<Quake>

    constructor ()
      ensures latestQuake == None
    {
      latestQuake := None;
    }

    /** `loadLatest` once the fetch has returned `data`: the state is set
        only when `data` is non-empty. */
    method LoadLatest(data: seq<Quake>)
      modifies this
      ensures |data| == 0 ==> latestQuake == old(latestQuake)
      ensures |data| > 0 ==> latestQuake == Some(LatestQuake(data))
      ensures old(latestQuake).Some? ==> latestQuake.Some?
    {
      if |data| > 0 {
        var recent := LatestQuake(data);
        latestQuake := Some(recent);
      }
    }
  }
}
