/** The metric cache as a value: series of samples under three bounds. */
module MetricModel {
  import opened Entities

  /** Metric and unit are the source's enumerations, by number. */
  datatype MetricKey = MetricKey(
    netns: NetnsId, metric: nat, unit: nat, source: EventSource, ifindex: Option<nat>, socket: Option<SocketId>, interval: nat)

  datatype Sample = Sample(id: nat, key: MetricKey, value: Option<int>, validity: Validity, observedAt: int, at: int)

  datatype Series = Series(samples: seq<Sample>, lastUpdated: int)

  type SeriesMap = map<MetricKey, Series>

  datatype Config = Config(
    maxSeries: nat, maxPerSeries: nat, maxTotal: nat, maxAge: int, maxResults: nat, staleAfter: int)

  predicate ConfigOk(c: Config) {
    c.maxSeries > 0 && c.maxPerSeries > 0 && c.maxTotal > 0 && c.maxResults > 0 && c.maxAge >= 0 && c.staleAfter >= 0
  }

  datatype Counters = Counters(seriesEvictions: nat, sampleEvictions: nat, rejected: nat, stale: nat)

  datatype Store = Store(config: Config, series: SeriesMap, sampleCount: nat, counters: Counters)

  // ---------- Counting ----------

  ghost function Total(m: SeriesMap): nat
    decreases |m|
  {
    if m == map[] then 0
    else
      var k :| k in m;
      |m[k].samples| + Total(m - {k})
  }

  /** Whichever key is taken out, its samples are what is missing. */
  lemma {:induction false} TotalWithout(m: SeriesMap, k: MetricKey)
    requires k in m
    ensures Total(m) == |m[k].samples| + Total(m - {k})
    decreases |m|
  {
    var j :| j in m && Total(m) == |m[j].samples| + Total(m - {j});
    if j != k {
      TotalWithout(m - {j}, k);
      TotalWithout(m - {k}, j);
      assert m - {j} - {k} == m - {k} - {j};
    }
  }

  lemma TotalSet(m: SeriesMap, k: MetricKey, s: Series)
    ensures Total(m[k := s]) == Total(m - {k}) + |s.samples|
    ensures k in m ==> Total(m[k := s]) == Total(m) - |m[k].samples| + |s.samples|
    ensures k !in m ==> Total(m[k := s]) == Total(m) + |s.samples|
  {
    TotalWithout(m[k := s], k);
    assert m[k := s] - {k} == m - {k};
    if k in m { TotalWithout(m, k); } else { assert m - {k} == m; }
  }

  // ---------- Age ----------

  predicate Expired(s: Sample, now: int, maxAge: int) {
    now - s.at > maxAge
  }

  /** Every sample that is not too old, wherever it stands. */
  function Unexpired(s: seq<Sample>, now: int, maxAge: int): seq<Sample> {
    if s == [] then [] else (if Expired(s[0], now, maxAge) then [] else [s[0]]) + Unexpired(s[1..], now, maxAge)
  }

  predicate Sorted(s: seq<Sample>) {
    forall i, j :: 0 <= i < j < |s| ==> s[i].at <= s[j].at
  }

  lemma {:induction false} AllUnexpired(s: seq<Sample>, now: int, maxAge: int)
    requires forall i :: 0 <= i < |s| ==> !Expired(s[i], now, maxAge)
    ensures Unexpired(s, now, maxAge) == s
  {
    if s != [] {
      AllUnexpired(s[1..], now, maxAge);
      assert s == [s[0]] + s[1..];
    }
  }

  /** In a sorted series the first fresh sample is followed by fresh ones only. */
  lemma FrontIsEnough(s: seq<Sample>, now: int, maxAge: int)
    requires Sorted(s)
    ensures s != [] && Expired(s[0], now, maxAge) ==> Unexpired(s, now, maxAge) == Unexpired(s[1..], now, maxAge)
    ensures s != [] && !Expired(s[0], now, maxAge) ==> Unexpired(s, now, maxAge) == s
  {
    if s != [] && !Expired(s[0], now, maxAge) { AllUnexpired(s, now, maxAge); }
  }

  function Pruned(m: SeriesMap, now: int, maxAge: int): SeriesMap {
    map k | k in m && Unexpired(m[k].samples, now, maxAge) != [] ::
      Series(Unexpired(m[k].samples, now, maxAge), m[k].lastUpdated)
  }

  // ---------- The invariant ----------

  predicate SeriesOk(k: MetricKey, s: Series, c: Config) {
    && 0 < |s.samples| <= c.maxPerSeries && Sorted(s.samples)
    && s.lastUpdated == s.samples[|s.samples| - 1].at
    && forall i :: 0 <= i < |s.samples| ==> s.samples[i].key == k
  }

  predicate AllSeriesOk(m: SeriesMap, c: Config) {
    forall k :: k in m ==> SeriesOk(k, m[k], c)
  }

  ghost predicate StoreOk(s: Store) {
    && ConfigOk(s.config) && AllSeriesOk(s.series, s.config)
    && s.sampleCount == Total(s.series) <= s.config.maxTotal && |s.series| <= s.config.maxSeries
  }

  // ---------- Insertion ----------

  predicate Malformed(x: Sample) {
    || x.id == 0 || x.key.netns.inode == 0 || x.key.ifindex == Some(0)
    || (x.validity == Valid && x.value.None?) || (x.validity == Unavailable && x.value.Some?)
  }

  predicate Late(m: SeriesMap, x: Sample) {
    x.key in m && m[x.key].samples != [] && x.at < m[x.key].samples[|m[x.key].samples| - 1].at
  }

  /** The order in which the series are held; it decides between series of the same age. */
  type MetricOrder = (MetricKey, MetricKey) -> bool

  predicate Before(a: int, j: MetricKey, b: int, k: MetricKey, less: MetricOrder) {
    a < b || (a == b && less(j, k))
  }

  predicate OldestSeries(m: SeriesMap, k: MetricKey, less: MetricOrder) {
    k in m && forall j :: j in m && j != k ==> Before(m[k].lastUpdated, k, m[j].lastUpdated, j, less)
  }

  predicate OldestFront(m: SeriesMap, k: MetricKey, less: MetricOrder) {
    && k in m && m[k].samples != []
    && forall j :: j in m && m[j].samples != [] && j != k ==> Before(m[k].samples[0].at, k, m[j].samples[0].at, j, less)
  }

  /** The series of the sample's key with the sample at its end, within the per-series bound. */
  function Extended(m: SeriesMap, x: Sample, c: Config): Series {
    var before := if x.key in m then m[x.key].samples else [];
    var grown := before + [x];
    Series(if |grown| > c.maxPerSeries then grown[1..] else grown, x.at)
  }

  function WithoutFront(m: SeriesMap, k: MetricKey): SeriesMap
    requires k in m && m[k].samples != []
  {
    if |m[k].samples| == 1 then m - {k} else m[k := m[k].(samples := m[k].samples[1..])]
  }

  function Roomy(m: SeriesMap, series: Option<MetricKey>): SeriesMap {
    if series.Some? then m - {series.value} else m
  }

  /** The series map after an accepted sample; the choices say which series and which front had to go, if any. */
  function Accepted(m: SeriesMap, x: Sample, c: Config, series: Option<MetricKey>, front: Option<MetricKey>): SeriesMap {
    var roomy := Roomy(m, series);
    var grown := roomy[x.key := Extended(roomy, x, c)];
    if front.Some? && front.value in grown && grown[front.value].samples != [] then WithoutFront(grown, front.value) else grown
  }

  ghost predicate RightSeries(m: SeriesMap, x: Sample, c: Config, less: MetricOrder, series: Option<MetricKey>) {
    if x.key in m || |m| < c.maxSeries then series.None? else series.Some? && OldestSeries(m, series.value, less)
  }

  ghost predicate RightChoices(m: SeriesMap, x: Sample, c: Config, less: MetricOrder, series: Option<MetricKey>,
                               front: Option<MetricKey>)
  {
    && RightSeries(m, x, c, less, series)
    && var grown := Accepted(m, x, c, series, None);
       if Total(grown) <= c.maxTotal then front.None? else front.Some? && OldestFront(grown, front.value, less)
  }

  /** The sample is the latest of its series. */
  predicate Holds(m: SeriesMap, x: Sample) {
    x.key in m && m[x.key].samples != [] && m[x.key].samples[|m[x.key].samples| - 1] == x
  }

  /** The first sample of a series, older than anything in a store that is already full. */
  ghost predicate Outdated(m: SeriesMap, x: Sample, c: Config, less: MetricOrder) {
    && x.key !in m && Total(m) == c.maxTotal
    && forall j :: j in m && m[j].samples != [] ==> Before(x.at, x.key, m[j].samples[0].at, j, less)
  }

  // ---------- Queries ----------

  function WithStaleness(x: Sample, now: int, staleAfter: int): Sample {
    if UsableValidity(x.validity) && now - x.at > staleAfter then x.(validity := Stale) else x
  }

  predicate Selected(x: Sample, begin: int, end: int, now: int, maxAge: int) {
    begin <= x.at <= end && !Expired(x, now, maxAge)
  }

  /** All samples in the window, without any limit on their number. */
  function FullWindow(s: seq<Sample>, begin: int, end: int, now: int, c: Config): seq<Sample> {
    if s == [] then []
    else
      FullWindow(s[..|s| - 1], begin, end, now, c) +
      (if Selected(s[|s| - 1], begin, end, now, c.maxAge) then [WithStaleness(s[|s| - 1], now, c.staleAfter)] else [])
  }

  function LatestOf(s: seq<Sample>, now: int, c: Config): Option<Sample> {
    if s == [] || Expired(s[|s| - 1], now, c.maxAge) then None else Some(WithStaleness(s[|s| - 1], now, c.staleAfter))
  }

  function FirstN<T>(s: seq<T>, n: nat): seq<T> {
    if |s| <= n then s else s[..n]
  }
}
