/** What every insertion keeps, and how the queries relate. */
module MetricProofs {
  import opened Entities
  import opened KeyOrder
  import opened MetricModel

  lemma {:induction false} UnexpiredIsSuffix(s: seq<Sample>, now: int, maxAge: int)
    requires Sorted(s)
    ensures exists n :: 0 <= n <= |s| && Unexpired(s, now, maxAge) == s[n..]
  {
    if s == [] {
      assert s[0..] == [];
    } else {
      FrontIsEnough(s, now, maxAge);
      if Expired(s[0], now, maxAge) {
        UnexpiredIsSuffix(s[1..], now, maxAge);
        var n :| 0 <= n <= |s[1..]| && Unexpired(s[1..], now, maxAge) == s[1..][n..];
        assert s[1..][n..] == s[n + 1..];
      } else {
        assert s[0..] == s;
      }
    }
  }

  lemma SuffixOk(k: MetricKey, s: Series, c: Config, n: nat)
    requires SeriesOk(k, s, c) && n < |s.samples|
    ensures SeriesOk(k, s.(samples := s.samples[n..]), c)
  {
  }

  lemma PrunedOk(m: SeriesMap, now: int, c: Config)
    requires AllSeriesOk(m, c)
    ensures AllSeriesOk(Pruned(m, now, c.maxAge), c)
  {
    var p := Pruned(m, now, c.maxAge);
    forall k | k in p
      ensures SeriesOk(k, p[k], c)
    {
      UnexpiredIsSuffix(m[k].samples, now, c.maxAge);
      var n :| 0 <= n <= |m[k].samples| && Unexpired(m[k].samples, now, c.maxAge) == m[k].samples[n..];
      SuffixOk(k, m[k], c, n);
    }
  }

  lemma ExtendedOk(m: SeriesMap, x: Sample, c: Config)
    requires ConfigOk(c) && AllSeriesOk(m, c) && !Late(m, x)
    ensures SeriesOk(x.key, Extended(m, x, c), c)
  {
    if x.key in m { assert SeriesOk(x.key, m[x.key], c); }
  }

  lemma WithoutFrontOk(m: SeriesMap, k: MetricKey, c: Config)
    requires AllSeriesOk(m, c) && k in m
    ensures AllSeriesOk(WithoutFront(m, k), c) && Total(WithoutFront(m, k)) == Total(m) - 1
    ensures |WithoutFront(m, k)| <= |m|
  {
    TotalWithout(m, k);
    if |m[k].samples| > 1 {
      SuffixOk(k, m[k], c, 1);
      TotalSet(m, k, m[k].(samples := m[k].samples[1..]));
      assert m[k := m[k].(samples := m[k].samples[1..])].Keys == m.Keys;
    }
    hide SeriesOk, Total;
  }

  lemma RoomyOk(m: SeriesMap, x: Sample, c: Config, less: MetricOrder, series: Option<MetricKey>)
    requires AllSeriesOk(m, c) && |m| <= c.maxSeries && c.maxSeries > 0
    requires RightSeries(m, x, c, less, series)
    ensures var roomy := Roomy(m, series);
            && AllSeriesOk(roomy, c) && (x.key !in roomy ==> |roomy| < c.maxSeries) && |roomy| <= c.maxSeries
            && Total(roomy) <= Total(m) && (Late(m, x) <==> Late(roomy, x))
  {
    hide SeriesOk, Total;
    if series.Some? { TotalWithout(m, series.value); }
  }

  lemma GrownSize(m: SeriesMap, k: MetricKey, s: Series, cap: nat)
    requires |m| <= cap && (k !in m ==> |m| < cap)
    ensures |m[k := s]| <= cap
  {
    if k in m { assert m[k := s].Keys == m.Keys; }
  }

  lemma GrownOk(m: SeriesMap, x: Sample, c: Config, less: MetricOrder, series: Option<MetricKey>)
    requires ConfigOk(c) && AllSeriesOk(m, c) && |m| <= c.maxSeries && !Late(m, x)
    requires RightSeries(m, x, c, less, series)
    ensures var grown := Accepted(m, x, c, series, None);
            AllSeriesOk(grown, c) && |grown| <= c.maxSeries && Total(grown) <= Total(m) + 1
  {
    RoomyOk(m, x, c, less, series);
    var roomy := Roomy(m, series);
    ExtendedOk(roomy, x, c);
    assert |Extended(roomy, x, c).samples| <= (if x.key in roomy then |roomy[x.key].samples| else 0) + 1;
    hide SeriesOk, Total, Extended, Late;
    TotalSet(roomy, x.key, Extended(roomy, x, c));
    GrownSize(roomy, x.key, Extended(roomy, x, c), c.maxSeries);
  }

  /** An accepted sample costs at most one front, and then all three bounds hold again. */
  lemma AcceptedOk(m: SeriesMap, x: Sample, c: Config, less: MetricOrder, series: Option<MetricKey>, front: Option<MetricKey>)
    requires ConfigOk(c) && AllSeriesOk(m, c) && |m| <= c.maxSeries && Total(m) <= c.maxTotal && !Late(m, x)
    requires RightChoices(m, x, c, less, series, front)
    ensures var u := Accepted(m, x, c, series, front);
            AllSeriesOk(u, c) && |u| <= c.maxSeries && Total(u) <= c.maxTotal
  {
    hide SeriesOk, Total, Extended, Late;
    GrownOk(m, x, c, less, series);
    if front.Some? { WithoutFrontOk(Accepted(m, x, c, series, None), front.value, c); }
  }

  /** Both choices are settled by age and the order of the keys, so an insertion has one outcome only. */
  lemma OneOutcome(m: SeriesMap, x: Sample, c: Config, less: MetricOrder, a: Option<MetricKey>, f: Option<MetricKey>,
                   b: Option<MetricKey>, g: Option<MetricKey>)
    requires TotalOrder(less) && RightChoices(m, x, c, less, a, f) && RightChoices(m, x, c, less, b, g)
    ensures a == b && f == g
  {
    hide Total, Extended;
  }

  /** An accepted sample is gone again at once exactly when it is the first of its series and older than a full store. */
  lemma AcceptedIsHeldIff(m: SeriesMap, x: Sample, c: Config, less: MetricOrder, series: Option<MetricKey>, front: Option<MetricKey>)
    requires ConfigOk(c) && AllSeriesOk(m, c) && |m| <= c.maxSeries && Total(m) <= c.maxTotal && !Late(m, x)
    requires TotalOrder(less) && RightChoices(m, x, c, less, series, front)
    ensures var u := Accepted(m, x, c, series, front);
            && (Holds(u, x) <==> !Outdated(Roomy(m, series), x, c, less))
            && (Outdated(Roomy(m, series), x, c, less) ==> x.key !in u)
  {
    hide Total, SeriesOk, Extended, TotalOrder, Roomy, Late, Outdated;
    var roomy := Roomy(m, series);
    var s := Extended(roomy, x, c);
    var grown := roomy[x.key := s];
    RoomyOk(m, x, c, less, series);
    GrownIs(roomy, x, c);
    if x.key in roomy || Total(roomy) < c.maxTotal {
      KeptWhenRoomy(roomy, x, c, less);
      assert Accepted(m, x, c, series, None) == grown;
      if front.Some? { StillHolds(grown, x, front.value); }
    } else {
      OutdatedIff(roomy, x, c, less);
      if Outdated(roomy, x, c, less) { OneOldestFront(grown, less, front.value, x.key); }
    }
  }

  lemma GrownIs(m: SeriesMap, x: Sample, c: Config)
    requires ConfigOk(c) && AllSeriesOk(m, c)
    ensures var s := Extended(m, x, c);
            && s.samples != [] && s.samples[|s.samples| - 1] == x && (x.key !in m ==> s.samples == [x])
            && Total(m[x.key := s]) == Total(m) + (if x.key in m && |m[x.key].samples| == c.maxPerSeries then 0 else 1)
            && (x.key in m && |m[x.key].samples| != c.maxPerSeries ==> |s.samples| >= 2)
  {
    if x.key in m { assert SeriesOk(x.key, m[x.key], c); }
    TotalSet(m, x.key, Extended(m, x, c));
    hide Total, SeriesOk;
  }

  lemma StillHolds(m: SeriesMap, x: Sample, k: MetricKey)
    requires Holds(m, x) && k in m && m[k].samples != [] && (k == x.key ==> |m[k].samples| >= 2)
    ensures Holds(WithoutFront(m, k), x)
  {
  }

  lemma KeptWhenRoomy(m: SeriesMap, x: Sample, c: Config, less: MetricOrder)
    requires x.key in m || Total(m) < c.maxTotal
    ensures !Outdated(m, x, c, less)
  {
    hide Total;
  }

  lemma OutdatedIff(m: SeriesMap, x: Sample, c: Config, less: MetricOrder)
    requires x.key !in m && Total(m) == c.maxTotal && Extended(m, x, c).samples == [x]
    ensures Outdated(m, x, c, less) <==> OldestFront(m[x.key := Extended(m, x, c)], x.key, less)
  {
    hide Total, Extended;
    var grown := m[x.key := Extended(m, x, c)];
    if OldestFront(grown, x.key, less) {
      forall j | j in m && m[j].samples != []
        ensures Before(x.at, x.key, m[j].samples[0].at, j, less)
      {
        assert grown[j] == m[j];
      }
    }
  }

  lemma OneOldestFront(m: SeriesMap, less: MetricOrder, j: MetricKey, k: MetricKey)
    requires TotalOrder(less) && OldestFront(m, j, less) && OldestFront(m, k, less)
    ensures j == k
  {
  }

  lemma FirstSample(y: Sample, c: Config)
    requires ConfigOk(c)
    ensures var m := map[y.key := Series([y], y.at)]; Accepted(map[], y, c, None, None) == m && Total(m) == 1 && Total(map[]) == 0
  {
    var none: SeriesMap := map[];
    TotalSet(none, y.key, Series([y], y.at));
    assert Extended(none, y, c) == Series([y], y.at);
  }

  /** In a store for one sample, a sample that is older than the one it holds is accepted and gone. */
  lemma AcceptedAndGone(y: Sample, x: Sample, c: Config, less: MetricOrder)
    requires ConfigOk(c) && c.maxTotal == 1 && c.maxSeries >= 2 && x.key != y.key && x.at < y.at
    ensures var m := Accepted(map[], y, c, None, None);
            && RightChoices(map[], y, c, less, None, None) && Pruned(m, x.at, c.maxAge) == m && !Late(m, x)
            && RightChoices(m, x, c, less, None, Some(x.key)) && x.key !in Accepted(m, x, c, None, Some(x.key))
  {
    var none: SeriesMap := map[];
    var (a, b) := (Series([y], y.at), Series([x], x.at));
    var m := map[y.key := a];
    FirstSample(y, c);
    AllUnexpired([y], x.at, c.maxAge);
    assert m.Keys == {y.key} && |m| == |m.Keys| == 1;
    TotalSet(m, x.key, b);
    assert Extended(m, x, c) == b;
    hide Total, Unexpired, Extended;
  }

  /** The front that is given up is as old as any sample in the store. */
  lemma OldestFrontIsOldest(m: SeriesMap, c: Config, less: MetricOrder, k: MetricKey, j: MetricKey, i: nat)
    requires AllSeriesOk(m, c) && OldestFront(m, k, less) && j in m && i < |m[j].samples|
    ensures m[k].samples[0].at <= m[j].samples[i].at
  {
    assert SeriesOk(j, m[j], c);
  }

  /** The series that is given up holds no sample newer than the newest of any other series. */
  lemma OldestSeriesIsOldest(m: SeriesMap, c: Config, less: MetricOrder, k: MetricKey, i: nat, j: MetricKey)
    requires AllSeriesOk(m, c) && OldestSeries(m, k, less) && i < |m[k].samples| && j in m
    ensures m[k].samples[i].at <= m[j].samples[|m[j].samples| - 1].at
  {
    assert SeriesOk(k, m[k], c) && SeriesOk(j, m[j], c);
  }

  // ---------- Queries ----------

  /** The latest sample is the last one of a window that covers the series and is not cut short. */
  lemma LatestEndsTheWindow(k: MetricKey, s: Series, begin: int, end: int, now: int, c: Config)
    requires SeriesOk(k, s, c) && begin <= s.samples[0].at && s.samples[|s.samples| - 1].at <= end
    ensures var w := FullWindow(s.samples, begin, end, now, c);
            LatestOf(s.samples, now, c) == if w == [] then None else Some(w[|w| - 1])
  {
    var last := s.samples[|s.samples| - 1];
    if Expired(last, now, c.maxAge) {
      NoneSelected(s.samples, begin, end, now, c);
    }
  }

  lemma {:induction false} NoneSelected(s: seq<Sample>, begin: int, end: int, now: int, c: Config)
    requires forall i :: 0 <= i < |s| ==> Expired(s[i], now, c.maxAge)
    ensures FullWindow(s, begin, end, now, c) == []
  {
    if s != [] { NoneSelected(s[..|s| - 1], begin, end, now, c); }
  }

  /** Without a time limit the window shows exactly the samples pruning would keep. */
  lemma {:induction false} WindowIsWhatPruningKeeps(s: seq<Sample>, begin: int, end: int, now: int, c: Config)
    requires forall i :: 0 <= i < |s| ==> begin <= s[i].at <= end
    ensures |FullWindow(s, begin, end, now, c)| == |Unexpired(s, now, c.maxAge)|
    ensures forall i :: 0 <= i < |Unexpired(s, now, c.maxAge)| ==>
              FullWindow(s, begin, end, now, c)[i] == WithStaleness(Unexpired(s, now, c.maxAge)[i], now, c.staleAfter)
  {
    if s != [] {
      var (init, last) := (s[..|s| - 1], s[|s| - 1]);
      WindowIsWhatPruningKeeps(init, begin, end, now, c);
      UnexpiredSnoc(init, last, now, c.maxAge);
      assert init + [last] == s;
    }
  }

  lemma {:induction false} UnexpiredSnoc(s: seq<Sample>, x: Sample, now: int, maxAge: int)
    ensures Unexpired(s + [x], now, maxAge) == Unexpired(s, now, maxAge) + (if Expired(x, now, maxAge) then [] else [x])
  {
    if s == [] {
      assert (s + [x])[1..] == [];
    } else {
      UnexpiredSnoc(s[1..], x, now, maxAge);
      assert (s + [x])[1..] == s[1..] + [x];
    }
  }
}
