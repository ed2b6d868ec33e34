/** The metric store as the source writes it: deques and counters updated in place. */
module Metrics {
  import opened Entities
  import opened KeyOrder
  import opened MetricModel
  import opened MetricProofs

  class MetricStore {
    const config: Config
    const less: MetricOrder
    var series: SeriesMap
    var sampleCount: nat
    var counters: Counters
    /** How many samples were ever accepted. */
    ghost var accepted: nat

    function State(): Store
      reads this
    {
      Store(config, series, sampleCount, counters)
    }

    /** The bounds hold, the running count is right, and no accepted sample is unaccounted for. */
    ghost predicate Consistent()
      reads this
    {
      TotalOrder(less) && StoreOk(State()) && accepted == sampleCount + counters.sampleEvictions
    }

    constructor (config: Config, less: MetricOrder)
      requires ConfigOk(config) && TotalOrder(less)
      ensures series == map[] && sampleCount == 0 && counters == Counters(0, 0, 0, 0) && accepted == 0
      ensures Consistent()
    {
      this.config, this.less := config, less;
      series, sampleCount, counters, accepted := map[], 0, Counters(0, 0, 0, 0), 0;
    }

    ghost predicate Counted()
      reads this
    {
      sampleCount == Total(series)
    }

    /** Drops the front of one series. */
    method PopFront(k: MetricKey)
      requires Counted() && k in series && series[k].samples != []
      modifies this`series, this`sampleCount, this`counters
      ensures Counted() && series == old(series)[k := old(series)[k].(samples := old(series)[k].samples[1..])]
      ensures sampleCount == old(sampleCount) - 1
      ensures counters == old(counters).(sampleEvictions := old(counters).sampleEvictions + 1)
    {
      TotalWithout(series, k);
      TotalSet(series, k, series[k].(samples := series[k].samples[1..]));
      hide Total;
      series := series[k := series[k].(samples := series[k].samples[1..])];
      sampleCount := sampleCount - 1;
      counters := counters.(sampleEvictions := counters.sampleEvictions + 1);
    }

    method EraseEmpty(k: MetricKey)
      requires Counted() && k in series && series[k].samples == []
      modifies this`series
      ensures Counted() && series == old(series) - {k}
    {
      TotalWithout(series, k);
      hide Total;
      series := series - {k};
    }

    method PruneSeries(k: MetricKey, now: int)
      requires Counted() && k in series && Sorted(series[k].samples)
      modifies this`series, this`sampleCount, this`counters
      ensures Counted() && sampleCount + counters.sampleEvictions == old(sampleCount + counters.sampleEvictions)
      ensures sampleCount <= old(sampleCount)
      ensures counters == old(counters).(sampleEvictions := counters.sampleEvictions)
      ensures var kept := Unexpired(old(series)[k].samples, now, config.maxAge);
              series == if kept == [] then old(series) - {k}
                        else old(series)[k := Series(kept, old(series)[k].lastUpdated)]
    {
      hide Total, Unexpired;
      ghost var all := series[k].samples;
      while series[k].samples != [] && Expired(series[k].samples[0], now, config.maxAge)
        invariant k in series && series == old(series)[k := Series(series[k].samples, old(series)[k].lastUpdated)]
        invariant Counted() && sampleCount + counters.sampleEvictions == old(sampleCount + counters.sampleEvictions)
        invariant sampleCount <= old(sampleCount)
        invariant counters == old(counters).(sampleEvictions := counters.sampleEvictions)
        invariant Sorted(series[k].samples)
        invariant Unexpired(series[k].samples, now, config.maxAge) == Unexpired(all, now, config.maxAge)
        decreases |series[k].samples|
      {
        FrontIsEnough(series[k].samples, now, config.maxAge);
        PopFront(k);
      }
      FrontIsEnough(series[k].samples, now, config.maxAge);
      NothingUnexpired(now, config.maxAge);
      if series[k].samples == [] { EraseEmpty(k); }
    }

    /** Dropping expired fronts leaves exactly the unexpired samples. */
    method PruneExpired(now: int)
      requires Counted() && AllSeriesOk(series, config)
      modifies this`series, this`sampleCount, this`counters
      ensures series == Pruned(old(series), now, config.maxAge) && Counted() && sampleCount <= old(sampleCount)
      ensures sampleCount + counters.sampleEvictions == old(sampleCount + counters.sampleEvictions)
      ensures counters == old(counters).(sampleEvictions := counters.sampleEvictions)
    {
      hide Total, Unexpired, Sorted;
      var rest := series.Keys;
      while rest != {}
        invariant rest <= old(series).Keys
        invariant forall k :: k in old(series) && k in rest ==> k in series && series[k] == old(series)[k]
        invariant forall k :: k in old(series) && k !in rest ==>
                    (k in series <==> k in Pruned(old(series), now, config.maxAge))
        invariant forall k :: k in series && k !in rest ==>
                    k in Pruned(old(series), now, config.maxAge) && series[k] == Pruned(old(series), now, config.maxAge)[k]
        invariant Counted() && sampleCount + counters.sampleEvictions == old(sampleCount + counters.sampleEvictions)
        invariant sampleCount <= old(sampleCount)
        invariant counters == old(counters).(sampleEvictions := counters.sampleEvictions)
        decreases rest
      {
        var k :| k in rest;
        assert SeriesOk(k, series[k], config);
        PruneSeries(k, now);
        rest := rest - {k};
      }
    }

    /** The first in key order among the series that went longest without a sample. */
    method FindOldestSeries() returns (oldest: MetricKey)
      requires TotalOrder(less) && series != map[]
      ensures OldestSeries(series, oldest, less)
    {
      FirstExists(series.Keys, less);
      hide TotalOrder;
      oldest :| oldest in series.Keys && IsFirst(oldest, series.Keys, less);
      var rest := series.Keys - {oldest};
      while rest != {}
        invariant rest <= series.Keys && oldest in series && oldest !in rest
        invariant forall j, k :: j in series && j !in rest && k in rest ==> less(j, k)
        invariant forall k :: k in series && k !in rest && k != oldest ==>
                    Before(series[oldest].lastUpdated, oldest, series[k].lastUpdated, k, less)
        decreases rest
      {
        FirstExists(rest, less);
        var k :| k in rest && IsFirst(k, rest, less);
        if series[k].lastUpdated < series[oldest].lastUpdated { oldest := k; }
        rest := rest - {k};
      }
    }

    method EvictOldestSeries() returns (oldest: MetricKey)
      requires TotalOrder(less) && Counted() && series != map[]
      modifies this`series, this`sampleCount, this`counters
      ensures OldestSeries(old(series), oldest, less) && series == old(series) - {oldest} && Counted()
      ensures sampleCount + counters.sampleEvictions == old(sampleCount + counters.sampleEvictions)
      ensures counters == old(counters).(sampleEvictions := counters.sampleEvictions,
                                         seriesEvictions := old(counters).seriesEvictions + 1)
    {
      hide Total, TotalOrder;
      oldest := FindOldestSeries();
      TotalWithout(series, oldest);
      var size := |series[oldest].samples|;
      sampleCount := sampleCount - size;
      counters := counters.(sampleEvictions := counters.sampleEvictions + size, seriesEvictions := counters.seriesEvictions + 1);
      series := series - {oldest};
    }

    /** The first in key order among the series whose front is oldest. */
    method FindOldestFront() returns (oldest: MetricKey)
      requires TotalOrder(less) && series != map[] && forall k :: k in series ==> series[k].samples != []
      ensures OldestFront(series, oldest, less)
    {
      FirstExists(series.Keys, less);
      hide TotalOrder;
      oldest :| oldest in series.Keys && IsFirst(oldest, series.Keys, less);
      var rest := series.Keys - {oldest};
      while rest != {}
        invariant rest <= series.Keys && oldest in series && oldest !in rest
        invariant forall j, k :: j in series && j !in rest && k in rest ==> less(j, k)
        invariant forall k :: k in series && k !in rest && k != oldest ==>
                    Before(series[oldest].samples[0].at, oldest, series[k].samples[0].at, k, less)
        decreases rest
      {
        FirstExists(rest, less);
        var k :| k in rest && IsFirst(k, rest, less);
        if series[k].samples[0].at < series[oldest].samples[0].at { oldest := k; }
        rest := rest - {k};
      }
    }

    method EvictOldestSample() returns (oldest: MetricKey)
      requires TotalOrder(less) && Counted() && series != map[] && AllSeriesOk(series, config)
      modifies this`series, this`sampleCount, this`counters
      ensures OldestFront(old(series), oldest, less) && series == WithoutFront(old(series), oldest) && Counted()
      ensures sampleCount == old(sampleCount) - 1
      ensures counters == old(counters).(sampleEvictions := old(counters).sampleEvictions + 1)
    {
      hide Total, Sorted, TotalOrder;
      assert forall k :: k in series ==> series[k].samples != [];
      oldest := FindOldestFront();
      PopFront(oldest);
      if series[oldest].samples == [] {
        EraseEmpty(oldest);
        assert series == old(series) - {oldest};
      }
    }

    /** Adds the sample at the end of its series and drops that series' front if it has grown too long. */
    method Append(x: Sample)
      requires ConfigOk(config) && Counted() && AllSeriesOk(series, config)
      modifies this`series, this`sampleCount, this`counters
      ensures series == old(series)[x.key := Extended(old(series), x, config)] && Counted()
      ensures sampleCount + counters.sampleEvictions == old(sampleCount + counters.sampleEvictions) + 1
      ensures counters == old(counters).(sampleEvictions := counters.sampleEvictions)
    {
      hide Total, Sorted;
      if x.key !in series {
        TotalSet(series, x.key, Series([], x.at));
        series := series[x.key := Series([], x.at)];
      } else {
        assert SeriesOk(x.key, series[x.key], config);
      }
      ghost var held := series[x.key].samples;
      TotalSet(series, x.key, Series(held + [x], x.at));
      series := series[x.key := Series(series[x.key].samples + [x], x.at)];
      sampleCount := sampleCount + 1;
      while |series[x.key].samples| > config.maxPerSeries
        invariant x.key in series && Counted() && |held| <= config.maxPerSeries
        invariant series == old(series)[x.key := series[x.key]] && series[x.key].lastUpdated == x.at
        invariant |series[x.key].samples| > config.maxPerSeries ==> series[x.key].samples == held + [x]
        invariant |series[x.key].samples| <= config.maxPerSeries ==> series[x.key] == Extended(old(series), x, config)
        invariant sampleCount + counters.sampleEvictions == old(sampleCount + counters.sampleEvictions) + 1
        invariant counters == old(counters).(sampleEvictions := counters.sampleEvictions)
        decreases |series[x.key].samples|
      {
        PopFront(x.key);
      }
    }

    /** `victim` is the series given up for a new key, `front` the series that lost its oldest sample to the total bound. */
    method Accept(x: Sample) returns (ghost victim: Option<MetricKey>, ghost front: Option<MetricKey>)
      requires Consistent() && !Late(series, x)
      modifies this
      ensures RightChoices(old(series), x, config, less, victim, front)
      ensures series == Accepted(old(series), x, config, victim, front)
      ensures Holds(series, x) <==> !Outdated(Roomy(old(series), victim), x, config, less)
      ensures accepted == old(accepted) + 1 && counters.rejected == old(counters).rejected
      ensures Consistent()
    {
      hide Total, SeriesOk, Extended, Late, TotalOrder;
      victim, front := None, None;
      if x.key !in series && |series| == config.maxSeries {
        var oldest := EvictOldestSeries();
        victim := Some(oldest);
      }
      RoomyOk(old(series), x, config, less, victim);
      GrownOk(old(series), x, config, less, victim);
      Append(x);
      accepted := accepted + 1;
      ghost var grown := series;
      assert grown == Accepted(old(series), x, config, victim, None);
      while sampleCount > config.maxTotal
        invariant Counted() && accepted == sampleCount + counters.sampleEvictions && accepted == old(accepted) + 1
        invariant counters.rejected == old(counters).rejected
        invariant if front.None? then series == grown && Total(grown) <= config.maxTotal + 1
                  else && Total(grown) > config.maxTotal && OldestFront(grown, front.value, less)
                       && series == WithoutFront(grown, front.value) && sampleCount <= config.maxTotal
        decreases sampleCount
      {
        var oldest := EvictOldestSample();
        front := Some(oldest);
      }
      AcceptedIsHeldIff(old(series), x, config, less, victim, front);
      AcceptedOk(old(series), x, config, less, victim, front);
    }

    method Insert(x: Sample) returns (ok: bool, ghost victim: Option<MetricKey>, ghost front: Option<MetricKey>)
      requires Consistent()
      modifies this
      ensures var pruned := Pruned(old(series), x.at, config.maxAge);
              && ok == (!Malformed(x) && !Late(pruned, x))
              && (Malformed(x) ==> series == old(series))
              && (!Malformed(x) && !ok ==> series == pruned)
              && (ok ==> RightChoices(pruned, x, config, less, victim, front))
              && (ok ==> series == Accepted(pruned, x, config, victim, front))
              && (ok ==> (Holds(series, x) <==> !Outdated(Roomy(pruned, victim), x, config, less)))
      ensures accepted == old(accepted) + (if ok then 1 else 0)
      ensures counters.rejected == old(counters).rejected + (if ok then 0 else 1)
      ensures Consistent()
    {
      hide Total, SeriesOk, RightChoices, Accepted, Outdated, Holds, Roomy, TotalOrder;
      victim, front := None, None;
      if Malformed(x) {
        counters := counters.(rejected := counters.rejected + 1);
        return false, None, None;
      }
      PruneExpired(x.at);
      PrunedOk(old(series), x.at, config);
      PrunedSize(old(series), x.at, config.maxAge);
      hide Pruned;
      if x.key in series && series[x.key].samples != [] && x.at < series[x.key].samples[|series[x.key].samples| - 1].at {
        counters := counters.(rejected := counters.rejected + 1);
        return false, None, None;
      }
      victim, front := Accept(x);
      ok := true;
    }

    method Latest(key: MetricKey, now: int) returns (r: Option<Sample>)
      requires Consistent()
      modifies this`counters
      ensures r == if key in series then LatestOf(series[key].samples, now, config) else None
      ensures Consistent()
    {
      hide Total;
      if key !in series || series[key].samples == [] { return None; }
      var last := series[key].samples[|series[key].samples| - 1];
      if now - last.at > config.maxAge { return None; }
      r := Some(WithStaleness(last, now, config.staleAfter));
      if r.value != last { counters := counters.(stale := counters.stale + 1); }
    }

    /** At most `limit` samples, the earliest first; zero means the configured maximum. */
    method Window(key: MetricKey, begin: int, end: int, limit: nat, now: int) returns (r: seq<Sample>)
      requires Consistent()
      modifies this`counters
      ensures var most := if limit == 0 || config.maxResults < limit then config.maxResults else limit;
              r == if key in series && begin <= end
                   then FirstN(FullWindow(series[key].samples, begin, end, now, config), most) else []
      ensures Consistent()
    {
      hide Total, AllSeriesOk, WithStaleness;
      r := [];
      if end < begin || key !in series { return; }
      var most := if limit == 0 || config.maxResults < limit then config.maxResults else limit;
      var samples := series[key].samples;
      var i := 0;
      while i < |samples| && |r| < most
        invariant i <= |samples| && |r| <= most && Consistent()
        invariant r == FullWindow(samples[..i], begin, end, now, config)
      {
        var x := samples[i];
        assert samples[..i + 1][..i] == samples[..i];
        if Selected(x, begin, end, now, config.maxAge) {
          r := r + [WithStaleness(x, now, config.staleAfter)];
          if WithStaleness(x, now, config.staleAfter) != x { counters := counters.(stale := counters.stale + 1); }
        }
        i := i + 1;
      }
      WindowPrefix(samples, i, begin, end, now, config);
      assert samples[..|samples|] == samples;
    }
  }

  lemma NothingUnexpired(now: int, maxAge: int)
    ensures Unexpired([], now, maxAge) == []
  {
  }

  lemma PrunedSize(m: SeriesMap, now: int, maxAge: int)
    ensures |Pruned(m, now, maxAge)| <= |m|
  {
    var p := Pruned(m, now, maxAge);
    assert p.Keys <= m.Keys;
    assert m.Keys == p.Keys + (m.Keys - p.Keys) && |m.Keys| == |p.Keys| + |m.Keys - p.Keys|;
  }

  lemma {:induction false} WindowPrefix(s: seq<Sample>, i: nat, begin: int, end: int, now: int, c: Config)
    requires i <= |s|
    ensures FullWindow(s[..i], begin, end, now, c) <= FullWindow(s, begin, end, now, c)
  {
    if i < |s| {
      WindowPrefix(s[..|s| - 1], i, begin, end, now, c);
      assert s[..|s| - 1][..i] == s[..i];
    } else {
      assert s[..i] == s;
    }
  }
}
