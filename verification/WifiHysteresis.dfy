/** The signal category of an associated interface, which lags behind the signal by two gaps. */
module WifiHysteresis {
  import opened RootCauseModel

  function NextCategory(previous: Signal, signal: int, p: Policy): Signal {
    match previous
    case VeryWeak =>
      if signal >= p.veryWeakRecover then if signal <= p.weak then Weak else Normal else VeryWeak
    case Weak =>
      if signal <= p.veryWeak then VeryWeak else if signal >= p.weakRecover then Normal else Weak
    case _ =>
      if signal <= p.veryWeak then VeryWeak else if signal <= p.weak then Weak else Normal
  }

  /** The categories passed through, starting with the one before the first signal. */
  function Categories(first: Signal, signals: seq<int>, p: Policy): (c: seq<Signal>)
    ensures |c| == |signals| + 1
  {
    if signals == [] then [first]
    else
      var c := Categories(first, signals[..|signals| - 1], p);
      c + [NextCategory(c[|c| - 1], signals[|signals| - 1], p)]
  }

  predicate Within(signals: seq<int>, lo: int, hi: int) {
    forall i :: 0 <= i < |signals| ==> lo <= signals[i] <= hi
  }

  /** The window does not reach across either gap. */
  predicate Calm(lo: int, hi: int, p: Policy) {
    !(lo <= p.weak && p.weakRecover <= hi) && !(lo <= p.veryWeak && p.veryWeakRecover <= hi)
  }

  predicate NeverReturns(c: seq<Signal>) {
    forall i, j, k :: 0 <= i < j < k < |c| && c[i] != c[j] ==> c[k] != c[i]
  }

  function Changes(c: seq<Signal>): nat {
    if |c| < 2 then 0 else Changes(c[..|c| - 1]) + (if c[|c| - 1] == c[|c| - 2] then 0 else 1)
  }

  /** In a calm window every change leads to a category of higher rank. */
  function Rank(s: Signal, hi: int, p: Policy): nat {
    match s
    case NoSignal => 0
    case VeryWeak => if hi < p.veryWeakRecover then 4 else 1
    case Normal => if hi < p.weakRecover then 2 else 3
    case Weak => if hi < p.weakRecover then 3 else 2
  }

  lemma ChangesRaiseRank(s: Signal, signal: int, lo: int, hi: int, p: Policy)
    requires PolicyOk(p) && Calm(lo, hi, p) && lo <= signal <= hi
    ensures var t := NextCategory(s, signal, p); t != s ==> Rank(s, hi, p) < Rank(t, hi, p)
  {
  }

  predicate Rising(c: seq<Signal>, hi: int, p: Policy) {
    forall i, j :: 0 <= i < j < |c| ==>
      Rank(c[i], hi, p) <= Rank(c[j], hi, p) && (c[i] != c[j] ==> Rank(c[i], hi, p) < Rank(c[j], hi, p))
  }

  lemma {:induction false} CategoriesRise(first: Signal, signals: seq<int>, lo: int, hi: int, p: Policy)
    requires PolicyOk(p) && Calm(lo, hi, p) && Within(signals, lo, hi)
    ensures var c := Categories(first, signals, p);
            Rising(c, hi, p) && c[0] == first && Changes(c) <= Rank(c[|c| - 1], hi, p) - Rank(first, hi, p)
  {
    if signals != [] {
      var (init, s) := (signals[..|signals| - 1], signals[|signals| - 1]);
      CategoriesRise(first, init, lo, hi, p);
      var c := Categories(first, init, p);
      var t := NextCategory(c[|c| - 1], s, p);
      ChangesRaiseRank(c[|c| - 1], s, lo, hi, p);
      hide NextCategory, Rank;
      assert (c + [t])[..|c + [t]| - 1] == c;
      RisingSnoc(c, t, hi, p);
    }
  }

  lemma RisingSnoc(c: seq<Signal>, t: Signal, hi: int, p: Policy)
    requires c != [] && Rising(c, hi, p) && (t != c[|c| - 1] ==> Rank(c[|c| - 1], hi, p) < Rank(t, hi, p))
    ensures Rising(c + [t], hi, p)
  {
    hide Rank;
    var d := c + [t];
    forall i, j | 0 <= i < j < |d|
      ensures Rank(d[i], hi, p) <= Rank(d[j], hi, p) && (d[i] != d[j] ==> Rank(d[i], hi, p) < Rank(d[j], hi, p))
    {
      if j == |c| && i < |c| - 1 {
        assert Rank(c[i], hi, p) <= Rank(c[|c| - 1], hi, p);
      }
    }
  }

  /** In a calm window a category that was left is never entered again, so there are at most two changes. */
  lemma CalmNeverReturns(first: Signal, signals: seq<int>, lo: int, hi: int, p: Policy)
    requires PolicyOk(p) && Calm(lo, hi, p) && Within(signals, lo, hi)
    ensures NeverReturns(Categories(first, signals, p))
    ensures first != NoSignal ==> Changes(Categories(first, signals, p)) <= 2
  {
    CategoriesRise(first, signals, lo, hi, p);
  }

  /** A window narrower than both gaps is calm, wherever it lies. */
  lemma NarrowNeverReturns(first: Signal, signals: seq<int>, lo: int, hi: int, p: Policy)
    requires PolicyOk(p) && Within(signals, lo, hi)
    requires hi - lo < p.weakRecover - p.weak && hi - lo < p.veryWeakRecover - p.veryWeak
    ensures NeverReturns(Categories(first, signals, p))
    ensures first != NoSignal ==> Changes(Categories(first, signals, p)) <= 2
  {
    CalmNeverReturns(first, signals, lo, hi, p);
  }

  /** Calm windows are the only ones: in any other, two signals suffice to come back. */
  lemma OnlyCalmNeverReturns(lo: int, hi: int, p: Policy) returns (first: Signal, signals: seq<int>)
    requires PolicyOk(p) && !Calm(lo, hi, p)
    ensures Within(signals, lo, hi) && !NeverReturns(Categories(first, signals, p))
  {
    if lo <= p.weak && p.weakRecover <= hi {
      first, signals := Normal, [p.weak, p.weakRecover];
      Returns(first, p.weak, p.weakRecover, p);
    } else {
      first, signals := VeryWeak, [p.veryWeakRecover, p.veryWeak];
      Returns(first, p.veryWeakRecover, p.veryWeak, p);
    }
  }

  lemma Returns(first: Signal, a: int, b: int, p: Policy)
    requires NextCategory(first, a, p) != first && NextCategory(NextCategory(first, a, p), b, p) == first
    ensures !NeverReturns(Categories(first, [a, b], p))
  {
    var second := NextCategory(first, a, p);
    assert [a][..0] == [] && [a, b][..1] == [a];
    assert Categories(first, [], p) == [first];
    assert Categories(first, [a], p) == [first] + [second];
    var c := Categories(first, [a, b], p);
    assert c == [first] + [second] + [first];
    assert c[0] != c[1] && c[2] == c[0];
  }
}
