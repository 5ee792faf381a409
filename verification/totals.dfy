/**
 The figures the page computes from the ledger: the Amex subtotal, the travel
 credit still available, the projected annual value, the unweighted
 current-period value, and the constant it is all measured against.
 */
module Totals {
  import opened Benefits
  import opened Ledger

  /** The Amex Gold value extracted this month or period: dining, Uber, Dunkin' and Resy. */
  function AmexSubtotal(d: Data): (r: int)
    requires Complete(d)
    ensures WellFormed(d) ==> 0 <= r <= 77
    ensures WellFormed(d) ==> (r == 77 <==> d[AmexDining] == 10 && d[AmexUber] == 10 && d[AmexDunkin] == 7 && d[AmexResy] == 50)
  {
    assert WellFormed(d) ==> Storable(ControlOf(AmexDining), d[AmexDining]);
    assert WellFormed(d) ==> Storable(ControlOf(AmexUber), d[AmexUber]);
    assert WellFormed(d) ==> Storable(ControlOf(AmexDunkin), d[AmexDunkin]);
    assert WellFormed(d) ==> Storable(ControlOf(AmexResy), d[AmexResy]);
    d[AmexDining] + d[AmexUber] + d[AmexDunkin] + d[AmexResy]
  }

  /** The Sapphire travel credit not yet used; with the number input's bounds it lies in [0, 300]. */
  function TravelRemaining(travel: int): (r: int)
    ensures 0 <= travel <= Cap(CsrTravel) ==> 0 <= r <= Cap(CsrTravel)
    ensures r + travel == Cap(CsrTravel)
  {
    300 - travel
  }

  /** The reference figure for all tracked perks: Amex, then Sapphire, then Citi, each per year. */
  const TotalPossible: int := (120 + 120 + 84 + 100) + (300 + 500 + 300 + 240) + 100

  /**
   The projected annual value: each benefit's amount counted once per period
   in the year, 12 times for the monthly credits, twice for the semi-annual
   ones, once for the annual ones.  The hotel collection credit is not part of it.
   It is the period-weighted sum over the nine tracked benefits.
   */
  function ProjectedTotal(d: Data): (r: int)
    requires Complete(d)
    ensures r == WeightedSum(d, TrackedInSumOrder)
  {
    var ts := TrackedInSumOrder;
    assert WeightedSum(d, ts[8..]) == d[CitiHotel];
    assert WeightedSum(d, ts[7..]) == 12 * d[CsrDoordashNc] + d[CitiHotel];
    assert WeightedSum(d, ts[6..]) == 2 * d[CsrDiningTables] + WeightedSum(d, ts[7..]);
    assert WeightedSum(d, ts[5..]) == 2 * d[CsrEditHotel] + WeightedSum(d, ts[6..]);
    assert WeightedSum(d, ts[4..]) == d[CsrTravel] + WeightedSum(d, ts[5..]);
    assert WeightedSum(d, ts[3..]) == 2 * d[AmexResy] + WeightedSum(d, ts[4..]);
    assert WeightedSum(d, ts[2..]) == 12 * d[AmexDunkin] + WeightedSum(d, ts[3..]);
    assert WeightedSum(d, ts[1..]) == 12 * d[AmexUber] + WeightedSum(d, ts[2..]);
    d[AmexDining] * 12 +
    d[AmexUber] * 12 +
    d[AmexDunkin] * 12 +
    d[AmexResy] * 2 +
    d[CsrTravel] +
    d[CsrEditHotel] * 2 +
    d[CsrDiningTables] * 2 +
    d[CsrDoordashNc] * 12 +
    d[CitiHotel]
  }

  /** The value marked as used in the current period: the same nine amounts, unweighted. */
  function CurrentPeriodTotal(d: Data): (r: int)
    requires Complete(d)
    ensures r == PlainSum(d, TrackedInSumOrder)
  {
    var ts := TrackedInSumOrder;
    assert PlainSum(d, ts[8..]) == d[CitiHotel];
    assert PlainSum(d, ts[7..]) == d[CsrDoordashNc] + d[CitiHotel];
    assert PlainSum(d, ts[6..]) == d[CsrDiningTables] + PlainSum(d, ts[7..]);
    assert PlainSum(d, ts[5..]) == d[CsrEditHotel] + PlainSum(d, ts[6..]);
    assert PlainSum(d, ts[4..]) == d[CsrTravel] + PlainSum(d, ts[5..]);
    assert PlainSum(d, ts[3..]) == d[AmexResy] + PlainSum(d, ts[4..]);
    assert PlainSum(d, ts[2..]) == d[AmexDunkin] + PlainSum(d, ts[3..]);
    assert PlainSum(d, ts[1..]) == d[AmexUber] + PlainSum(d, ts[2..]);
    d[AmexDining] +
    d[AmexUber] +
    d[AmexDunkin] +
    d[AmexResy] +
    d[CsrTravel] +
    d[CsrEditHotel] +
    d[CsrDiningTables] +
    d[CsrDoordashNc] +
    d[CitiHotel]
  }

  /** The amounts of the benefits in `ts`, each weighted by how often its period recurs in a year. */
  function WeightedSum(d: Data, ts: seq<Tracked>): int
    requires Complete(d)
  {
    if ts == [] then 0 else Weight(ts[0]) * d[ts[0]] + WeightedSum(d, ts[1..])
  }

  /** The amounts of the benefits in `ts`, unweighted. */
  function PlainSum(d: Data, ts: seq<Tracked>): int
    requires Complete(d)
  {
    if ts == [] then 0 else d[ts[0]] + PlainSum(d, ts[1..])
  }

  /** The annual caps of the benefits in `ts`: each cap times how often its period recurs in a year. */
  function AnnualCaps(ts: seq<Tracked>): int
  {
    if ts == [] then 0 else Weight(ts[0]) * Cap(ts[0]) + AnnualCaps(ts[1..])
  }

  /** The benefits of `ts` are all in their widgets' bounds. */
  predicate AllStorable(d: Data, ts: seq<Tracked>)
    requires Complete(d)
  {
    forall i :: 0 <= i < |ts| ==> Storable(ControlOf(ts[i]), d[ts[i]])
  }

  /** The benefits of `ts` are all at their caps. */
  predicate AllAtCap(d: Data, ts: seq<Tracked>)
    requires Complete(d)
  {
    forall i :: 0 <= i < |ts| ==> d[ts[i]] == Cap(ts[i])
  }

  lemma StorableWithinCap(t: Tracked, v: int)
    requires Storable(ControlOf(t), v)
    ensures 0 <= v <= Cap(t)
  {
  }

  /**
   A weighted sum of in-bounds amounts never exceeds the sum of the annual
   caps, and reaches it exactly when every amount is at its cap.
   */
  lemma {:induction false} WeightedSumBounded(d: Data, ts: seq<Tracked>)
    requires Complete(d) && AllStorable(d, ts)
    ensures 0 <= WeightedSum(d, ts) <= AnnualCaps(ts)
    ensures WeightedSum(d, ts) == AnnualCaps(ts) <==> AllAtCap(d, ts)
  {
    if ts != [] {
      var t := ts[0];
      StorableWithinCap(t, d[t]);
      assert AllStorable(d, ts[1..]) by {
        forall i | 0 <= i < |ts[1..]| ensures Storable(ControlOf(ts[1..][i]), d[ts[1..][i]]) {
          assert ts[1..][i] == ts[i + 1];
        }
      }
      WeightedSumBounded(d, ts[1..]);
      assert Weight(t) * d[t] <= Weight(t) * Cap(t) by {
        MulMonotone(Weight(t), d[t], Cap(t));
      }
      assert 0 <= Weight(t) * d[t] by {
        MulMonotone(Weight(t), 0, d[t]);
      }
      if WeightedSum(d, ts) == AnnualCaps(ts) {
        assert Weight(t) * d[t] == Weight(t) * Cap(t);
        MulCancel(Weight(t), d[t], Cap(t));
        forall i | 0 <= i < |ts| ensures d[ts[i]] == Cap(ts[i]) {
          if i > 0 {
            assert ts[i] == ts[1..][i - 1];
          }
        }
      }
      if AllAtCap(d, ts) {
        assert AllAtCap(d, ts[1..]) by {
          forall i | 0 <= i < |ts[1..]| ensures d[ts[1..][i]] == Cap(ts[1..][i]) {
            assert ts[1..][i] == ts[i + 1];
          }
        }
      }
    }
  }

  lemma MulMonotone(w: nat, a: int, b: int)
    requires a <= b
    ensures w * a <= w * b
  {
  }

  lemma MulCancel(w: int, a: int, b: int)
    requires w >= 1 && w * a == w * b
    ensures a == b
  {
  }

  /**
   With non-negative amounts the unweighted sum is at most the weighted one,
   because every benefit is counted at least once a year.
   */
  lemma {:induction false} PlainAtMostWeighted(d: Data, ts: seq<Tracked>)
    requires Complete(d)
    requires forall i :: 0 <= i < |ts| ==> d[ts[i]] >= 0
    ensures 0 <= PlainSum(d, ts) <= WeightedSum(d, ts)
  {
    if ts != [] {
      var t := ts[0];
      assert d[t] >= 0;
      assert forall i :: 0 <= i < |ts[1..]| ==> d[ts[1..][i]] >= 0 by {
        forall i | 0 <= i < |ts[1..]| ensures d[ts[1..][i]] >= 0 {
          assert ts[1..][i] == ts[i + 1];
        }
      }
      PlainAtMostWeighted(d, ts[1..]);
      MulMonotone(Weight(t) - 1, 0, d[t]);
      assert d[t] <= Weight(t) * d[t];
    }
  }

  /** The hard-coded reference figure is exactly the sum of the tracked benefits' annual caps. */
  lemma TotalPossibleIsAnnualCaps()
    ensures TotalPossible == AnnualCaps(TrackedInSumOrder) == 1864
  {
    var ts := TrackedInSumOrder;
    assert AnnualCaps(ts[8..]) == 100;
    assert AnnualCaps(ts[7..]) == 240 + 100;
    assert AnnualCaps(ts[6..]) == 300 + AnnualCaps(ts[7..]);
    assert AnnualCaps(ts[5..]) == 500 + AnnualCaps(ts[6..]);
    assert AnnualCaps(ts[4..]) == 300 + AnnualCaps(ts[5..]);
    assert AnnualCaps(ts[3..]) == 100 + AnnualCaps(ts[4..]);
    assert AnnualCaps(ts[2..]) == 84 + AnnualCaps(ts[3..]);
    assert AnnualCaps(ts[1..]) == 120 + AnnualCaps(ts[2..]);
  }

  /**
   On every reachable ledger the projected total lies in [0, 1864], and it
   equals the reference figure exactly when every tracked benefit is at its cap.
   */
  lemma ProjectedWithinTotalPossible(d: Data)
    requires WellFormed(d)
    ensures 0 <= ProjectedTotal(d) <= TotalPossible
    ensures ProjectedTotal(d) == TotalPossible <==> forall t: Tracked :: d[t] == Cap(t)
  {
    var ts := TrackedInSumOrder;
    TotalPossibleIsAnnualCaps();
    assert AllStorable(d, ts);
    WeightedSumBounded(d, ts);
    TrackedInSumOrderListsEachOnce();
    if AllAtCap(d, ts) {
      forall t: Tracked ensures d[t] == Cap(t) {
        assert t in ts;
        var i :| 0 <= i < |ts| && ts[i] == t;
        assert d[ts[i]] == Cap(ts[i]);
      }
    }
  }

  /** On every reachable ledger the current-period total is at most the projected total. */
  lemma CurrentAtMostProjected(d: Data)
    requires WellFormed(d)
    ensures 0 <= CurrentPeriodTotal(d) <= ProjectedTotal(d)
  {
    var ts := TrackedInSumOrder;
    forall i | 0 <= i < |ts| ensures d[ts[i]] >= 0 {
      StorableWithinCap(ts[i], d[ts[i]]);
    }
    PlainAtMostWeighted(d, ts);
  }
}
