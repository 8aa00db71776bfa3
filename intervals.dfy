/**
  The interval generator of `onQueryIntervalsMessage` (index.js:197-228): from a
  time window, a granularity and a list of resource ids it builds the list of
  report intervals, one per (slot, resource) pair, slot by slot.
 */
module IntervalGenerator {

  import opened Messages

  const GoodQuality := "Quality Good - Non Specific"

  /** The record pushed for resource `rId` in the slot starting at `dtStartTimet`. */
  function Reading(dtStartTimet: int, rId: string): (r: ReportInterval)
    ensures r.dataQuality == GoodQuality && r.value == 0
    ensures r.dtStartTimet == dtStartTimet && r.rId == rId
  {
    ReportInterval(GoodQuality, dtStartTimet, rId, 0)
  }

  /** `numIntervals` as the source computes it: 1 when the granularity or the
      window width is 0, otherwise `1 + width / granularity` in real (not
      integer) division. */
  function NumIntervals(startTime: int, endTime: int, granularity: int): (r: real)
    ensures granularity == 0 || endTime == startTime ==> r == 1.0
    ensures granularity != 0 && endTime != startTime ==>
              (r - 1.0) * (granularity as real) == (endTime - startTime) as real
  {
    if granularity == 0 || endTime - startTime == 0 then 1.0
    else
      RealDivCancel((endTime - startTime) as real, granularity as real);
      1.0 + ((endTime - startTime) as real) / (granularity as real)
  }

  /** The number of slots the loop `for (i = 0; i < numIntervals; i++)` runs,
      as an integer: the number of naturals below `NumIntervals`. */
  function SlotCount(width: int, granularity: int): nat
    decreases if granularity < 0 then 1 else 0
  {
    if granularity == 0 || width == 0 then 1
    else if granularity < 0 then SlotCount(-width, -granularity)
    else if granularity + width <= 0 then 0
    else (granularity + width - 1) / granularity + 1
  }

  /** For a positive divisor, `i * d <= x` exactly when `i <= x / d`. */
  lemma MulLeIffLeDiv(i: nat, x: nat, d: int)
    requires d > 0
    ensures i * d <= x <==> i <= x / d
  {
    var q := x / d;
    assert x == q * d + x % d && 0 <= x % d < d;
    if i <= q {
      MulMonotone(i, q, d);
    } else {
      MulMonotone(q + 1, i, d);
      MulSucc(q, d);
    }
  }

  lemma MulSucc(a: int, b: int)
    ensures (a + 1) * b == a * b + b
  {
  }

  lemma MulMonotone(a: int, b: int, d: int)
    requires a <= b && d >= 0
    ensures a * d <= b * d
  {
    assert b * d - a * d == (b - a) * d;
  }

  lemma MulNonNegative(a: nat, b: nat)
    ensures a * b >= 0
  {
  }

  lemma RealDivCancel(w: real, g: real)
    requires g != 0.0
    ensures (w / g) * g == w
  {
  }

  lemma RealDivNegate(w: real, g: real)
    requires g != 0.0
    ensures w / g == (-w) / (-g)
  {
  }

  lemma RealDistribute(q: real, g: real)
    ensures (1.0 + q) * g == g + q * g
  {
  }

  lemma RealOfMul(i: int, g: int)
    ensures (i * g) as real == (i as real) * (g as real)
  {
  }

  /** Multiplying by a positive real keeps a strict order. */
  lemma RealScale(a: real, b: real, c: real)
    requires c > 0.0
    ensures a < b <==> a * c < b * c
  {
    assert b * c - a * c == (b - a) * c;
  }

  /** For a positive granularity the real-valued loop test is the integer test
      `i * g < g + w`. */
  lemma LoopTestPositive(i: nat, w: int, g: int)
    requires g > 0
    ensures ((i as real) < 1.0 + (w as real) / (g as real)) <==> i * g < g + w
  {
    var G, W, I := g as real, w as real, i as real;
    var q := W / G;
    RealDivCancel(W, G);
    RealScale(I, 1.0 + q, G);
    RealDistribute(q, G);
    RealOfMul(i, g);
    assert (1.0 + q) * G == G + W;
    assert (I < 1.0 + q) <==> I * G < G + W;
    assert (i * g) as real == I * G;
    assert (g + w) as real == G + W;
  }

  /** For a positive granularity the integer test `i * g < g + w` holds exactly
      below `SlotCount(w, g)`, including for a zero-width window. */
  lemma SlotCountPositive(i: nat, w: int, g: int)
    requires g > 0
    ensures i * g < g + w <==> i < SlotCount(w, g)
  {
    if w == 0 {
      if i >= 1 {
        MulMonotone(1, i, g);
      }
    } else if g + w > 0 {
      MulLeIffLeDiv(i, g + w - 1, g);
    } else {
      MulNonNegative(i, g);
    }
  }

  /** The source's loop test `i < numIntervals` holds exactly for the first
      `SlotCount(endTime - startTime, granularity)` values of `i`, whatever the
      signs of the width and the granularity. */
  lemma LoopTest(startTime: int, endTime: int, granularity: int, i: nat)
    ensures ((i as real) < NumIntervals(startTime, endTime, granularity))
            <==> i < SlotCount(endTime - startTime, granularity)
  {
    var w, g := endTime - startTime, granularity;
    if g == 0 || w == 0 {
    } else if g > 0 {
      LoopTestPositive(i, w, g);
      SlotCountPositive(i, w, g);
    } else {
      RealDivNegate(w as real, g as real);
      LoopTestPositive(i, -w, -g);
      SlotCountPositive(i, -w, -g);
    }
  }

  /** The entries pushed by one pass of the inner loop: one per resource id,
      in the caller's order. */
  function Row(dtStartTimet: int, rIds: seq<string>): (r: seq<ReportInterval>)
    ensures |r| == |rIds|
  {
    if rIds == [] then [] else [Reading(dtStartTimet, rIds[0])] + Row(dtStartTimet, rIds[1..])
  }

  /** Entry `j` of a row is the reading of resource `rIds[j]`. */
  lemma {:induction false} RowAt(dtStartTimet: int, rIds: seq<string>, j: nat)
    requires j < |rIds|
    ensures Row(dtStartTimet, rIds)[j] == Reading(dtStartTimet, rIds[j])
    decreases j
  {
    if j > 0 {
      RowAt(dtStartTimet, rIds[1..], j - 1);
    }
  }

  /** The entries of `slots` consecutive slots, the first starting at
      `dtStartTimet` and each next one `granularity` later. */
  function Slots(dtStartTimet: int, granularity: int, slots: nat, rIds: seq<string>): seq<ReportInterval>
    decreases slots
  {
    if slots == 0 then []
    else Row(dtStartTimet, rIds) + Slots(dtStartTimet + granularity, granularity, slots - 1, rIds)
  }

  /** `slots` slots of `|rIds|` entries each. */
  lemma {:induction false} SlotsLength(dtStartTimet: int, granularity: int, slots: nat, rIds: seq<string>)
    ensures |Slots(dtStartTimet, granularity, slots, rIds)| == slots * |rIds|
    decreases slots
  {
    if slots > 0 {
      SlotsLength(dtStartTimet + granularity, granularity, slots - 1, rIds);
      MulSucc(slots - 1, |rIds|);
    }
  }

  /** The `reportIntervals` list the handler builds for a query. */
  function QueryIntervals(query: IntervalQuery): seq<ReportInterval>
  {
    Slots(query.startTimet, query.granularityInSeconds,
          SlotCount(query.endTimet - query.startTimet, query.granularityInSeconds), query.rIds)
  }

  /** Where slot `s` begins in the list: after `s` rows of `width` entries. */
  function Offset(s: nat, width: nat): nat
  {
    if s == 0 then 0 else width + Offset(s - 1, width)
  }

  lemma {:induction false} OffsetIs(s: nat, width: nat)
    ensures Offset(s, width) == s * width
  {
    if s > 0 {
      OffsetIs(s - 1, width);
      MulSucc(s - 1, width);
    }
  }

  /** Entry `s * |rIds| + j` of `Slots` is resource `j` of slot `s`, which starts
      `s` granularities after the first. */
  lemma SlotsAt(dtStartTimet: int, granularity: int, slots: nat, rIds: seq<string>, s: nat, j: nat)
    requires s < slots && j < |rIds|
    ensures s * |rIds| + j < |Slots(dtStartTimet, granularity, slots, rIds)|
    ensures Slots(dtStartTimet, granularity, slots, rIds)[s * |rIds| + j]
            == Reading(dtStartTimet + s * granularity, rIds[j])
  {
    SlotAt(dtStartTimet, granularity, slots, rIds, s, j);
    OffsetIs(s, |rIds|);
    SlotStartIs(dtStartTimet, granularity, s);
  }

  /** `SlotsAt` with the offset and the start time in their recursive forms. */
  lemma {:induction false} SlotAt(dtStartTimet: int, granularity: int, slots: nat, rIds: seq<string>, s: nat, j: nat)
    requires s < slots && j < |rIds|
    ensures Offset(s, |rIds|) + j < |Slots(dtStartTimet, granularity, slots, rIds)|
    ensures Slots(dtStartTimet, granularity, slots, rIds)[Offset(s, |rIds|) + j]
            == Reading(SlotStart(dtStartTimet, granularity, s), rIds[j])
    decreases s
  {
    var row := Row(dtStartTimet, rIds);
    var rest := Slots(dtStartTimet + granularity, granularity, slots - 1, rIds);
    assert Slots(dtStartTimet, granularity, slots, rIds) == row + rest;
    if s == 0 {
      RowAt(dtStartTimet, rIds, j);
    } else {
      SlotAt(dtStartTimet + granularity, granularity, slots - 1, rIds, s - 1, j);
    }
  }

  /** Entry `k` of the list belongs to slot `k / |rIds|` and to resource
      `rIds[k % |rIds|]`; the list is empty when `rIds` is. */
  lemma IntervalAt(query: IntervalQuery, k: nat)
    requires k < |QueryIntervals(query)|
    ensures |query.rIds| > 0
    ensures QueryIntervals(query)[k]
            == Reading(query.startTimet + (k / |query.rIds|) * query.granularityInSeconds,
                       query.rIds[k % |query.rIds|])
  {
    var m := |query.rIds|;
    var n := SlotCount(query.endTimet - query.startTimet, query.granularityInSeconds);
    SlotsLength(query.startTimet, query.granularityInSeconds, n, query.rIds);
    if m == 0 {
      assert false;
    }
    var s, j := k / m, k % m;
    assert k == s * m + j;
    if s >= n {
      MulMonotone(n, s, m);
      assert false;
    }
    SlotsAt(query.startTimet, query.granularityInSeconds, n, query.rIds, s, j);
  }

  /** The response holds exactly `SlotCount * |rIds|` entries. */
  lemma IntervalCount(query: IntervalQuery)
    ensures |QueryIntervals(query)|
            == SlotCount(query.endTimet - query.startTimet, query.granularityInSeconds) * |query.rIds|
  {
    SlotsLength(query.startTimet, query.granularityInSeconds,
                SlotCount(query.endTimet - query.startTimet, query.granularityInSeconds), query.rIds);
  }

  /** The start of slot `slots`, reached by adding the granularity once per slot. */
  function SlotStart(dtStartTimet: int, granularity: int, slots: nat): int
    decreases slots
  {
    if slots == 0 then dtStartTimet else SlotStart(dtStartTimet + granularity, granularity, slots - 1)
  }

  lemma {:induction false} SlotStartIs(dtStartTimet: int, granularity: int, slots: nat)
    ensures SlotStart(dtStartTimet, granularity, slots) == dtStartTimet + slots * granularity
    decreases slots
  {
    if slots > 0 {
      SlotStartIs(dtStartTimet + granularity, granularity, slots - 1);
      MulSucc(slots - 1, granularity);
    }
  }

  /** Each slot starts one granularity after the previous one. */
  lemma {:induction false} SlotStartStep(dtStartTimet: int, granularity: int, slots: nat)
    ensures SlotStart(dtStartTimet, granularity, slots + 1) == SlotStart(dtStartTimet, granularity, slots) + granularity
    decreases slots
  {
    if slots > 0 {
      SlotStartStep(dtStartTimet + granularity, granularity, slots - 1);
    }
  }

  /** Adding a slot appends one row, starting `slots` granularities after the first. */
  lemma {:induction false} SlotsSnoc(dtStartTimet: int, granularity: int, slots: nat, rIds: seq<string>)
    ensures Slots(dtStartTimet, granularity, slots + 1, rIds)
            == Slots(dtStartTimet, granularity, slots, rIds) + Row(SlotStart(dtStartTimet, granularity, slots), rIds)
    decreases slots
  {
    var next := dtStartTimet + granularity;
    var row := Row(dtStartTimet, rIds);
    if slots == 0 {
      assert Slots(dtStartTimet, granularity, 1, rIds) == row + [];
    } else {
      var later := Slots(next, granularity, slots - 1, rIds);
      var last := Row(SlotStart(next, granularity, slots - 1), rIds);
      SlotsSnoc(next, granularity, slots - 1, rIds);
      assert row + (later + last) == (row + later) + last;
    }
  }

  /** Extending the resource list by one id appends that id's reading. */
  lemma RowSnoc(dtStartTimet: int, rIds: seq<string>, rId: string)
    ensures Row(dtStartTimet, rIds + [rId]) == Row(dtStartTimet, rIds) + [Reading(dtStartTimet, rId)]
  {
    var a := Row(dtStartTimet, rIds + [rId]);
    var b := Row(dtStartTimet, rIds) + [Reading(dtStartTimet, rId)];
    assert |a| == |b|;
    forall k | 0 <= k < |a| ensures a[k] == b[k] {
      RowAt(dtStartTimet, rIds + [rId], k);
      if k < |rIds| {
        RowAt(dtStartTimet, rIds, k);
      }
    }
  }

  /** The nested loops of index.js:214-228: the outer loop runs while
      `i < numIntervals`, the inner one pushes one entry per resource id, and
      `dtStartTimet` grows by the granularity after each slot. */
  method GenerateIntervals(query: IntervalQuery) returns (reportIntervals: seq<ReportInterval>)
    ensures reportIntervals == QueryIntervals(query)
  {
    var startTime := query.startTimet;
    var endTime := query.endTimet;
    var granularity := query.granularityInSeconds;
    var numIntervals := NumIntervals(startTime, endTime, granularity);
    var rIds := query.rIds;
    ghost var n := SlotCount(endTime - startTime, granularity);

    reportIntervals := [];
    var dtStartTimet := startTime;
    var i: nat := 0;
    LoopTest(startTime, endTime, granularity, i);
    while (i as real) < numIntervals
      invariant i <= n
      invariant ((i as real) < numIntervals) <==> i < n
      invariant dtStartTimet == SlotStart(startTime, granularity, i)
      invariant reportIntervals == Slots(startTime, granularity, i, rIds)
      decreases n - i
    {
      ghost var before := reportIntervals;
      for j := 0 to |rIds|
        invariant reportIntervals == before + Row(dtStartTimet, rIds[..j])
      {
        var rId := rIds[j];
        assert rIds[..j + 1] == rIds[..j] + [rId];
        RowSnoc(dtStartTimet, rIds[..j], rId);
        reportIntervals := reportIntervals + [Reading(dtStartTimet, rId)];
      }
      assert rIds[..|rIds|] == rIds;
      SlotsSnoc(startTime, granularity, i, rIds);
      SlotStartStep(startTime, granularity, i);
      dtStartTimet := dtStartTimet + granularity;
      i := i + 1;
      LoopTest(startTime, endTime, granularity, i);
    }
  }

  /** Granularity 0 or a zero-width window gives one slot: one entry per
      resource id, all starting at `startTimet`. */
  lemma CollapsedWindow(query: IntervalQuery)
    requires query.granularityInSeconds == 0 || query.endTimet == query.startTimet
    ensures QueryIntervals(query) == Row(query.startTimet, query.rIds)
    ensures |QueryIntervals(query)| == |query.rIds|
  {
    assert SlotCount(query.endTimet - query.startTimet, query.granularityInSeconds) == 1;
    assert Slots(query.startTimet, query.granularityInSeconds, 1, query.rIds)
           == Row(query.startTimet, query.rIds) + [];
  }

  /** No resource ids, no entries, whatever the slot count. */
  lemma {:induction false} NoResources(dtStartTimet: int, granularity: int, slots: nat)
    ensures Slots(dtStartTimet, granularity, slots, []) == []
    decreases slots
  {
    if slots > 0 {
      NoResources(dtStartTimet + granularity, granularity, slots - 1);
    }
  }

  /** A window of exactly `k` granularities gives `k + 1` slots: the boundary
      slot at `endTimet` is included.  For `k == 0` this is the collapsed
      window's single slot. */
  lemma WholeMultipleWindow(query: IntervalQuery, k: nat)
    requires query.granularityInSeconds > 0
    requires query.endTimet - query.startTimet == k * query.granularityInSeconds
    ensures |QueryIntervals(query)| == (k + 1) * |query.rIds|
  {
    if k == 0 {
      IntervalCount(query);
      return;
    }
    var g := query.granularityInSeconds;
    var x := (k + 1) * g - 1;
    assert g + k * g - 1 == x by { MulSucc(k, g); }
    assert k * g >= g by { MulMonotone(1, k, g); }
    MulLeIffLeDiv(k, x, g);
    MulLeIffLeDiv(k + 1, x, g);
    assert x / g == k;
    IntervalCount(query);
  }

  /** A window that is not a whole multiple still gets a slot for the fraction
      the real division leaves: width 130 at granularity 60 gives 4 slots,
      where floor division would give 3. */
  lemma FractionalWindow(rIds: seq<string>)
    ensures SlotCount(130, 60) == 4
    ensures |QueryIntervals(IntervalQuery(1000, 1130, 60, rIds))| == 4 * |rIds|
  {
    IntervalCount(IntervalQuery(1000, 1130, 60, rIds));
  }

  /** The scenario 1000..1120 at 60 s for resources A and B. */
  lemma TwoResourceScenario()
    ensures QueryIntervals(IntervalQuery(1000, 1120, 60, ["A", "B"]))
            == [Reading(1000, "A"), Reading(1000, "B"),
                Reading(1060, "A"), Reading(1060, "B"),
                Reading(1120, "A"), Reading(1120, "B")]
  {
    var rIds := ["A", "B"];
    assert SlotCount(120, 60) == 3;
    assert Row(1000, rIds) == [Reading(1000, "A"), Reading(1000, "B")] by {
      assert rIds[1..] == ["B"];
    }
    assert Row(1060, rIds) == [Reading(1060, "A"), Reading(1060, "B")] by {
      assert rIds[1..] == ["B"];
    }
    assert Row(1120, rIds) == [Reading(1120, "A"), Reading(1120, "B")] by {
      assert rIds[1..] == ["B"];
    }
    assert Slots(1180, 60, 0, rIds) == [];
    assert Slots(1120, 60, 1, rIds) == Row(1120, rIds);
    assert Slots(1060, 60, 2, rIds) == Row(1060, rIds) + Row(1120, rIds);
    assert Slots(1000, 60, 3, rIds) == Row(1000, rIds) + Row(1060, rIds) + Row(1120, rIds);
  }

  /** With a non-negative granularity, slot starts never decrease along the
      list (with granularity 0 there is one slot, so all starts are equal). */
  lemma StartsAscend(query: IntervalQuery, k1: nat, k2: nat)
    requires query.granularityInSeconds >= 0
    requires k1 <= k2 < |QueryIntervals(query)|
    ensures QueryIntervals(query)[k1].dtStartTimet <= QueryIntervals(query)[k2].dtStartTimet
  {
    var m := |query.rIds|;
    var g := query.granularityInSeconds;
    IntervalAt(query, k1);
    IntervalAt(query, k2);
    DivMonotone(k1, k2, m);
    MulMonotone(k1 / m, k2 / m, g);
  }

  lemma DivMonotone(a: nat, b: nat, m: int)
    requires a <= b && m > 0
    ensures a / m <= b / m
  {
    assert (a / m) * m <= a;
    MulLeIffLeDiv(a / m, b, m);
  }

  /** Every entry carries the fixed quality marker and the placeholder value 0. */
  lemma PlaceholderReadings(query: IntervalQuery, k: nat)
    requires k < |QueryIntervals(query)|
    ensures QueryIntervals(query)[k].dataQuality == GoodQuality
    ensures QueryIntervals(query)[k].value == 0
    ensures QueryIntervals(query)[k].rId in query.rIds
  {
    IntervalAt(query, k);
  }
}
