/** The dashboard's data handling in frontend/app.py: the four headline
    counters, the rows the globe map plots, its status and tracking-id
    filters, and the cleaning of the delay-reason KPI before charting. */
module Dashboard {
  import opened Tables
  import opened Seqs
  import opened Queries

  /** The status filter's catch-all choice, and the tracking filter's. */
  const All := "All"

  // ---------------------------------------------------------------------
  // Headline counters (frontend/app.py:194-198)
  // ---------------------------------------------------------------------

  /** One item of the delay-reason KPI as the dashboard receives it: either
      field may be missing. */
  datatype KpiItem = KpiItem(aiReason: Option<string>, count: Option<int>)

  /** The item the backend sends for one of its rows. */
  function KpiItemOf(row: DelayReasonKpi): KpiItem
  {
    KpiItem(Some(row.aiReason), Some(row.count))
  }

  /** `item.get("count", 0)`. */
  function CountOrZero(item: KpiItem): int
  {
    item.count.GetOr(0)
  }

  function SumCounts(items: seq<KpiItem>): int
  {
    if |items| == 0 then 0 else SumCounts(items[..|items| - 1]) + CountOrZero(items[|items| - 1])
  }

  datatype Counters = Counters(totalShipments: int, delayedShipments: int, onTimeShipments: int, totalDelays: int)

  /** The four metrics: shipments on the map, shipments at risk, the
      difference floored at zero, and the sum of the reported delay counts. */
  function ComputeCounters(live: seq<LiveLocation>, atRisk: seq<Shipment>, kpi: seq<KpiItem>): (c: Counters)
    ensures c.totalShipments == |live| && c.delayedShipments == |atRisk|
    ensures c.onTimeShipments >= 0
    ensures c.onTimeShipments <= c.totalShipments
    ensures c.onTimeShipments + c.delayedShipments >= c.totalShipments
    ensures c.delayedShipments <= c.totalShipments ==> c.onTimeShipments + c.delayedShipments == c.totalShipments
    ensures c.delayedShipments >= c.totalShipments ==> c.onTimeShipments == 0
    ensures c.totalDelays == SumCounts(kpi)
  {
    var total := |live|;
    var delayed := |atRisk|;
    Counters(total, delayed, if total - delayed > 0 then total - delayed else 0, SumCounts(kpi))
  }

  /** An item without a count adds nothing to the total. */
  lemma SumCountsSkipsMissing(items: seq<KpiItem>, reason: Option<string>)
    ensures SumCounts(items + [KpiItem(reason, None)]) == SumCounts(items)
  {
    assert (items + [KpiItem(reason, None)])[..|items|] == items;
  }

  lemma {:induction false} SumCountsOfRows(rows: seq<DelayReasonKpi>)
    ensures SumCounts(Map(rows, KpiItemOf)) == KpiTotal(rows)
  {
    if |rows| > 0 {
      var n := |rows| - 1;
      SumCountsOfRows(rows[..n]);
      assert Map(rows, KpiItemOf)[..n] == Map(rows[..n], KpiItemOf);
    }
  }

  /** Fed the backend's delay-reason KPI, "Total Delay Incidents" is the
      number of events classified "Delayed". */
  lemma TotalDelaysCountsDelayedEvents(live: seq<LiveLocation>, atRisk: seq<Shipment>, events: seq<ShipmentEvent>)
    ensures ComputeCounters(live, atRisk, Map(DelayReasons(events), KpiItemOf)).totalDelays == |Filter(events, IsDelayed)|
  {
    SumCountsOfRows(DelayReasons(events));
  }

  // ---------------------------------------------------------------------
  // Map rows and filters (frontend/app.py:216, 231-242)
  // ---------------------------------------------------------------------

  predicate HasCoordinates(row: LiveLocation)
  {
    row.latitude.Some? && row.longitude.Some?
  }

  /** `dropna(subset=['latitude', 'longitude'])`. */
  function MapRows(live: seq<LiveLocation>): (r: seq<LiveLocation>)
    ensures forall i :: 0 <= i < |r| ==> r[i].latitude.Some? && r[i].longitude.Some?
    ensures forall i :: 0 <= i < |live| && live[i].latitude.Some? && live[i].longitude.Some? ==> live[i] in r
    ensures IsSubsequence(r, live)
    ensures forall x :: Count(r, x) == if HasCoordinates(x) then Count(live, x) else 0
  {
    forall x ensures Count(Filter(live, HasCoordinates), x) == if HasCoordinates(x) then Count(live, x) else 0 {
      FilterCount(live, HasCoordinates, x);
    }
    Filter(live, HasCoordinates)
  }

  /** Every point plotted from the live-location endpoint has non-zero
      coordinates, since the endpoint turns zero into None. */
  lemma MapRowsNonZero(shipments: seq<Shipment>, events: seq<ShipmentEvent>)
    ensures var r := MapRows(LiveLocations(shipments, events));
      forall i :: 0 <= i < |r| ==> r[i].latitude.value != 0 && r[i].longitude.value != 0
  {
    var live := LiveLocations(shipments, events);
    var r := MapRows(live);
    forall i | 0 <= i < |r| ensures r[i].latitude.value != 0 && r[i].longitude.value != 0 {
      var j :| 0 <= j < |live| && live[j] == r[i];
    }
  }

  /** The row test the status multiselect applies once neither "All" nor an
      empty selection switches it off. With "Unknown" selected, NULL
      statuses pass, as do the other selected statuses; a literal "Unknown"
      status does not. */
  predicate StatusSelected(selection: seq<string>, status: Option<string>)
  {
    if Unknown in selection then
      status.None? || (status.value in selection && status.value != Unknown)
    else
      status.Some? && status.value in selection
  }

  /** The row passes the status multiselect, whether or not it is active. */
  predicate StatusPasses(selection: seq<string>, row: LiveLocation)
  {
    |selection| == 0 || All in selection || StatusSelected(selection, row.aiStatus)
  }

  /** The row passes the tracking-id select box. */
  predicate TrackingPasses(choice: string, row: LiveLocation)
  {
    choice == All || row.trackingId == choice
  }

  /** The status filter over the map rows. */
  function StatusFilter(rows: seq<LiveLocation>, selection: seq<string>): (r: seq<LiveLocation>)
    ensures |selection| == 0 || All in selection ==> r == rows
    ensures |selection| > 0 && All !in selection && Unknown in selection ==>
      && (forall i :: 0 <= i < |r| ==> r[i].aiStatus.None? || (r[i].aiStatus.value in selection && r[i].aiStatus.value != Unknown))
      && (forall i :: 0 <= i < |rows| && (rows[i].aiStatus.None? || (rows[i].aiStatus.value in selection && rows[i].aiStatus.value != Unknown)) ==> rows[i] in r)
    ensures |selection| > 0 && All !in selection && Unknown !in selection ==>
      && (forall i :: 0 <= i < |r| ==> r[i].aiStatus.Some? && r[i].aiStatus.value in selection)
      && (forall i :: 0 <= i < |rows| && rows[i].aiStatus.Some? && rows[i].aiStatus.value in selection ==> rows[i] in r)
    ensures IsSubsequence(r, rows)
    ensures forall x :: Count(r, x) == if StatusPasses(selection, x) then Count(rows, x) else 0
  {
    if |selection| == 0 || All in selection then
      SubsequenceRefl(rows);
      rows
    else
      var p := (row: LiveLocation) => StatusSelected(selection, row.aiStatus);
      forall x ensures Count(Filter(rows, p), x) == if StatusPasses(selection, x) then Count(rows, x) else 0 {
        FilterCount(rows, p, x);
      }
      Filter(rows, p)
  }

  /** The tracking-id select box. */
  function TrackingFilter(rows: seq<LiveLocation>, choice: string): (r: seq<LiveLocation>)
    ensures choice == All ==> r == rows
    ensures choice != All ==> forall i :: 0 <= i < |r| ==> r[i].trackingId == choice
    ensures choice != All ==> forall i :: 0 <= i < |rows| && rows[i].trackingId == choice ==> rows[i] in r
    ensures IsSubsequence(r, rows)
    ensures forall x :: Count(r, x) == if TrackingPasses(choice, x) then Count(rows, x) else 0
  {
    if choice == All then
      SubsequenceRefl(rows);
      rows
    else
      var p := (row: LiveLocation) => row.trackingId == choice;
      forall x ensures Count(Filter(rows, p), x) == if TrackingPasses(choice, x) then Count(rows, x) else 0 {
        FilterCount(rows, p, x);
      }
      Filter(rows, p)
  }

  /** The live row reaches the globe: it has both coordinates and passes
      both filters. */
  predicate Plotted(selection: seq<string>, choice: string, row: LiveLocation)
  {
    HasCoordinates(row) && StatusPasses(selection, row) && TrackingPasses(choice, row)
  }

  /** `r` holds every occurrence of each plotted live row and nothing else. */
  ghost predicate ShowsExactly(live: seq<LiveLocation>, selection: seq<string>, choice: string, r: seq<LiveLocation>)
  {
    forall x :: Count(r, x) == if Plotted(selection, choice, x) then Count(live, x) else 0
  }

  /** What the globe shows: map rows through both filters. Every live row
      that has both coordinates and passes both filters is shown as often as
      it occurs, and no other row is shown. */
  function PlottedRows(live: seq<LiveLocation>, selection: seq<string>, choice: string): (r: seq<LiveLocation>)
    ensures IsSubsequence(r, live)
    ensures forall i :: 0 <= i < |r| ==> r[i].latitude.Some? && r[i].longitude.Some?
    ensures ShowsExactly(live, selection, choice, r)
    ensures forall i :: 0 <= i < |live| ==> (live[i] in r <==> Plotted(selection, choice, live[i]))
  {
    var m := MapRows(live);
    var s := StatusFilter(m, selection);
    var r := TrackingFilter(s, choice);
    PlottedShape(live, m, s, r);
    PlottedCounts(live, selection, choice, m, s, r);
    PlottedMembers(live, selection, choice, r);
    r
  }

  /** Each filter deletes rows, so the composition does too, and the rows it
      keeps are map rows. */
  lemma PlottedShape(live: seq<LiveLocation>, m: seq<LiveLocation>, s: seq<LiveLocation>, r: seq<LiveLocation>)
    requires IsSubsequence(m, live) && IsSubsequence(s, m) && IsSubsequence(r, s)
    requires forall i :: 0 <= i < |m| ==> HasCoordinates(m[i])
    ensures IsSubsequence(r, live)
    ensures forall i :: 0 <= i < |r| ==> r[i].latitude.Some? && r[i].longitude.Some?
  {
    SubsequenceTrans(s, m, live);
    SubsequenceTrans(r, s, live);
    SubsequenceTrans(r, s, m);
    SubsequenceMembers(r, m);
    forall i | 0 <= i < |r| ensures HasCoordinates(r[i]) {
      assert r[i] in r;
      assert r[i] in m;
    }
  }

  /** The three row tests compose: a row's occurrences survive all of them
      exactly when it passes each one. */
  lemma PlottedCounts(live: seq<LiveLocation>, selection: seq<string>, choice: string,
                      m: seq<LiveLocation>, s: seq<LiveLocation>, r: seq<LiveLocation>)
    requires m == MapRows(live) && s == StatusFilter(m, selection) && r == TrackingFilter(s, choice)
    ensures ShowsExactly(live, selection, choice, r)
  {
    forall x ensures Count(r, x) == if Plotted(selection, choice, x) then Count(live, x) else 0 {
      assert Count(m, x) == if HasCoordinates(x) then Count(live, x) else 0;
      assert Count(s, x) == if StatusPasses(selection, x) then Count(m, x) else 0;
    }
  }

  /** A live row is shown exactly when it passes, because a passing row
      keeps its positive occurrence count. */
  lemma PlottedMembers(live: seq<LiveLocation>, selection: seq<string>, choice: string, r: seq<LiveLocation>)
    requires ShowsExactly(live, selection, choice, r)
    ensures forall i :: 0 <= i < |live| ==> (live[i] in r <==> Plotted(selection, choice, live[i]))
  {
    forall i | 0 <= i < |live| ensures live[i] in r <==> Plotted(selection, choice, live[i]) {
      CountZero(live, live[i]);
      CountZero(r, live[i]);
    }
  }

  /** With both filters on "All" the globe shows every map row. */
  lemma PlottedRowsUnfiltered(live: seq<LiveLocation>)
    ensures PlottedRows(live, [All], All) == MapRows(live)
  {
  }

  /** Applying a status filter a second time removes nothing more. */
  lemma {:induction false} StatusFilterIdempotent(rows: seq<LiveLocation>, selection: seq<string>)
    ensures StatusFilter(StatusFilter(rows, selection), selection) == StatusFilter(rows, selection)
  {
    if |selection| > 0 && All !in selection {
      var p := (row: LiveLocation) => StatusSelected(selection, row.aiStatus);
      var r := StatusFilter(rows, selection);
      assert forall x :: x in r ==> p(x);
      FilterAll(r, p);
    }
  }

  // ---------------------------------------------------------------------
  // Delay-reason chart cleaning (frontend/app.py:360-363)
  // ---------------------------------------------------------------------

  /** `fillna("Unknown")` on the reason and `to_numeric(...).fillna(0)` on
      the count. */
  function Normalize(item: KpiItem): KpiItem
  {
    KpiItem(Some(item.aiReason.GetOr(Unknown)), Some(item.count.GetOr(0)))
  }

  /** Survives both row filters: the reason (after filling) is not "N/A"
      and the count (after filling) is positive. */
  predicate Charted(item: KpiItem)
  {
    item.aiReason.GetOr(Unknown) != NotApplicable && item.count.GetOr(0) > 0
  }

  /** `row` is the filled form of one of `items`. */
  ghost predicate FilledFrom(items: seq<KpiItem>, row: KpiItem)
  {
    exists j :: 0 <= j < |items| && row == Normalize(items[j])
  }

  /** The cleaned chart data: null reasons read "Unknown", "N/A" rows and
      rows whose count is missing or not positive are dropped. The survivors
      keep their order and multiplicity. */
  function CleanKpi(items: seq<KpiItem>): (r: seq<KpiItem>)
    ensures forall i :: 0 <= i < |r| ==>
      && r[i].aiReason.Some? && r[i].aiReason.value != NotApplicable
      && r[i].count.Some? && r[i].count.value > 0
    ensures forall i :: 0 <= i < |r| ==> FilledFrom(items, r[i])
    ensures forall i :: 0 <= i < |items| && items[i].aiReason == None && items[i].count.GetOr(0) > 0 ==>
      KpiItem(Some(Unknown), items[i].count) in r
    ensures forall i :: 0 <= i < |items| && items[i].aiReason.Some? && items[i].aiReason.value != NotApplicable && items[i].count.GetOr(0) > 0 ==>
      items[i] in r
    ensures |r| == |Filter(items, Charted)|
    ensures IsSubsequence(r, Map(items, Normalize))
  {
    var kept := Filter(items, Charted);
    var r := Map(kept, Normalize);
    CleanKpiWitnesses(items, kept, r);
    MapSubsequence(kept, items, Normalize);
    r
  }

  lemma CleanKpiSources(items: seq<KpiItem>, kept: seq<KpiItem>, r: seq<KpiItem>)
    requires kept == Filter(items, Charted)
    requires r == Map(kept, Normalize)
    ensures forall i :: 0 <= i < |r| ==> FilledFrom(items, r[i])
  {
    forall i | 0 <= i < |r| ensures FilledFrom(items, r[i]) {
      var j :| 0 <= j < |items| && items[j] == kept[i];
      assert r[i] == Normalize(items[j]);
    }
  }

  lemma CleanKpiKeeps(items: seq<KpiItem>, kept: seq<KpiItem>, r: seq<KpiItem>, i: nat) returns (j: nat)
    requires kept == Filter(items, Charted)
    requires r == Map(kept, Normalize)
    requires i < |items| && Charted(items[i])
    ensures j < |r| && r[j] == Normalize(items[i])
  {
    j :| 0 <= j < |kept| && kept[j] == items[i];
  }

  lemma CleanKpiWitnesses(items: seq<KpiItem>, kept: seq<KpiItem>, r: seq<KpiItem>)
    requires kept == Filter(items, Charted)
    requires r == Map(kept, Normalize)
    ensures forall i :: 0 <= i < |r| ==> FilledFrom(items, r[i])
    ensures forall i :: 0 <= i < |items| && items[i].aiReason == None && items[i].count.GetOr(0) > 0 ==>
      KpiItem(Some(Unknown), items[i].count) in r
    ensures forall i :: 0 <= i < |items| && items[i].aiReason.Some? && items[i].aiReason.value != NotApplicable && items[i].count.GetOr(0) > 0 ==>
      items[i] in r
  {
    CleanKpiSources(items, kept, r);
    forall i | 0 <= i < |items| && items[i].aiReason == None && items[i].count.GetOr(0) > 0
      ensures KpiItem(Some(Unknown), items[i].count) in r
    {
      var it := items[i];
      var j := CleanKpiKeeps(items, kept, r, i);
      assert it.count.Some? && it.count.GetOr(0) == it.count.value;
      assert it.aiReason.GetOr(Unknown) == Unknown;
      assert Normalize(it) == KpiItem(Some(Unknown), it.count);
    }
    forall i | 0 <= i < |items| && items[i].aiReason.Some? && items[i].aiReason.value != NotApplicable && items[i].count.GetOr(0) > 0
      ensures items[i] in r
    {
      var it := items[i];
      var j := CleanKpiKeeps(items, kept, r, i);
      assert it.count.Some? && it.count.GetOr(0) == it.count.value;
      assert it.aiReason.GetOr(Unknown) == it.aiReason.value;
      assert Normalize(it) == it;
    }
  }

  /** Cleaning already-clean data changes nothing. */
  lemma CleanKpiIdempotent(items: seq<KpiItem>)
    ensures CleanKpi(CleanKpi(items)) == CleanKpi(items)
  {
    var r := CleanKpi(items);
    assert forall x :: x in r ==> Charted(x);
    FilterAll(r, Charted);
    assert Map(r, Normalize) == r;
  }
}
