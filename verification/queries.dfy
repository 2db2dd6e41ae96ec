/** The three read-only endpoints of backend/main.py, as pure functions over
    the two tables. SQL result order is modelled as table order. */
module Queries {
  import opened Tables
  import opened Seqs

  predicate IsDelayed(e: ShipmentEvent)
  {
    e.aiStatus == Some(Delayed)
  }

  // ---------------------------------------------------------------------
  // GROUP BY with count(*) (backend/main.py:33-38)
  // ---------------------------------------------------------------------

  /** One group of a `GROUP BY ai_reason`: the shared key (NULL is a key of
      its own) and the number of rows carrying it. */
  datatype Group = Group(key: Option<string>, count: nat)

  predicate HasKey(groups: seq<Group>, k: Option<string>)
  {
    exists j :: 0 <= j < |groups| && groups[j].key == k
  }

  /** Position of the group with key `k`, if any. */
  function KeyIndex(groups: seq<Group>, k: Option<string>): (r: Option<nat>)
    ensures r.Some? <==> HasKey(groups, k)
    ensures r.Some? ==> r.value < |groups| && groups[r.value].key == k
  {
    if |groups| == 0 then None
    else if groups[|groups| - 1].key == k then Some(|groups| - 1)
    else
      var r := KeyIndex(groups[..|groups| - 1], k);
      assert forall j :: 0 <= j < |groups| - 1 ==> groups[..|groups| - 1][j] == groups[j];
      r
  }

  /** Sum of the group counts. */
  function Total(groups: seq<Group>): nat
  {
    if |groups| == 0 then 0 else Total(groups[..|groups| - 1]) + groups[|groups| - 1].count
  }

  lemma {:induction false} TotalUpdate(groups: seq<Group>, j: nat, c: nat)
    requires j < |groups|
    ensures Total(groups[j := groups[j].(count := c)]) + groups[j].count == Total(groups) + c
  {
    var n := |groups| - 1;
    var u := groups[j := groups[j].(count := c)];
    assert u[..n] == if j == n then groups[..n] else groups[..n][j := groups[j].(count := c)];
    if j < n {
      TotalUpdate(groups[..n], j, c);
    }
  }

  /** `groups` is the grouping of `keys`: one group per distinct key, each
      counting that key's occurrences, the counts adding up to `|keys|`. */
  ghost predicate Tallies(keys: seq<Option<string>>, groups: seq<Group>)
  {
    && (forall i :: 0 <= i < |groups| ==> groups[i].count == Count(keys, groups[i].key) && groups[i].count >= 1)
    && (forall i, j :: 0 <= i < j < |groups| ==> groups[i].key != groups[j].key)
    && (forall i :: 0 <= i < |keys| ==> HasKey(groups, keys[i]))
    && (forall i :: 0 <= i < |groups| ==> groups[i].key in keys)
    && Total(groups) == |keys|
  }

  /** Groups the keys the way `GROUP BY` with `count()` does: one group per
      distinct key, each counting the key's occurrences. */
  function GroupCount(keys: seq<Option<string>>): (groups: seq<Group>)
    ensures forall i :: 0 <= i < |groups| ==> groups[i].count == Count(keys, groups[i].key)
    ensures forall i :: 0 <= i < |groups| ==> groups[i].count >= 1
    ensures forall i, j :: 0 <= i < j < |groups| ==> groups[i].key != groups[j].key
    ensures forall i :: 0 <= i < |keys| ==> HasKey(groups, keys[i])
    ensures forall i :: 0 <= i < |groups| ==> groups[i].key in keys
    ensures Total(groups) == |keys|
  {
    if |keys| == 0 then []
    else
      var n := |keys| - 1;
      var prev := GroupCount(keys[..n]);
      assert Tallies(keys[..n], prev);
      match KeyIndex(prev, keys[n])
      case Some(j) =>
        TallyExisting(keys, prev, j);
        prev[j := prev[j].(count := prev[j].count + 1)]
      case None =>
        TallyNew(keys, prev);
        prev + [Group(keys[n], 1)]
  }

  /** Counting one more occurrence of a key that already has a group. */
  lemma TallyExisting(keys: seq<Option<string>>, prev: seq<Group>, j: nat)
    requires |keys| > 0
    requires Tallies(keys[..|keys| - 1], prev)
    requires j < |prev| && prev[j].key == keys[|keys| - 1]
    ensures Tallies(keys, prev[j := prev[j].(count := prev[j].count + 1)])
  {
    var n := |keys| - 1;
    var r := prev[j := prev[j].(count := prev[j].count + 1)];
    assert keys[..n] + [keys[n]] == keys;
    assert forall i :: 0 <= i < n ==> keys[..n][i] == keys[i];
    TotalUpdate(prev, j, prev[j].count + 1);
    forall i | 0 <= i < |keys| ensures HasKey(r, keys[i]) {
      if i < n {
        assert HasKey(prev, keys[..n][i]);
        var a :| 0 <= a < |prev| && prev[a].key == keys[i];
        assert r[a].key == keys[i];
      } else {
        assert r[j].key == keys[i];
      }
    }
  }

  /** Counting the first occurrence of a key opens a group for it. */
  lemma TallyNew(keys: seq<Option<string>>, prev: seq<Group>)
    requires |keys| > 0
    requires Tallies(keys[..|keys| - 1], prev)
    requires !HasKey(prev, keys[|keys| - 1])
    ensures Tallies(keys, prev + [Group(keys[|keys| - 1], 1)])
  {
    var n := |keys| - 1;
    var k := keys[n];
    var r := prev + [Group(k, 1)];
    assert keys[..n] + [k] == keys;
    assert forall i :: 0 <= i < n ==> keys[..n][i] == keys[i];
    assert Count(keys[..n], k) == 0 by {
      CountZero(keys[..n], k);
    }
    assert r[..|prev|] == prev;
    forall i | 0 <= i < |keys| ensures HasKey(r, keys[i]) {
      if i < n {
        assert HasKey(prev, keys[..n][i]);
        var a :| 0 <= a < |prev| && prev[a].key == keys[i];
        assert r[a].key == keys[i];
      } else {
        assert r[|prev|].key == keys[i];
      }
    }
  }

  // ---------------------------------------------------------------------
  // get_delay_reasons (backend/main.py:30-39)
  // ---------------------------------------------------------------------

  /** One row of the delay-reason KPI. */
  datatype DelayReasonKpi = DelayReasonKpi(aiReason: string, count: nat)

  /** `reason if reason else "N/A"`: NULL and the empty string both read "N/A". */
  function ReasonLabel(reason: Option<string>): (shown: string)
    ensures shown != ""
    ensures reason.Some? && reason.value != "" ==> shown == reason.value
    ensures reason == None || reason == Some("") ==> shown == NotApplicable
  {
    match reason
    case Some(s) => if s == "" then NotApplicable else s
    case None => NotApplicable
  }

  /** The `ai_reason` column of the delayed events, in table order. */
  function DelayedReasons(events: seq<ShipmentEvent>): (reasons: seq<Option<string>>)
    ensures |reasons| == |Filter(events, IsDelayed)|
  {
    Map(Filter(events, IsDelayed), (e: ShipmentEvent) => e.aiReason)
  }

  function KpiTotal(rows: seq<DelayReasonKpi>): nat
  {
    if |rows| == 0 then 0 else KpiTotal(rows[..|rows| - 1]) + rows[|rows| - 1].count
  }

  function GroupRow(g: Group): DelayReasonKpi
  {
    DelayReasonKpi(ReasonLabel(g.key), g.count)
  }

  lemma {:induction false} KpiTotalOfGroups(groups: seq<Group>)
    ensures KpiTotal(Map(groups, GroupRow)) == Total(groups)
  {
    if |groups| > 0 {
      var n := |groups| - 1;
      KpiTotalOfGroups(groups[..n]);
      assert Map(groups, GroupRow)[..n] == Map(groups[..n], GroupRow);
    }
  }

  /** `get_delay_reasons`: counts the delayed events per reason. Every row
      stands for at least one delayed event, every delayed event is counted
      under its reason's label, the counts add up to the number of delayed
      events, and the rows are one per distinct `ai_reason` value: they are
      the labelled image of a grouping of the delayed reasons. */
  function DelayReasons(events: seq<ShipmentEvent>): (r: seq<DelayReasonKpi>)
    ensures forall i :: 0 <= i < |r| ==> r[i].count >= 1 && r[i].aiReason != ""
    ensures forall i :: 0 <= i < |r| ==> CountsOneReason(DelayedReasons(events), r[i])
    ensures forall i :: 0 <= i < |events| && IsDelayed(events[i]) ==>
      exists j :: 0 <= j < |r| && r[j].aiReason == ReasonLabel(events[i].aiReason)
    ensures KpiTotal(r) == |Filter(events, IsDelayed)|
    ensures exists groups :: Tallies(DelayedReasons(events), groups) && r == Map(groups, GroupRow)
  {
    var groups := GroupCount(DelayedReasons(events));
    assert Tallies(DelayedReasons(events), groups);
    var r := Map(groups, GroupRow);
    KpiTotalOfGroups(groups);
    GroupRowsCount(DelayedReasons(events), groups, r);
    DelayedEventsHaveRow(events, groups, r);
    r
  }

  /** The row counts every occurrence of one `ai_reason` value and shows
      that value's label. */
  ghost predicate CountsOneReason(reasons: seq<Option<string>>, row: DelayReasonKpi)
  {
    exists k :: ReasonLabel(k) == row.aiReason && row.count == Count(reasons, k)
  }

  lemma GroupRowsCount(reasons: seq<Option<string>>, groups: seq<Group>, r: seq<DelayReasonKpi>)
    requires groups == GroupCount(reasons)
    requires r == Map(groups, GroupRow)
    ensures forall i :: 0 <= i < |r| ==> CountsOneReason(reasons, r[i])
  {
    forall i | 0 <= i < |r|
      ensures CountsOneReason(reasons, r[i])
    {
      var k := groups[i].key;
      assert ReasonLabel(k) == r[i].aiReason && r[i].count == Count(reasons, k);
    }
  }

  lemma DelayedEventsHaveRow(events: seq<ShipmentEvent>, groups: seq<Group>, r: seq<DelayReasonKpi>)
    requires groups == GroupCount(DelayedReasons(events))
    requires r == Map(groups, GroupRow)
    ensures forall i :: 0 <= i < |events| && IsDelayed(events[i]) ==>
      exists j :: 0 <= j < |r| && r[j].aiReason == ReasonLabel(events[i].aiReason)
  {
    var delayed := Filter(events, IsDelayed);
    var reasons := DelayedReasons(events);
    forall i | 0 <= i < |events| && IsDelayed(events[i])
      ensures exists j :: 0 <= j < |r| && r[j].aiReason == ReasonLabel(events[i].aiReason)
    {
      assert events[i] in delayed;
      var m :| 0 <= m < |delayed| && delayed[m] == events[i];
      assert reasons[m] == events[i].aiReason;
      assert HasKey(groups, reasons[m]);
      var j :| 0 <= j < |groups| && groups[j].key == reasons[m];
      assert r[j].aiReason == ReasonLabel(events[i].aiReason);
    }
  }

  /** Only delayed events are counted: appending an event that is not
      delayed leaves the KPI unchanged. */
  lemma DelayReasonsIgnoreOthers(events: seq<ShipmentEvent>, e: ShipmentEvent)
    requires !IsDelayed(e)
    ensures DelayReasons(events + [e]) == DelayReasons(events)
  {
    FilterSnocSkip(events, e, IsDelayed);
  }

  lemma {:induction false} FilterSnocSkip<T>(s: seq<T>, x: T, p: T -> bool)
    requires !p(x)
    ensures Filter(s + [x], p) == Filter(s, p)
  {
    if |s| == 0 {
      assert [x][1..] == [];
    } else {
      assert (s + [x])[1..] == s[1..] + [x];
      FilterSnocSkip(s[1..], x, p);
    }
  }

  // ---------------------------------------------------------------------
  // get_at_risk_shipments (backend/main.py:42-52)
  // ---------------------------------------------------------------------

  /** Some event of shipment `id` is marked "Delayed". */
  predicate HasDelayedEvent(events: seq<ShipmentEvent>, id: nat)
  {
    exists j :: 0 <= j < |events| && events[j].shipmentId == id && IsDelayed(events[j])
  }

  /** `get_at_risk_shipments`: the shipments whose id is among the
      `shipment_id`s of delayed events, in table order. */
  function AtRiskShipments(shipments: seq<Shipment>, events: seq<ShipmentEvent>): (r: seq<Shipment>)
    ensures forall i :: 0 <= i < |shipments| ==> (shipments[i] in r <==> HasDelayedEvent(events, shipments[i].id))
    ensures forall i :: 0 <= i < |r| ==> HasDelayedEvent(events, r[i].id)
    ensures IsSubsequence(r, shipments)
    ensures ShipmentIdsAscending(shipments) ==> ShipmentIdsAscending(r)
  {
    var r := Filter(shipments, (s: Shipment) => HasDelayedEvent(events, s.id));
    assert ShipmentIdsAscending(shipments) ==> ShipmentIdsAscending(r) by {
      if ShipmentIdsAscending(shipments) {
        var before := (a: Shipment, b: Shipment) => a.id < b.id;
        assert Pairwise(shipments, before);
        SubsequencePairwise(r, shipments, before);
      }
    }
    r
  }

  /** Being at risk does not depend on what happened later: once a shipment
      has a delayed event it stays in the result whatever events follow. */
  lemma AtRiskStaysAtRisk(shipments: seq<Shipment>, events: seq<ShipmentEvent>, later: seq<ShipmentEvent>, s: Shipment)
    requires s in AtRiskShipments(shipments, events)
    ensures s in AtRiskShipments(shipments, events + later)
  {
    var j :| 0 <= j < |events| && events[j].shipmentId == s.id && IsDelayed(events[j]);
    assert (events + later)[j] == events[j];
    SubsequenceMembers(AtRiskShipments(shipments, events), shipments);
  }

  // ---------------------------------------------------------------------
  // get_live_locations (backend/main.py:55-84)
  // ---------------------------------------------------------------------

  /** `ai_status IS NULL OR ai_status != 'Delivered'`. */
  predicate IsLive(e: ShipmentEvent)
  {
    e.aiStatus != Some(Delivered)
  }

  predicate HasLiveEvent(events: seq<ShipmentEvent>, id: nat)
  {
    exists j :: 0 <= j < |events| && events[j].shipmentId == id && IsLive(events[j])
  }

  /** The event `DISTINCT ON (s.id) ... ORDER BY s.id, e.timestamp DESC`
      keeps for shipment `id`: a live event of that shipment with the
      greatest timestamp (the first such in table order). */
  function LatestLive(events: seq<ShipmentEvent>, id: nat): (r: Option<ShipmentEvent>)
    ensures r.Some? <==> HasLiveEvent(events, id)
    ensures r.Some? ==> r.value in events && r.value.shipmentId == id && IsLive(r.value)
    ensures r.Some? ==> forall j :: 0 <= j < |events| && events[j].shipmentId == id && IsLive(events[j]) ==>
      events[j].timestamp <= r.value.timestamp
  {
    if |events| == 0 then None
    else
      var rest := LatestLive(events[1..], id);
      assert forall j :: 1 <= j < |events| ==> events[1..][j - 1] == events[j];
      var e := events[0];
      if e.shipmentId == id && IsLive(e) && (rest.None? || rest.value.timestamp <= e.timestamp) then Some(e)
      else rest
  }

  /** One row of the live-location endpoint. */
  datatype LiveLocation = LiveLocation(
    shipmentId: nat,
    trackingId: string,
    location: Option<string>,
    aiStatus: Option<string>,
    timestamp: Instant,
    latitude: Option<Coord>,
    longitude: Option<Coord>)

  /** `float(x) if x else None`: NULL and zero both become None. */
  function NonZero(c: Option<Coord>): (r: Option<Coord>)
    ensures r.Some? <==> c.Some? && c.value != 0
    ensures r.Some? ==> r == c
  {
    match c
    case Some(v) => if v == 0 then None else c
    case None => None
  }

  function LiveRow(s: Shipment, e: ShipmentEvent): LiveLocation
  {
    LiveLocation(s.id, s.trackingId, e.location, e.aiStatus, e.timestamp, NonZero(e.latitude), NonZero(e.longitude))
  }

  predicate HasRowFor(rows: seq<LiveLocation>, id: nat)
  {
    exists i :: 0 <= i < |rows| && rows[i].shipmentId == id
  }

  /** `get_live_locations`: for every shipment with a live event, one row
      built from its latest live event, coordinates passed through
      `NonZero`. */
  function LiveLocations(shipments: seq<Shipment>, events: seq<ShipmentEvent>): (r: seq<LiveLocation>)
    ensures |r| <= |shipments|
    ensures forall i :: 0 <= i < |r| ==> r[i].aiStatus != Some(Delivered)
    ensures forall i :: 0 <= i < |r| ==> r[i].latitude != Some(0) && r[i].longitude != Some(0)
    ensures forall i :: 0 <= i < |r| ==> IsLiveRow(shipments, events, r[i])
  {
    if |shipments| == 0 then []
    else
      var s := shipments[0];
      var rest := LiveLocations(shipments[1..], events);
      assert forall i :: 0 <= i < |rest| ==> IsLiveRow(shipments, events, rest[i]) by {
        forall i | 0 <= i < |rest| ensures IsLiveRow(shipments, events, rest[i]) {
          var a :| 0 <= a < |shipments[1..]| && LatestLive(events, shipments[1..][a].id).Some? &&
            rest[i] == LiveRow(shipments[1..][a], LatestLive(events, shipments[1..][a].id).value);
          assert shipments[a + 1] == shipments[1..][a];
        }
      }
      match LatestLive(events, s.id)
      case None =>
        rest
      case Some(e) =>
        [LiveRow(s, e)] + rest
  }

  /** `row` is one the query may produce: some shipment paired with its
      latest live event. */
  ghost predicate IsLiveRow(shipments: seq<Shipment>, events: seq<ShipmentEvent>, row: LiveLocation)
  {
    exists a :: 0 <= a < |shipments| && LatestLive(events, shipments[a].id).Some? &&
      row == LiveRow(shipments[a], LatestLive(events, shipments[a].id).value)
  }

  /** Each live row is the newest non-Delivered event of its shipment: no
      other non-Delivered event of that shipment is later. */
  lemma LiveRowIsLatest(shipments: seq<Shipment>, events: seq<ShipmentEvent>, i: nat, j: nat)
    requires i < |LiveLocations(shipments, events)|
    requires j < |events|
    requires events[j].shipmentId == LiveLocations(shipments, events)[i].shipmentId
    requires events[j].aiStatus != Some(Delivered)
    ensures events[j].timestamp <= LiveLocations(shipments, events)[i].timestamp
  {
    var row := LiveLocations(shipments, events)[i];
    assert IsLiveRow(shipments, events, row);
  }

  /** The shipment a live row was built from. */
  lemma LiveRowShipment(shipments: seq<Shipment>, events: seq<ShipmentEvent>, row: LiveLocation) returns (a: nat)
    requires IsLiveRow(shipments, events, row)
    ensures a < |shipments| && shipments[a].id == row.shipmentId && shipments[a].trackingId == row.trackingId
  {
    a :| 0 <= a < |shipments| && LatestLive(events, shipments[a].id).Some? &&
      row == LiveRow(shipments[a], LatestLive(events, shipments[a].id).value);
  }

  /** A shipment has a live row exactly when it has a non-Delivered event. */
  lemma {:induction false} LiveLocationsCover(shipments: seq<Shipment>, events: seq<ShipmentEvent>, j: nat)
    requires j < |shipments|
    ensures HasRowFor(LiveLocations(shipments, events), shipments[j].id) <==> HasLiveEvent(events, shipments[j].id)
  {
    var r := LiveLocations(shipments, events);
    var id := shipments[j].id;
    if HasRowFor(r, id) {
      var i :| 0 <= i < |r| && r[i].shipmentId == id;
      var a := LiveRowShipment(shipments, events, r[i]);
    }
    if HasLiveEvent(events, id) {
      var rest := LiveLocations(shipments[1..], events);
      if j == 0 {
        assert r[0].shipmentId == id;
      } else {
        assert shipments[1..][j - 1] == shipments[j];
        LiveLocationsCover(shipments[1..], events, j - 1);
        var i :| 0 <= i < |rest| && rest[i].shipmentId == id;
        if LatestLive(events, shipments[0].id).Some? {
          assert r[i + 1] == rest[i];
        } else {
          assert r[i] == rest[i];
        }
      }
    }
  }

  ghost predicate RowIdsAscending(rows: seq<LiveLocation>)
  {
    forall i, k :: 0 <= i < k < |rows| ==> rows[i].shipmentId < rows[k].shipmentId
  }

  /** The first shipment contributes at most one row, ahead of the rest. */
  lemma LiveLocationsStep(shipments: seq<Shipment>, events: seq<ShipmentEvent>)
    requires |shipments| > 0
    ensures var rest := LiveLocations(shipments[1..], events);
      LiveLocations(shipments, events) ==
        match LatestLive(events, shipments[0].id)
        case Some(e) => [LiveRow(shipments[0], e)] + rest
        case None => rest
  {
  }

  lemma RowIdsAscendingCons(row: LiveLocation, rest: seq<LiveLocation>)
    requires RowIdsAscending(rest)
    requires forall i :: 0 <= i < |rest| ==> row.shipmentId < rest[i].shipmentId
    ensures RowIdsAscending([row] + rest)
  {
    var r := [row] + rest;
    forall i, k | 0 <= i < k < |r| ensures r[i].shipmentId < r[k].shipmentId {
      assert r[k] == rest[k - 1];
      if i > 0 {
        assert r[i] == rest[i - 1];
      }
    }
  }

  /** Rows built from later shipments carry larger ids than the first. */
  lemma LaterRowsAbove(shipments: seq<Shipment>, events: seq<ShipmentEvent>)
    requires |shipments| > 0
    requires ShipmentIdsAscending(shipments)
    ensures var rest := LiveLocations(shipments[1..], events);
      forall i :: 0 <= i < |rest| ==> shipments[0].id < rest[i].shipmentId
  {
    var rest := LiveLocations(shipments[1..], events);
    forall i | 0 <= i < |rest| ensures shipments[0].id < rest[i].shipmentId {
      var a := LiveRowShipment(shipments[1..], events, rest[i]);
      assert shipments[a + 1] == shipments[1..][a];
    }
  }

  /** With shipment ids ascending in table order, the rows come out ordered
      by shipment id, so no shipment has two rows. */
  lemma {:induction false} LiveLocationsAscending(shipments: seq<Shipment>, events: seq<ShipmentEvent>)
    requires ShipmentIdsAscending(shipments)
    ensures RowIdsAscending(LiveLocations(shipments, events))
  {
    if |shipments| > 0 {
      var rest := LiveLocations(shipments[1..], events);
      assert ShipmentIdsAscending(shipments[1..]) by {
        assert forall a :: 0 <= a < |shipments| - 1 ==> shipments[1..][a] == shipments[a + 1];
      }
      LiveLocationsAscending(shipments[1..], events);
      LiveLocationsStep(shipments, events);
      match LatestLive(events, shipments[0].id)
      case Some(e) =>
        LaterRowsAbove(shipments, events);
        RowIdsAscendingCons(LiveRow(shipments[0], e), rest);
      case None =>
    }
  }
}
