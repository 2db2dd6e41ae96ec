/** The bulk loader of worker/seed_database.py: empties both tables, then for
    every generated record finds or creates its shipment by tracking id and
    inserts the record's already-classified event. */
module Seed {
  import opened Tables
  import opened MockData

  // ---------------------------------------------------------------------
  // Find-or-create (worker/seed_database.py:31-41)
  // ---------------------------------------------------------------------

  /** `SELECT id FROM shipments WHERE tracking_id = %s` followed by
      `fetchone()`: the position of the first matching row, if any. */
  function FindShipment(shipments: seq<Shipment>, trackingId: string): (r: Option<nat>)
    ensures r.Some? <==> HasTrackingId(shipments, trackingId)
    ensures r.Some? ==> r.value < |shipments| && shipments[r.value].trackingId == trackingId
    ensures r.Some? ==> forall j :: 0 <= j < r.value ==> shipments[j].trackingId != trackingId
  {
    if |shipments| == 0 then None
    else if shipments[0].trackingId == trackingId then Some(0)
    else
      match FindShipment(shipments[1..], trackingId)
      case None => None
      case Some(k) => Some(k + 1)
  }

  /** Appending a row never changes where an existing tracking id is found. */
  lemma {:induction false} FindShipmentAppend(shipments: seq<Shipment>, s: Shipment, trackingId: string)
    requires HasTrackingId(shipments, trackingId)
    ensures FindShipment(shipments + [s], trackingId) == FindShipment(shipments, trackingId)
  {
    if shipments[0].trackingId != trackingId {
      var j :| 0 <= j < |shipments| && shipments[j].trackingId == trackingId;
      assert shipments[1..][j - 1] == shipments[j];
      FindShipmentAppend(shipments[1..], s, trackingId);
      assert (shipments + [s])[1..] == shipments[1..] + [s];
    }
  }

  /** `upsert_shipment`: returns the id of the first row carrying
      `trackingId`, inserting a row with the given origin and destination
      (both "Unknown" unless supplied) when there is none. */
  function UpsertShipment(st: Store, trackingId: string, origin: string := Unknown, destination: string := Unknown): (r: (Store, nat))
    ensures HasTrackingId(st.shipments, trackingId) ==>
      r.0 == st && r.1 == st.shipments[FindShipment(st.shipments, trackingId).value].id
    ensures !HasTrackingId(st.shipments, trackingId) ==>
      && r.0.shipments == st.shipments + [Shipment(st.nextShipmentId, trackingId, Some(origin), Some(destination))]
      && r.0.events == st.events
      && r.0.nextShipmentId == st.nextShipmentId + 1
      && r.0.nextEventId == st.nextEventId
      && r.1 == st.nextShipmentId
    ensures FindShipment(r.0.shipments, trackingId).Some?
    ensures r.0.shipments[FindShipment(r.0.shipments, trackingId).value].id == r.1
    ensures |st.shipments| <= |r.0.shipments| <= |st.shipments| + 1
    ensures r.0.shipments[..|st.shipments|] == st.shipments
    ensures WellFormed(st) ==> WellFormed(r.0)
    ensures UniqueTrackingIds(st.shipments) ==> UniqueTrackingIds(r.0.shipments)
  {
    match FindShipment(st.shipments, trackingId)
    case Some(j) => (st, st.shipments[j].id)
    case None =>
      var r := InsertShipment(st, trackingId, Some(origin), Some(destination));
      var n := |st.shipments|;
      assert r.0.shipments[n].trackingId == trackingId;
      assert FindShipment(r.0.shipments, trackingId) == Some(n);
      r
  }

  /** Upserting the same tracking id twice returns the same id, the second
      call changes nothing, the table grows by at most one row and stays free
      of duplicate tracking ids, and the row keeps the origin and destination
      it was first created with. */
  lemma UpsertTwice(st: Store, trackingId: string, origin1: string, destination1: string, origin2: string, destination2: string)
    requires UniqueTrackingIds(st.shipments)
    ensures var (st1, id1) := UpsertShipment(st, trackingId, origin1, destination1);
      var (st2, id2) := UpsertShipment(st1, trackingId, origin2, destination2);
      && id1 == id2
      && st2 == st1
      && |st2.shipments| <= |st.shipments| + 1
      && UniqueTrackingIds(st2.shipments)
      && var row := st2.shipments[FindShipment(st2.shipments, trackingId).value];
         if HasTrackingId(st.shipments, trackingId)
         then row == st.shipments[FindShipment(st.shipments, trackingId).value]
         else row.origin == Some(origin1) && row.destination == Some(destination1)
  {
    var (st1, id1) := UpsertShipment(st, trackingId, origin1, destination1);
    if !HasTrackingId(st.shipments, trackingId) {
      var n := |st.shipments|;
      assert st1.shipments[n].trackingId == trackingId;
      assert FindShipment(st1.shipments, trackingId) == Some(n);
    }
  }

  /** Leaving out origin and destination stores "Unknown" for both. */
  lemma UpsertDefaultsUnknown(st: Store, trackingId: string)
    requires !HasTrackingId(st.shipments, trackingId)
    ensures var (st1, id) := UpsertShipment(st, trackingId);
      var row := st1.shipments[|st1.shipments| - 1];
      row.id == id && row.trackingId == trackingId && row.origin == Some(Unknown) && row.destination == Some(Unknown)
  {
  }

  // ---------------------------------------------------------------------
  // Truncate-then-load (worker/seed_database.py:43-85)
  // ---------------------------------------------------------------------

  /** The event row `main` inserts for a record owned by `shipmentId`. */
  function RecordEvent(rec: MockRecord, shipmentId: nat): ShipmentEvent
  {
    ShipmentEvent(0, shipmentId, rec.timestamp, Some(rec.location), Some(rec.rawStatusText),
      Some(rec.aiStatus), Some(rec.aiReason), Some(rec.latitude), Some(rec.longitude))
  }

  /** Every column the record supplies arrives unchanged in the event. */
  predicate CopiesRecord(e: ShipmentEvent, rec: MockRecord)
  {
    && e.timestamp == rec.timestamp
    && e.location == Some(rec.location)
    && e.rawStatusText == Some(rec.rawStatusText)
    && e.aiStatus == Some(rec.aiStatus)
    && e.aiReason == Some(rec.aiReason)
    && e.latitude == Some(rec.latitude)
    && e.longitude == Some(rec.longitude)
  }

  /** The event's owner is the shipment row carrying `trackingId`. */
  predicate BelongsTo(shipments: seq<Shipment>, e: ShipmentEvent, trackingId: string)
  {
    var f := FindShipment(shipments, trackingId);
    f.Some? && shipments[f.value].id == e.shipmentId
  }

  /** The shipment row for `rec.shipid` carries `rec`'s origin and destination. */
  predicate KeepsRoute(shipments: seq<Shipment>, rec: MockRecord)
  {
    var f := FindShipment(shipments, rec.shipid);
    f.Some? && shipments[f.value].origin == Some(rec.origin) && shipments[f.value].destination == Some(rec.destination)
  }

  /** Record `i` is the first with its ship id. */
  ghost predicate FirstOccurrence(records: seq<MockRecord>, i: nat)
    requires i < |records|
  {
    forall k :: 0 <= k < i ==> records[k].shipid != records[i].shipid
  }

  ghost function TrackingIds(shipments: seq<Shipment>): set<string>
  {
    set j | 0 <= j < |shipments| :: shipments[j].trackingId
  }

  ghost function ShipIds(records: seq<MockRecord>): set<string>
  {
    set k | 0 <= k < |records| :: records[k].shipid
  }

  /** Without duplicate tracking ids there is one row per tracking id. */
  lemma {:induction false} UniqueTrackingIdsCount(shipments: seq<Shipment>)
    requires UniqueTrackingIds(shipments)
    ensures |TrackingIds(shipments)| == |shipments|
  {
    if |shipments| > 0 {
      var n := |shipments| - 1;
      var prefix := shipments[..n];
      assert UniqueTrackingIds(prefix);
      UniqueTrackingIdsCount(prefix);
      assert TrackingIds(shipments) == TrackingIds(prefix) + {shipments[n].trackingId} by {
        forall t | t in TrackingIds(shipments) ensures t in TrackingIds(prefix) + {shipments[n].trackingId} {
          var j :| 0 <= j < |shipments| && shipments[j].trackingId == t;
          if j < n {
            assert prefix[j] == shipments[j];
          }
        }
        forall t | t in TrackingIds(prefix) ensures t in TrackingIds(shipments) {
          var j :| 0 <= j < n && prefix[j].trackingId == t;
          assert shipments[j] == prefix[j];
        }
      }
      assert shipments[n].trackingId !in TrackingIds(prefix);
    }
  }

  /** `main`: `TRUNCATE ... RESTART IDENTITY`, then upsert each record's
      shipment and insert its event, counting the inserts. Only the path on
      which no insert fails is modelled. */
  method SeedDatabase(records: seq<MockRecord>) returns (st: Store, count: nat)
    ensures count == |records|
    ensures |st.events| == |records|
    ensures WellFormed(st) && UniqueTrackingIds(st.shipments)
    ensures TrackingIds(st.shipments) == ShipIds(records)
    ensures |st.shipments| == |ShipIds(records)|
    ensures forall i :: 0 <= i < |records| ==>
      CopiesRecord(st.events[i], records[i]) && BelongsTo(st.shipments, st.events[i], records[i].shipid)
    ensures forall i :: 0 <= i < |records| && FirstOccurrence(records, i) ==> KeepsRoute(st.shipments, records[i])
  {
    st := EmptyStore;
    count := 0;
    var i := 0;
    while i < |records|
      invariant 0 <= i <= |records|
      invariant count == i && |st.events| == i
      invariant WellFormed(st) && UniqueTrackingIds(st.shipments)
      invariant TrackingIds(st.shipments) == ShipIds(records[..i])
      invariant forall k :: 0 <= k < i ==>
        CopiesRecord(st.events[k], records[k]) && BelongsTo(st.shipments, st.events[k], records[k].shipid)
      invariant forall k :: 0 <= k < i && FirstOccurrence(records, k) ==> KeepsRoute(st.shipments, records[k])
    {
      var rec := records[i];
      var (st1, shipmentId) := UpsertShipment(st, rec.shipid, rec.origin, rec.destination);
      LoadStep(st, st1, records, i);
      var st2 := InsertEvent(st1, RecordEvent(rec, shipmentId));
      InsertStep(st1, shipmentId, st2, records, i);
      st := st2;
      count := count + 1;
      i := i + 1;
    }
    assert records[..i] == records;
    UniqueTrackingIdsCount(st.shipments);
  }

  lemma ShipIdsSnoc(records: seq<MockRecord>, i: nat)
    requires i < |records|
    ensures ShipIds(records[..i + 1]) == ShipIds(records[..i]) + {records[i].shipid}
  {
    var a := records[..i];
    var b := records[..i + 1];
    forall t | t in ShipIds(b) ensures t in ShipIds(a) + {records[i].shipid} {
      var k :| 0 <= k < i + 1 && b[k].shipid == t;
      if k < i {
        assert a[k] == b[k];
      }
    }
    forall t | t in ShipIds(a) ensures t in ShipIds(b) {
      var k :| 0 <= k < i && a[k].shipid == t;
      assert b[k] == a[k];
    }
  }

  lemma TrackingIdsSnoc(shipments: seq<Shipment>, s: Shipment)
    ensures TrackingIds(shipments + [s]) == TrackingIds(shipments) + {s.trackingId}
  {
    var b := shipments + [s];
    forall t | t in TrackingIds(b) ensures t in TrackingIds(shipments) + {s.trackingId} {
      var j :| 0 <= j < |b| && b[j].trackingId == t;
      if j < |shipments| {
        assert shipments[j] == b[j];
      }
    }
    forall t | t in TrackingIds(shipments) ensures t in TrackingIds(b) {
      var j :| 0 <= j < |shipments| && shipments[j].trackingId == t;
      assert b[j] == shipments[j];
    }
    assert b[|shipments|] == s;
  }

  /** One upsert of the loader keeps what the loop has established so far
      and establishes it for record `i`. */
  lemma LoadStep(st: Store, st1: Store, records: seq<MockRecord>, i: nat)
    requires i < |records|
    requires UniqueTrackingIds(st.shipments)
    requires TrackingIds(st.shipments) == ShipIds(records[..i])
    requires st1 == UpsertShipment(st, records[i].shipid, records[i].origin, records[i].destination).0
    requires |st.events| == i
    requires forall k :: 0 <= k < i ==> BelongsTo(st.shipments, st.events[k], records[k].shipid)
    requires forall k :: 0 <= k < i && FirstOccurrence(records, k) ==> KeepsRoute(st.shipments, records[k])
    ensures st1.events == st.events
    ensures TrackingIds(st1.shipments) == ShipIds(records[..i + 1])
    ensures forall k :: 0 <= k < i ==> BelongsTo(st1.shipments, st.events[k], records[k].shipid)
    ensures forall k :: 0 <= k <= i && FirstOccurrence(records, k) ==> KeepsRoute(st1.shipments, records[k])
  {
    var rec := records[i];
    ShipIdsSnoc(records, i);
    if HasTrackingId(st.shipments, rec.shipid) {
      assert rec.shipid in TrackingIds(st.shipments) by {
        var j :| 0 <= j < |st.shipments| && st.shipments[j].trackingId == rec.shipid;
      }
      var k' :| 0 <= k' < i && records[..i][k'].shipid == rec.shipid;
      assert !FirstOccurrence(records, i) by {
        assert records[k'].shipid == rec.shipid;
      }
    } else {
      var s := Shipment(st.nextShipmentId, rec.shipid, Some(rec.origin), Some(rec.destination));
      assert st1.shipments == st.shipments + [s];
      TrackingIdsSnoc(st.shipments, s);
      forall k | 0 <= k < i ensures BelongsTo(st1.shipments, st.events[k], records[k].shipid) {
        FindShipmentAppend(st.shipments, s, records[k].shipid);
      }
      forall k | 0 <= k <= i && FirstOccurrence(records, k) ensures KeepsRoute(st1.shipments, records[k]) {
        if k < i {
          FindShipmentAppend(st.shipments, s, records[k].shipid);
        }
      }
    }
  }

  /** Inserting record `i`'s event under the shipment the upsert returned
      extends the loop's facts about events to record `i`. */
  lemma InsertStep(st1: Store, shipmentId: nat, st2: Store, records: seq<MockRecord>, i: nat)
    requires i < |records| && |st1.events| == i
    requires WellFormed(st1)
    requires FindShipment(st1.shipments, records[i].shipid).Some?
    requires st1.shipments[FindShipment(st1.shipments, records[i].shipid).value].id == shipmentId
    requires st2 == InsertEvent(st1, RecordEvent(records[i], shipmentId))
    requires forall k :: 0 <= k < i ==>
      CopiesRecord(st1.events[k], records[k]) && BelongsTo(st1.shipments, st1.events[k], records[k].shipid)
    ensures WellFormed(st2) && st2.shipments == st1.shipments && |st2.events| == i + 1
    ensures forall k :: 0 <= k <= i ==>
      CopiesRecord(st2.events[k], records[k]) && BelongsTo(st2.shipments, st2.events[k], records[k].shipid)
  {
    assert HasShipment(st1.shipments, shipmentId) by {
      var f := FindShipment(st1.shipments, records[i].shipid).value;
      assert st1.shipments[f].id == shipmentId;
    }
    forall k | 0 <= k <= i
      ensures CopiesRecord(st2.events[k], records[k]) && BelongsTo(st2.shipments, st2.events[k], records[k].shipid)
    {
      if k < i {
        assert st2.events[k] == st1.events[k];
      }
    }
  }

  /** Records with pairwise different ship ids name as many shipments as
      there are records. */
  lemma {:induction false} DistinctShipIdsCount(records: seq<MockRecord>)
    requires forall i, j :: 0 <= i < j < |records| ==> records[i].shipid != records[j].shipid
    ensures |ShipIds(records)| == |records|
  {
    if |records| > 0 {
      var n := |records| - 1;
      var prefix := records[..n];
      DistinctShipIdsCount(prefix);
      ShipIdsSnoc(records, n);
      assert records[..n + 1] == records;
      forall t | t in ShipIds(prefix) ensures t != records[n].shipid {
        var k :| 0 <= k < n && prefix[k].shipid == t;
        assert prefix[k] == records[k];
      }
    }
  }

  /** Seeding the generator's corpus creates one shipment per record: the
      generated ship ids never repeat. */
  lemma SeedingGeneratedCorpus(draw: nat -> Draw, numRecords: nat)
    ensures |ShipIds(GenerateRealisticData(draw, numRecords))| == numRecords
  {
    DistinctShipIdsCount(GenerateRealisticData(draw, numRecords));
  }
}
