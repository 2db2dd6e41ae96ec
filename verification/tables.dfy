/** The two tables the whole system shares, `shipments` and
    `shipment_events`, as immutable rows, plus the identity counters of the
    database's serial primary keys. */
module Tables {

  datatype Option<T> = None | Some(value: T)
  {
    function GetOr(default: T): T
    {
      match this
      case Some(v) => v
      case None => default
    }
  }

  /** A latitude or longitude in degrees, scaled by 10^4 (every coordinate
      literal in the system has four decimals). */
  type Coord = int

  /** Seconds since 1970-01-01T00:00 on the naive clock the database uses. */
  type Instant = int

  /** The fixed status vocabulary. */
  const OnTime := "On Time"
  const Delayed := "Delayed"
  const Delivered := "Delivered"
  const CustomsIssue := "Customs Issue"
  const WeatherDelay := "Weather Delay"
  const PortCongestion := "Port Congestion"
  const NotApplicable := "N/A"
  const Unknown := "Unknown"

  /** The statuses a classified event is meant to carry. */
  predicate IsCategory(s: string)
  {
    s == OnTime || s == Delayed || s == Delivered
  }

  /** One row of `shipments`. */
  datatype Shipment = Shipment(
    id: nat,
    trackingId: string,
    origin: Option<string>,
    destination: Option<string>)

  /** One row of `shipment_events`. */
  datatype ShipmentEvent = ShipmentEvent(
    id: nat,
    shipmentId: nat,
    timestamp: Instant,
    location: Option<string>,
    rawStatusText: Option<string>,
    aiStatus: Option<string>,
    aiReason: Option<string>,
    latitude: Option<Coord>,
    longitude: Option<Coord>)

  /** The database: both tables in insertion order, and the next value each
      serial primary key will hand out. */
  datatype Store = Store(
    shipments: seq<Shipment>,
    events: seq<ShipmentEvent>,
    nextShipmentId: nat,
    nextEventId: nat)

  /** `TRUNCATE TABLE shipment_events, shipments RESTART IDENTITY`: both
      tables empty and both serials back at 1. */
  const EmptyStore := Store([], [], 1, 1)

  predicate HasShipment(shipments: seq<Shipment>, id: nat)
  {
    exists j :: 0 <= j < |shipments| && shipments[j].id == id
  }

  predicate HasTrackingId(shipments: seq<Shipment>, trackingId: string)
  {
    exists j :: 0 <= j < |shipments| && shipments[j].trackingId == trackingId
  }

  /** No two shipment rows share a tracking id. */
  ghost predicate UniqueTrackingIds(shipments: seq<Shipment>)
  {
    forall i, j :: 0 <= i < j < |shipments| ==> shipments[i].trackingId != shipments[j].trackingId
  }

  ghost predicate ShipmentIdsAscending(shipments: seq<Shipment>)
  {
    forall i, j :: 0 <= i < j < |shipments| ==> shipments[i].id < shipments[j].id
  }

  ghost predicate EventIdsAscending(events: seq<ShipmentEvent>)
  {
    forall i, j :: 0 <= i < j < |events| ==> events[i].id < events[j].id
  }

  /** What the schema and the serial keys guarantee of every reachable
      database: ids ascend in insertion order and stay below the next serial
      value, and every event's `shipment_id` names an existing shipment. */
  ghost predicate WellFormed(st: Store)
  {
    && ShipmentIdsAscending(st.shipments)
    && EventIdsAscending(st.events)
    && (forall i :: 0 <= i < |st.shipments| ==> st.shipments[i].id < st.nextShipmentId)
    && (forall i :: 0 <= i < |st.events| ==> st.events[i].id < st.nextEventId)
    && (forall i :: 0 <= i < |st.events| ==> HasShipment(st.shipments, st.events[i].shipmentId))
  }

  /** `INSERT INTO shipments ... RETURNING id`: appends a row under the next
      serial id and returns that id. */
  function InsertShipment(st: Store, trackingId: string, origin: Option<string>, destination: Option<string>): (r: (Store, nat))
    ensures r.1 == st.nextShipmentId
    ensures r.0.shipments == st.shipments + [Shipment(r.1, trackingId, origin, destination)]
    ensures r.0.events == st.events && r.0.nextEventId == st.nextEventId
    ensures r.0.nextShipmentId == st.nextShipmentId + 1
    ensures WellFormed(st) ==> WellFormed(r.0)
  {
    var id := st.nextShipmentId;
    var r0 := st.(shipments := st.shipments + [Shipment(id, trackingId, origin, destination)], nextShipmentId := id + 1);
    assert forall i :: 0 <= i < |st.events| && HasShipment(st.shipments, st.events[i].shipmentId) ==> HasShipment(r0.shipments, st.events[i].shipmentId) by {
      forall i | 0 <= i < |st.events| && HasShipment(st.shipments, st.events[i].shipmentId)
        ensures HasShipment(r0.shipments, st.events[i].shipmentId)
      {
        var j :| 0 <= j < |st.shipments| && st.shipments[j].id == st.events[i].shipmentId;
        assert r0.shipments[j] == st.shipments[j];
      }
    }
    (r0, id)
  }

  /** `INSERT INTO shipment_events ...`: appends `e` under the next serial id
      (the id `e` carries is ignored). */
  function InsertEvent(st: Store, e: ShipmentEvent): (r: Store)
    ensures r.events == st.events + [e.(id := st.nextEventId)]
    ensures r.shipments == st.shipments && r.nextShipmentId == st.nextShipmentId
    ensures r.nextEventId == st.nextEventId + 1
    ensures WellFormed(st) && HasShipment(st.shipments, e.shipmentId) ==> WellFormed(r)
  {
    st.(events := st.events + [e.(id := st.nextEventId)], nextEventId := st.nextEventId + 1)
  }
}
