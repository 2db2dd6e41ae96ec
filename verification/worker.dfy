/** The ingestion worker of worker/worker.py: one job appends an unclassified
    mock event per shipment, then back-fills every unclassified event from
    the zero-shot classifier, then commits. */
module Worker {
  import opened Tables
  import opened Seqs
  import opened Text

  // ---------------------------------------------------------------------
  // Mock event table (worker/worker.py:31-79)
  // ---------------------------------------------------------------------

  /** A status line with the place and coordinates it is reported from. */
  datatype MockEvent = MockEvent(status: string, location: string, lat: Coord, lon: Coord)

  const MockEvents: seq<MockEvent> := [
    MockEvent("Vessel delayed at port due to congestion.", "Port of Singapore", 12897, 1038501),
    MockEvent("On time, arrived at sorting facility.", "Los Angeles, CA", 340522, -1182437),
    MockEvent("Customs hold - incomplete paperwork.", "Newark, NJ", 407357, -741724),
    MockEvent("Departed from origin port.", "Hamburg, Germany", 535511, 99937),
    MockEvent("Weather delay - typhoon.", "Shanghai, China", 312304, 1214737),
    MockEvent("Trucking to final destination.", "Chicago, IL", 418781, -876298),
    MockEvent("Package delivered successfully.", "New York, USA", 407128, -740060)
  ]

  /** The outcome of `random.choice(events)`, supplied by the caller. */
  type MockIndex = i: nat | i < 7

  /** The event `generate_mock_event` yields for table row `k`. */
  function GenerateMockEvent(k: MockIndex): (m: MockEvent)
    ensures m in MockEvents
  {
    MockEvents[k]
  }

  /** The row the worker inserts: only shipment, location, raw text and
      coordinates are given, and both classification fields stay null. The
      INSERT leaves `timestamp` out, so the stored value is whatever the
      table supplies for a missing column (NULL unless the live table has a
      default); the model takes it as the free value `stamp`. */
  function MockEventRow(shipmentId: nat, m: MockEvent, stamp: Instant): ShipmentEvent
  {
    ShipmentEvent(0, shipmentId, stamp, Some(m.location), Some(m.status), None, None, Some(m.lat), Some(m.lon))
  }

  /** The event came from one row of the mock table, verbatim. */
  predicate IsMockEvent(e: ShipmentEvent)
  {
    && e.location.Some? && e.rawStatusText.Some? && e.latitude.Some? && e.longitude.Some?
    && MockEvent(e.rawStatusText.value, e.location.value, e.latitude.value, e.longitude.value) in MockEvents
  }

  // ---------------------------------------------------------------------
  // Ingestion (worker/worker.py:140-161)
  // ---------------------------------------------------------------------

  const DefaultTrackingId := "TRK1Z3"
  const DefaultOrigin := "Shanghai, China"
  const DefaultDestination := "New York, USA"

  /** Inserts one mock event for each id in `ids`, in order; the k-th draws
      table row `pick(k)`. */
  function AppendMockEvents(st: Store, ids: seq<nat>, pick: nat -> MockIndex, stamp: Instant): (r: Store)
    ensures r.shipments == st.shipments && r.nextShipmentId == st.nextShipmentId
    ensures |r.events| == |st.events| + |ids|
    ensures r.nextEventId == st.nextEventId + |ids|
    ensures r.events[..|st.events|] == st.events
    ensures var added := r.events[|st.events|..];
      forall k :: 0 <= k < |ids| ==>
        && added[k] == MockEventRow(ids[k], MockEvents[pick(k)], stamp).(id := st.nextEventId + k)
        && IsMockEvent(added[k])
    ensures WellFormed(st) && (forall k :: 0 <= k < |ids| ==> HasShipment(st.shipments, ids[k])) ==> WellFormed(r)
  {
    if |ids| == 0 then st
    else
      var n := |ids| - 1;
      var prev := AppendMockEvents(st, ids[..n], pick, stamp);
      var r := InsertEvent(prev, MockEventRow(ids[n], MockEvents[pick(n)], stamp));
      AppendMockStep(st, ids, pick, stamp, prev, r);
      r
  }

  /** The last step of `AppendMockEvents`: one more mock event on top of the
      events appended for `ids[..n]`. */
  lemma AppendMockStep(st: Store, ids: seq<nat>, pick: nat -> MockIndex, stamp: Instant, prev: Store, r: Store)
    requires |ids| > 0
    requires |prev.events| == |st.events| + |ids| - 1
    requires prev.nextEventId == st.nextEventId + |ids| - 1
    requires prev.events[..|st.events|] == st.events
    requires var added := prev.events[|st.events|..];
      forall k :: 0 <= k < |ids| - 1 ==>
        && added[k] == MockEventRow(ids[..|ids| - 1][k], MockEvents[pick(k)], stamp).(id := st.nextEventId + k)
        && IsMockEvent(added[k])
    requires r == InsertEvent(prev, MockEventRow(ids[|ids| - 1], MockEvents[pick(|ids| - 1)], stamp))
    ensures r.events[..|st.events|] == st.events
    ensures var added := r.events[|st.events|..];
      forall k :: 0 <= k < |ids| ==>
        && added[k] == MockEventRow(ids[k], MockEvents[pick(k)], stamp).(id := st.nextEventId + k)
        && IsMockEvent(added[k])
  {
    var n := |ids| - 1;
    var m := MockEvents[pick(n)];
    assert MockEvent(m.status, m.location, m.lat, m.lon) == m;
    var before := prev.events[|st.events|..];
    var added := r.events[|st.events|..];
    assert r.events == prev.events + [MockEventRow(ids[n], m, stamp).(id := prev.nextEventId)];
    assert r.events[..|st.events|] == prev.events[..|st.events|];
    forall k | 0 <= k < |ids|
      ensures added[k] == MockEventRow(ids[k], MockEvents[pick(k)], stamp).(id := st.nextEventId + k)
      ensures IsMockEvent(added[k])
    {
      if k < n {
        assert added[k] == before[k];
        assert ids[..n][k] == ids[k];
      } else {
        assert added[k] == r.events[|prev.events|];
      }
    }
  }

  /** The shipment table `ingest_new_events` works on: the default shipment
      is created first when the table is empty. */
  function IngestBase(st: Store): (r: Store)
    ensures |st.shipments| == 0 ==>
      && r.shipments == [Shipment(st.nextShipmentId, DefaultTrackingId, Some(DefaultOrigin), Some(DefaultDestination))]
      && r.nextShipmentId == st.nextShipmentId + 1
    ensures |st.shipments| > 0 ==> r == st
    ensures r.events == st.events && r.nextEventId == st.nextEventId
    ensures WellFormed(st) ==> WellFormed(r)
    ensures UniqueTrackingIds(st.shipments) ==> UniqueTrackingIds(r.shipments)
  {
    if |st.shipments| == 0
    then InsertShipment(st, DefaultTrackingId, Some(DefaultOrigin), Some(DefaultDestination)).0
    else st
  }

  function ShipmentIds(shipments: seq<Shipment>): (ids: seq<nat>)
    ensures |ids| == |shipments|
    ensures forall k :: 0 <= k < |ids| ==> ids[k] == shipments[k].id && HasShipment(shipments, ids[k])
  {
    Map(shipments, (s: Shipment) => s.id)
  }

  /** `ingest_new_events`: on an empty shipment table first creates the
      default shipment, then appends one fresh mock event per shipment. */
  function IngestNewEvents(st: Store, pick: nat -> MockIndex, stamp: Instant): (r: Store)
    ensures |st.shipments| == 0 ==>
      r.shipments == [Shipment(st.nextShipmentId, DefaultTrackingId, Some(DefaultOrigin), Some(DefaultDestination))]
    ensures |st.shipments| > 0 ==> r.shipments == st.shipments
    ensures |r.events| == |st.events| + |r.shipments|
    ensures r.nextShipmentId == st.nextShipmentId + (if |st.shipments| == 0 then 1 else 0)
    ensures r.nextEventId == st.nextEventId + |r.shipments|
    ensures r.events[..|st.events|] == st.events
    ensures var added := r.events[|st.events|..];
      forall k :: 0 <= k < |r.shipments| ==>
        && added[k].shipmentId == r.shipments[k].id
        && added[k].aiStatus.None? && added[k].aiReason.None?
        && added[k].timestamp == stamp
        && IsMockEvent(added[k])
    ensures WellFormed(st) ==> WellFormed(r)
    ensures UniqueTrackingIds(st.shipments) ==> UniqueTrackingIds(r.shipments)
  {
    var base := IngestBase(st);
    var r := AppendMockEvents(base, ShipmentIds(base.shipments), pick, stamp);
    IngestShape(st, pick, stamp, base, r);
    r
  }

  /** The size, counter and content clauses of `IngestNewEvents`. */
  lemma IngestShape(st: Store, pick: nat -> MockIndex, stamp: Instant, base: Store, r: Store)
    requires base == IngestBase(st)
    requires r == AppendMockEvents(base, ShipmentIds(base.shipments), pick, stamp)
    ensures |r.events| == |st.events| + |r.shipments|
    ensures r.nextShipmentId == st.nextShipmentId + (if |st.shipments| == 0 then 1 else 0)
    ensures r.nextEventId == st.nextEventId + |r.shipments|
    ensures r.events[..|st.events|] == st.events
    ensures var added := r.events[|st.events|..];
      forall k :: 0 <= k < |r.shipments| ==>
        && added[k].shipmentId == r.shipments[k].id
        && added[k].aiStatus.None? && added[k].aiReason.None?
        && added[k].timestamp == stamp
        && IsMockEvent(added[k])
  {
    var ids := ShipmentIds(base.shipments);
    assert r.shipments == base.shipments;
    var added := r.events[|st.events|..];
    forall k | 0 <= k < |r.shipments|
      ensures added[k].shipmentId == r.shipments[k].id
      ensures added[k].aiStatus.None? && added[k].aiReason.None?
      ensures added[k].timestamp == stamp
      ensures IsMockEvent(added[k])
    {
      assert added[k] == MockEventRow(ids[k], MockEvents[pick(k)], stamp).(id := base.nextEventId + k);
    }
  }

  /** The `shipment_id` column of a run of events. */
  function EventOwners(events: seq<ShipmentEvent>): (ids: seq<nat>)
    ensures |ids| == |events|
    ensures forall k :: 0 <= k < |ids| ==> ids[k] == events[k].shipmentId
  {
    Map(events, (e: ShipmentEvent) => e.shipmentId)
  }

  /** For each shipment that existed before, ingestion adds exactly one event
      carrying its id. */
  lemma IngestOneEventPerShipment(st: Store, pick: nat -> MockIndex, stamp: Instant, j: nat)
    requires WellFormed(st)
    requires j < |st.shipments|
    ensures var r := IngestNewEvents(st, pick, stamp);
      Count(EventOwners(r.events[|st.events|..]), st.shipments[j].id) == 1
  {
    IngestAddedOwners(st, pick, stamp);
    var ids := ShipmentIds(st.shipments);
    assert forall a, b :: 0 <= a < b < |ids| ==> ids[a] < ids[b] by {
      assert ShipmentIdsAscending(st.shipments);
    }
    CountAscending(ids, j);
  }

  /** On a non-empty shipment table the added events' owners are the
      shipment ids, in table order. */
  lemma IngestAddedOwners(st: Store, pick: nat -> MockIndex, stamp: Instant)
    requires |st.shipments| > 0
    ensures EventOwners(IngestNewEvents(st, pick, stamp).events[|st.events|..]) == ShipmentIds(st.shipments)
  {
    var r := IngestNewEvents(st, pick, stamp);
    var tail := r.events[|st.events|..];
    var added := EventOwners(tail);
    var ids := ShipmentIds(st.shipments);
    forall k | 0 <= k < |ids| ensures added[k] == ids[k] {
      assert tail[k].shipmentId == r.shipments[k].id;
    }
  }

  /** In a strictly ascending sequence each element occurs once. */
  lemma {:induction false} CountAscending(s: seq<nat>, j: nat)
    requires forall a, b :: 0 <= a < b < |s| ==> s[a] < s[b]
    requires j < |s|
    ensures Count(s, s[j]) == 1
  {
    var n := |s| - 1;
    if j == n {
      assert Count(s[..n], s[j]) == 0 by { CountAbsent(s[..n], s[j]); }
    } else {
      assert s[..n][j] == s[j];
      CountAscending(s[..n], j);
    }
  }

  lemma {:induction false} CountAbsent(s: seq<nat>, x: nat)
    requires forall a :: 0 <= a < |s| ==> s[a] < x
    ensures Count(s, x) == 0
  {
    if |s| > 0 {
      CountAbsent(s[..|s| - 1], x);
    }
  }

  // ---------------------------------------------------------------------
  // Classifier call (worker/worker.py:82-112)
  // ---------------------------------------------------------------------

  /** The JSON body of the inference service's reply, as far as the worker
      reads it. `JsonNonObject` stands for every JSON value that is not an
      object (list, string, number, boolean, null): indexing it with
      `'labels'` raises TypeError and calling `.get` on it raises
      AttributeError, whichever it is. */
  datatype Payload =
    | NotJson
    | JsonNonObject
    | JsonObject(labels: Option<seq<string>>, error: Option<string>)

  /** The HTTP reply to the classification request. */
  datatype Response = Response(statusCode: int, text: string, payload: Payload)

  /** A value, or the Python exception that escaped instead. */
  datatype Outcome<T> = Done(value: T) | Raised(exception: string)

  /** The `(ai_status, ai_reason)` pair `query_model` returns. */
  datatype Answer = Answer(status: string, reason: string)

  const ErrorStatus := "Error"
  const RetryStatus := "Retry"
  const LoadingMarker := "is currently loading"

  const CandidateLabels: seq<string> := [OnTime, Delayed, CustomsIssue, WeatherDelay, PortCongestion, Delivered]

  /** Labels that name a cause of delay rather than a status. */
  const ReasonLabels: seq<string> := [CustomsIssue, WeatherDelay, PortCongestion]

  /** `if not API_KEY`: an unset or empty key counts as missing. */
  predicate HasApiKey(apiKey: Option<string>)
  {
    apiKey.Some? && apiKey.value != ""
  }

  /** `data['labels'][0]` on a 200 reply. */
  function TopLabel(response: Response): Outcome<string>
  {
    match response.payload
    case NotJson => Raised("JSONDecodeError")
    case JsonNonObject => Raised("TypeError")
    case JsonObject(labels, _) =>
      if labels.None? then Raised("KeyError")
      else if |labels.value| == 0 then Raised("IndexError")
      else Done(labels.value[0])
  }

  /** `query_model`, with the reply the service gives supplied as `response`;
      without a key the reply is never looked at. */
  function QueryModel(apiKey: Option<string>, response: Response): (r: Outcome<Answer>)
    ensures !HasApiKey(apiKey) ==> r == Done(Answer(ErrorStatus, "No API Key"))
    ensures HasApiKey(apiKey) && response.statusCode == 200 ==>
      (r.Done? <==> TopLabel(response).Done?)
    ensures HasApiKey(apiKey) && response.statusCode == 200 && r.Done? ==>
      var top := TopLabel(response).value;
      && (top in ReasonLabels ==> r.value == Answer(Delayed, top))
      && (top !in ReasonLabels ==> r.value == Answer(top, NotApplicable))
    ensures HasApiKey(apiKey) && response.statusCode != 200 ==>
      (r.Done? <==> !response.payload.NotJson? && (response.payload.JsonObject? || Contains(response.text, LoadingMarker)))
    ensures HasApiKey(apiKey) && response.statusCode != 200 && r.Done? ==>
      && (r.value.status == RetryStatus <==> exists i :: OccursAt(response.text, LoadingMarker, i))
      && (r.value.status == RetryStatus ==> r.value.reason == "Model Loading")
      && (r.value.status != RetryStatus ==> r.value.status == ErrorStatus)
  {
    if !HasApiKey(apiKey) then Done(Answer(ErrorStatus, "No API Key"))
    else if response.statusCode == 200 then
      match TopLabel(response)
      case Raised(e) => Raised(e)
      case Done(top) =>
        if top in ReasonLabels then Done(Answer(Delayed, top))
        else Done(Answer(top, NotApplicable))
    else if response.payload.NotJson? then Raised("JSONDecodeError")
    else
      ContainsIffOccurs(response.text, LoadingMarker);
      if Contains(response.text, LoadingMarker) then Done(Answer(RetryStatus, "Model Loading"))
      else if response.payload.JsonObject? then Done(Answer(ErrorStatus, response.payload.error.GetOr("API Error")))
      else Raised("AttributeError")
  }

  /** The reply answers with a 200 whose top label is one the worker asked for. */
  predicate AnswersWithCandidate(apiKey: Option<string>, response: Response)
  {
    HasApiKey(apiKey) && response.statusCode == 200 && TopLabel(response).Done? && TopLabel(response).value in CandidateLabels
  }

  /** Whatever candidate label the model ranks first, the pair is a status of
      the taxonomy, only Delayed carries a reason other than N/A, and the
      pair is one the worker persists. */
  lemma CandidateAnswerIsCategory(apiKey: Option<string>, response: Response)
    requires AnswersWithCandidate(apiKey, response)
    ensures QueryModel(apiKey, response).Done?
    ensures var a := QueryModel(apiKey, response).value;
      && IsCategory(a.status)
      && (a.status != Delayed ==> a.reason == NotApplicable)
      && (a.reason != NotApplicable ==> a.reason in ReasonLabels)
      && Persistable(a)
  {
  }

  // ---------------------------------------------------------------------
  // Back-fill pass (worker/worker.py:115-137)
  // ---------------------------------------------------------------------

  /** `if ai_status not in ["Error", "Retry"]`: the pair may be written. */
  predicate Persistable(a: Answer)
  {
    a.status != ErrorStatus && a.status != RetryStatus
  }

  /** `after` equals `before` in every column but `ai_status` and `ai_reason`. */
  predicate OnlyAiFieldsChanged(before: ShipmentEvent, after: ShipmentEvent)
  {
    after == before.(aiStatus := after.aiStatus, aiReason := after.aiReason)
  }

  /** The effect of the UPDATE on one selected event: both fields set from a
      persistable answer, nothing changed otherwise. */
  predicate Backfilled(before: ShipmentEvent, after: ShipmentEvent, a: Answer)
  {
    if Persistable(a) then after == before.(aiStatus := Some(a.status), aiReason := Some(a.reason))
    else after == before
  }

  /** Classifying some event whose `ai_status` is null raises. */
  ghost predicate BackfillRaises(st: Store, apiKey: Option<string>, service: nat -> Response)
  {
    exists i :: 0 <= i < |st.events| && st.events[i].aiStatus.None? && QueryModel(apiKey, service(i)).Raised?
  }

  /** `after` has `before`'s events, each one whose `ai_status` is null
      back-filled from the answer to its classification. */
  ghost predicate BackfilledStore(before: Store, after: Store, apiKey: Option<string>, service: nat -> Response)
  {
    && |after.events| == |before.events|
    && forall i :: 0 <= i < |before.events| && before.events[i].aiStatus.None? ==>
      && QueryModel(apiKey, service(i)).Done?
      && Backfilled(before.events[i], after.events[i], QueryModel(apiKey, service(i)).value)
  }

  /** `process_ai_events`: classifies every event whose `ai_status` is null,
      the one at table position `i` receiving reply `service(i)`. An exception
      from `query_model` escapes and ends the pass. */
  method ProcessAiEvents(st: Store, apiKey: Option<string>, service: nat -> Response) returns (r: Outcome<Store>)
    ensures r.Raised? <==> BackfillRaises(st, apiKey, service)
    ensures r.Done? ==>
      && r.value.shipments == st.shipments
      && r.value.nextShipmentId == st.nextShipmentId
      && r.value.nextEventId == st.nextEventId
      && |r.value.events| == |st.events|
    ensures r.Done? ==> forall i :: 0 <= i < |st.events| ==> OnlyAiFieldsChanged(st.events[i], r.value.events[i])
    ensures r.Done? ==> forall i :: 0 <= i < |st.events| && st.events[i].aiStatus.Some? ==> r.value.events[i] == st.events[i]
    ensures r.Done? ==> BackfilledStore(st, r.value, apiKey, service)
    ensures r.Done? ==> forall i :: 0 <= i < |st.events| && r.value.events[i].aiStatus in {Some(ErrorStatus), Some(RetryStatus)} ==>
      r.value.events[i] == st.events[i]
    ensures r.Done? ==> forall i :: 0 <= i < |st.events| && st.events[i].aiStatus.None? && AnswersWithCandidate(apiKey, service(i)) ==>
      r.value.events[i].aiStatus.Some? && IsCategory(r.value.events[i].aiStatus.value)
    ensures r.Done? && WellFormed(st) ==> WellFormed(r.value)
    ensures !HasApiKey(apiKey) ==> r == Done(st)
  {
    var out: seq<ShipmentEvent> := [];
    var i := 0;
    while i < |st.events|
      invariant 0 <= i <= |st.events|
      invariant |out| == i
      invariant forall k :: 0 <= k < i && st.events[k].aiStatus.None? ==> QueryModel(apiKey, service(k)).Done?
      invariant forall k :: 0 <= k < i && st.events[k].aiStatus.Some? ==> out[k] == st.events[k]
      invariant forall k :: 0 <= k < i && st.events[k].aiStatus.None? ==>
        Backfilled(st.events[k], out[k], QueryModel(apiKey, service(k)).value)
      invariant !HasApiKey(apiKey) ==> out == st.events[..i]
    {
      var e := st.events[i];
      if e.aiStatus.None? {
        var q := QueryModel(apiKey, service(i));
        if q.Raised? {
          return Raised(q.exception);
        }
        if Persistable(q.value) {
          out := out + [e.(aiStatus := Some(q.value.status), aiReason := Some(q.value.reason))];
        } else {
          out := out + [e];
        }
      } else {
        out := out + [e];
      }
      i := i + 1;
    }
    forall k | 0 <= k < |st.events| && st.events[k].aiStatus.None? && AnswersWithCandidate(apiKey, service(k))
      ensures out[k].aiStatus.Some? && IsCategory(out[k].aiStatus.value)
    {
      CandidateAnswerIsCategory(apiKey, service(k));
    }
    assert !HasApiKey(apiKey) ==> out == st.events by {
      assert st.events[..|st.events|] == st.events;
    }
    r := Done(st.(events := out));
  }

  // ---------------------------------------------------------------------
  // One job (worker/worker.py:164-179)
  // ---------------------------------------------------------------------

  /** Events classified before ingestion survive a back-fill that only
      touches unclassified events. */
  lemma KeepsClassified(before: seq<ShipmentEvent>, ingested: seq<ShipmentEvent>, after: seq<ShipmentEvent>)
    requires |before| <= |ingested| == |after|
    requires ingested[..|before|] == before
    requires forall i :: 0 <= i < |ingested| && ingested[i].aiStatus.Some? ==> after[i] == ingested[i]
    ensures forall i :: 0 <= i < |before| && before[i].aiStatus.Some? ==> after[i] == before[i]
  {
    forall i | 0 <= i < |before| && before[i].aiStatus.Some? ensures after[i] == before[i] {
      assert ingested[..|before|][i] == ingested[i];
    }
  }

  /** Advancing the serial counters past rows that were rolled back keeps
      the schema invariant. */
  lemma AdvanceKeepsWellFormed(st: Store, later: Store)
    requires later.shipments == st.shipments && later.events == st.events
    requires st.nextShipmentId <= later.nextShipmentId && st.nextEventId <= later.nextEventId
    ensures WellFormed(st) ==> WellFormed(later)
  {
  }

  /** `main`: ingest, then back-fill, then commit. When the back-fill raises,
      nothing is committed: no row of `st` changes and none is added, but
      the serial sequences keep the values the rolled-back INSERTs drew from
      them, since PostgreSQL never rolls back `nextval`. `failure` names the
      exception. */
  method WorkerMain(st: Store, apiKey: Option<string>, pick: nat -> MockIndex, stamp: Instant, service: nat -> Response)
    returns (persisted: Store, failure: Option<string>)
    ensures failure.Some? ==>
      var ingested := IngestNewEvents(st, pick, stamp);
      persisted == st.(nextShipmentId := ingested.nextShipmentId, nextEventId := ingested.nextEventId)
    ensures failure.Some? <==> BackfillRaises(IngestNewEvents(st, pick, stamp), apiKey, service)
    ensures failure.None? ==> BackfilledStore(IngestNewEvents(st, pick, stamp), persisted, apiKey, service)
    ensures failure.None? ==>
      var ingested := IngestNewEvents(st, pick, stamp);
      && persisted.shipments == ingested.shipments
      && persisted.nextShipmentId == ingested.nextShipmentId
      && persisted.nextEventId == ingested.nextEventId
      && |persisted.events| == |ingested.events|
      && (forall i :: 0 <= i < |ingested.events| ==> OnlyAiFieldsChanged(ingested.events[i], persisted.events[i]))
      && (forall i :: 0 <= i < |st.events| && st.events[i].aiStatus.Some? ==> persisted.events[i] == st.events[i])
    ensures !HasApiKey(apiKey) ==> failure.None? && persisted == IngestNewEvents(st, pick, stamp)
    ensures WellFormed(st) ==> WellFormed(persisted)
  {
    var ingested := IngestNewEvents(st, pick, stamp);
    var processed := ProcessAiEvents(ingested, apiKey, service);
    if processed.Raised? {
      persisted := st.(nextShipmentId := ingested.nextShipmentId, nextEventId := ingested.nextEventId);
      failure := Some(processed.exception);
      AdvanceKeepsWellFormed(st, persisted);
    } else {
      persisted, failure := processed.value, None;
      KeepsClassified(st.events, ingested.events, persisted.events);
    }
  }
}
