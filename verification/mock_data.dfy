/** The synthetic corpus generator of generate_mock_data.py: numbered
    shipments between two different ports, each with one status line drawn
    from a fixed table and a timestamp in October 2025. Every random choice
    is supplied by the caller as a `Draw`. */
module MockData {
  import opened Tables
  import opened Seqs
  import opened Text

  /** A port with its coordinates. */
  datatype Port = Port(name: string, lat: Coord, lon: Coord)

  const Ports: seq<Port> := [
    Port("Shanghai, China", 312304, 1214737),
    Port("Singapore", 12897, 1038501),
    Port("Rotterdam, Netherlands", 519225, 44792),
    Port("Hamburg, Germany", 535511, 99937),
    Port("Los Angeles, USA", 340522, -1182437),
    Port("Long Beach, USA", 337701, -1181937),
    Port("New York, USA", 407128, -740060),
    Port("Hong Kong", 223193, 1141694),
    Port("Busan, South Korea", 351796, 1290756),
    Port("Dubai, UAE", 252048, 552708),
    Port("Tokyo, Japan", 356762, 1396503),
    Port("Mumbai, India", 190760, 728777),
    Port("London, UK", 515074, -1278),
    Port("Sydney, Australia", -338688, 1512093),
    Port("Vancouver, Canada", 492827, -1231207),
    Port("Seattle, USA", 476062, -1223321),
    Port("Miami, USA", 257617, -801918),
    Port("Santos, Brazil", -239608, -463334),
    Port("Buenos Aires, Argentina", -346037, -583816),
    Port("Melbourne, Australia", -378136, 1449631),
    Port("Antwerp, Belgium", 512194, 44025),
    Port("Barcelona, Spain", 413851, 21734),
    Port("Istanbul, Turkey", 410082, 289784),
    Port("Jeddah, Saudi Arabia", 215433, 391728),
    Port("Cape Town, South Africa", -339249, 184241),
    Port("Lagos, Nigeria", 65244, 33792),
    Port("Karachi, Pakistan", 248607, 670011),
    Port("Chennai, India", 130827, 802707),
    Port("Bangkok, Thailand", 137563, 1005018),
    Port("Jakarta, Indonesia", -62088, 1068456),
    Port("Manila, Philippines", 145995, 1209842),
    Port("Ho Chi Minh City, Vietnam", 108231, 1066297),
    Port("Colombo, Sri Lanka", 69271, 798612),
    Port("Port Said, Egypt", 312653, 323019),
    Port("Piraeus, Greece", 379469, 236436),
    Port("Genoa, Italy", 444056, 89463),
    Port("Marseille, France", 432965, 53698),
    Port("Valencia, Spain", 394699, -3763),
    Port("Felixstowe, UK", 519612, 13511),
    Port("Bremen, Germany", 530793, 88017)
  ]

  /** One `(ai_status, ai_reason, raw_status_text)` row. */
  datatype StatusRow = StatusRow(aiStatus: string, aiReason: string, rawText: string)

  const Statuses: seq<StatusRow> := [
    StatusRow(OnTime, NotApplicable, "In transit - maintaining schedule"),
    StatusRow(OnTime, NotApplicable, "✓ On time, arrived at sorting facility"),
    StatusRow(OnTime, NotApplicable, "Departed origin port on schedule"),
    StatusRow(OnTime, NotApplicable, "Processing at distribution center"),
    StatusRow(Delayed, PortCongestion, "Vessel delayed - severe port congestion at berth"),
    StatusRow(Delayed, PortCongestion, "Port congestion - 48hr queue for dock space"),
    StatusRow(Delayed, WeatherDelay, "Weather delay - Typhoon warning, vessel holding position"),
    StatusRow(Delayed, WeatherDelay, "Severe weather - Hurricane causing delay"),
    StatusRow(Delayed, CustomsIssue, "Customs hold - missing documentation, awaiting paperwork"),
    StatusRow(Delayed, CustomsIssue, "Customs inspection in progress"),
    StatusRow(Delivered, NotApplicable, "✓ Successfully delivered to recipient"),
    StatusRow(Delivered, NotApplicable, "Package delivered, signed by customer")
  ]

  /** One generated record, as the seeding script reads it. */
  datatype MockRecord = MockRecord(
    shipid: string,
    origin: string,
    destination: string,
    timestamp: Instant,
    location: string,
    rawStatusText: string,
    aiStatus: string,
    aiReason: string,
    latitude: Coord,
    longitude: Coord)

  type PortIndex = i: nat | i < 40
  /** An index into the 39 ports other than the origin. */
  type OtherPortIndex = i: nat | i < 39
  /** An index into `[origin, destination] + sample`. */
  type CandidateIndex = i: nat | i < 5
  type StatusIndex = i: nat | i < 12
  /** `random.sample(PORTS, 3)`: three different positions. */
  type Sample = t: (PortIndex, PortIndex, PortIndex) | t.0 != t.1 && t.0 != t.2 && t.1 != t.2 witness (0, 1, 2)
  type DayOffset = d: nat | d <= 28
  type HourOffset = h: nat | h <= 23
  type MinuteOffset = m: nat | m <= 59

  /** Every random outcome one record consumes, in the order the generator
      draws them. */
  datatype Draw = Draw(
    origin: PortIndex,
    destination: OtherPortIndex,
    sample: Sample,
    location: CandidateIndex,
    status: StatusIndex,
    days: DayOffset,
    hours: HourOffset,
    minutes: MinuteOffset)

  /** `datetime(2025, 10, 1)`. */
  const BaseInstant: Instant := 1759276800
  /** 2025-10-29T23:59:00, the latest instant the offsets can reach. */
  const LastInstant: Instant := 1761782340

  // Why the port names are distinct. Comparing the forty string literals
  // pairwise asks the solver for 780 string disequalities at once, which is
  // beyond its budget. Instead each name is mapped to an integer
  // fingerprint (`NameKey`), and a lookup table (`PortWithKey`) maps every
  // fingerprint back to its table position. Equal names would have equal
  // fingerprints, hence equal positions. The twenty `PortKeysBlock` lemmas
  // check the round trip two positions at a time, because a larger block
  // grows the per-lemma proof cost faster than linearly; `PortKeys` gathers
  // them.

  /** A cheap fingerprint that already separates the forty port names:
      length and first character. */
  function NameKey(name: string): int
  {
    if |name| == 0 then 0 else |name| * 2000000 + name[0] as int
  }

  /** The position of the port whose name has fingerprint `key`. */
  function PortWithKey(key: int): int
  {
    match key
    case 30000083 => 0
    case 18000083 => 1
    case 44000082 => 2
    case 32000072 => 3
    case 32000076 => 4
    case 30000076 => 5
    case 26000078 => 6
    case 18000072 => 7
    case 36000066 => 8
    case 20000068 => 9
    case 24000084 => 10
    case 26000077 => 11
    case 20000076 => 12
    case 34000083 => 13
    case 34000086 => 14
    case 24000083 => 15
    case 20000077 => 16
    case 28000083 => 17
    case 46000066 => 18
    case 40000077 => 19
    case 32000065 => 20
    case 32000066 => 21
    case 32000073 => 22
    case 40000074 => 23
    case 46000067 => 24
    case 28000076 => 25
    case 34000075 => 26
    case 28000067 => 27
    case 34000066 => 28
    case 36000074 => 29
    case 38000077 => 30
    case 50000072 => 31
    case 36000067 => 32
    case 32000080 => 33
    case 30000080 => 34
    case 24000071 => 35
    case 34000077 => 36
    case 30000086 => 37
    case 28000070 => 38
    case 30000066 => 39
    case _ => -1
  }

  /** The fingerprint of each port's name leads back to that port. */
  lemma PortKeysBlock0()
    ensures forall k :: 0 <= k < 2 ==> PortWithKey(NameKey(Ports[k].name)) == k
  {
    assert PortWithKey(NameKey(Ports[0].name)) == 0;
    assert PortWithKey(NameKey(Ports[1].name)) == 1;
  }

  lemma PortKeysBlock1()
    ensures forall k :: 2 <= k < 4 ==> PortWithKey(NameKey(Ports[k].name)) == k
  {
    assert PortWithKey(NameKey(Ports[2].name)) == 2;
    assert PortWithKey(NameKey(Ports[3].name)) == 3;
  }

  lemma PortKeysBlock2()
    ensures forall k :: 4 <= k < 6 ==> PortWithKey(NameKey(Ports[k].name)) == k
  {
    assert PortWithKey(NameKey(Ports[4].name)) == 4;
    assert PortWithKey(NameKey(Ports[5].name)) == 5;
  }

  lemma PortKeysBlock3()
    ensures forall k :: 6 <= k < 8 ==> PortWithKey(NameKey(Ports[k].name)) == k
  {
    assert PortWithKey(NameKey(Ports[6].name)) == 6;
    assert PortWithKey(NameKey(Ports[7].name)) == 7;
  }

  lemma PortKeysBlock4()
    ensures forall k :: 8 <= k < 10 ==> PortWithKey(NameKey(Ports[k].name)) == k
  {
    assert PortWithKey(NameKey(Ports[8].name)) == 8;
    assert PortWithKey(NameKey(Ports[9].name)) == 9;
  }

  lemma PortKeysBlock5()
    ensures forall k :: 10 <= k < 12 ==> PortWithKey(NameKey(Ports[k].name)) == k
  {
    assert PortWithKey(NameKey(Ports[10].name)) == 10;
    assert PortWithKey(NameKey(Ports[11].name)) == 11;
  }

  lemma PortKeysBlock6()
    ensures forall k :: 12 <= k < 14 ==> PortWithKey(NameKey(Ports[k].name)) == k
  {
    assert PortWithKey(NameKey(Ports[12].name)) == 12;
    assert PortWithKey(NameKey(Ports[13].name)) == 13;
  }

  lemma PortKeysBlock7()
    ensures forall k :: 14 <= k < 16 ==> PortWithKey(NameKey(Ports[k].name)) == k
  {
    assert PortWithKey(NameKey(Ports[14].name)) == 14;
    assert PortWithKey(NameKey(Ports[15].name)) == 15;
  }

  lemma PortKeysBlock8()
    ensures forall k :: 16 <= k < 18 ==> PortWithKey(NameKey(Ports[k].name)) == k
  {
    assert PortWithKey(NameKey(Ports[16].name)) == 16;
    assert PortWithKey(NameKey(Ports[17].name)) == 17;
  }

  lemma PortKeysBlock9()
    ensures forall k :: 18 <= k < 20 ==> PortWithKey(NameKey(Ports[k].name)) == k
  {
    assert PortWithKey(NameKey(Ports[18].name)) == 18;
    assert PortWithKey(NameKey(Ports[19].name)) == 19;
  }

  lemma PortKeysBlock10()
    ensures forall k :: 20 <= k < 22 ==> PortWithKey(NameKey(Ports[k].name)) == k
  {
    assert PortWithKey(NameKey(Ports[20].name)) == 20;
    assert PortWithKey(NameKey(Ports[21].name)) == 21;
  }

  lemma PortKeysBlock11()
    ensures forall k :: 22 <= k < 24 ==> PortWithKey(NameKey(Ports[k].name)) == k
  {
    assert PortWithKey(NameKey(Ports[22].name)) == 22;
    assert PortWithKey(NameKey(Ports[23].name)) == 23;
  }

  lemma PortKeysBlock12()
    ensures forall k :: 24 <= k < 26 ==> PortWithKey(NameKey(Ports[k].name)) == k
  {
    assert PortWithKey(NameKey(Ports[24].name)) == 24;
    assert PortWithKey(NameKey(Ports[25].name)) == 25;
  }

  lemma PortKeysBlock13()
    ensures forall k :: 26 <= k < 28 ==> PortWithKey(NameKey(Ports[k].name)) == k
  {
    assert PortWithKey(NameKey(Ports[26].name)) == 26;
    assert PortWithKey(NameKey(Ports[27].name)) == 27;
  }

  lemma PortKeysBlock14()
    ensures forall k :: 28 <= k < 30 ==> PortWithKey(NameKey(Ports[k].name)) == k
  {
    assert PortWithKey(NameKey(Ports[28].name)) == 28;
    assert PortWithKey(NameKey(Ports[29].name)) == 29;
  }

  lemma PortKeysBlock15()
    ensures forall k :: 30 <= k < 32 ==> PortWithKey(NameKey(Ports[k].name)) == k
  {
    assert PortWithKey(NameKey(Ports[30].name)) == 30;
    assert PortWithKey(NameKey(Ports[31].name)) == 31;
  }

  lemma PortKeysBlock16()
    ensures forall k :: 32 <= k < 34 ==> PortWithKey(NameKey(Ports[k].name)) == k
  {
    assert PortWithKey(NameKey(Ports[32].name)) == 32;
    assert PortWithKey(NameKey(Ports[33].name)) == 33;
  }

  lemma PortKeysBlock17()
    ensures forall k :: 34 <= k < 36 ==> PortWithKey(NameKey(Ports[k].name)) == k
  {
    assert PortWithKey(NameKey(Ports[34].name)) == 34;
    assert PortWithKey(NameKey(Ports[35].name)) == 35;
  }

  lemma PortKeysBlock18()
    ensures forall k :: 36 <= k < 38 ==> PortWithKey(NameKey(Ports[k].name)) == k
  {
    assert PortWithKey(NameKey(Ports[36].name)) == 36;
    assert PortWithKey(NameKey(Ports[37].name)) == 37;
  }

  lemma PortKeysBlock19()
    ensures forall k :: 38 <= k < 40 ==> PortWithKey(NameKey(Ports[k].name)) == k
  {
    assert PortWithKey(NameKey(Ports[38].name)) == 38;
    assert PortWithKey(NameKey(Ports[39].name)) == 39;
  }

  /** The fingerprint of every port's name leads back to that port. */
  lemma PortKeys()
    ensures forall k :: 0 <= k < |Ports| ==> PortWithKey(NameKey(Ports[k].name)) == k
  {
    PortKeysBlock0();
    PortKeysBlock1();
    PortKeysBlock2();
    PortKeysBlock3();
    PortKeysBlock4();
    PortKeysBlock5();
    PortKeysBlock6();
    PortKeysBlock7();
    PortKeysBlock8();
    PortKeysBlock9();
    PortKeysBlock10();
    PortKeysBlock11();
    PortKeysBlock12();
    PortKeysBlock13();
    PortKeysBlock14();
    PortKeysBlock15();
    PortKeysBlock16();
    PortKeysBlock17();
    PortKeysBlock18();
    PortKeysBlock19();
  }

  lemma PortNamesDistinct()
    ensures forall i, j :: 0 <= i < j < |Ports| ==> Ports[i].name != Ports[j].name
  {
    PortKeys();
  }

  /** No other port shares the name of port `o`. */
  lemma PortNameUnique(o: PortIndex)
    ensures forall i :: 0 <= i < |Ports| && i != o ==> Ports[i].name != Ports[o].name
  {
    PortKeys();
  }

  /** Removing the entries equal to `s[o]` from a duplicate-free sequence
      removes exactly position `o`. */
  lemma {:induction false} FilterRemovesOne<T>(s: seq<T>, o: nat, p: T -> bool)
    requires o < |s|
    requires forall i :: 0 <= i < |s| ==> (p(s[i]) <==> i != o)
    ensures Filter(s, p) == s[..o] + s[o + 1..]
  {
    if o == 0 {
      FilterAll(s[1..], p);
    } else {
      FilterRemovesOne(s[1..], o - 1, p);
      assert s[..o] + s[o + 1..] == [s[0]] + (s[1..][..o - 1] + s[1..][o..]);
    }
  }

  /** `[p for p in PORTS if p != origin_data]`. */
  function OtherPorts(o: PortIndex): (others: seq<Port>)
    ensures |others| == 39
    ensures forall k :: 0 <= k < |others| ==> others[k] in Ports && others[k].name != Ports[o].name
  {
    PortNameUnique(o);
    var p := (x: Port) => x != Ports[o];
    FilterRemovesOne(Ports, o, p);
    Filter(Ports, p)
  }

  /** `f"SHP{str(i+1).zfill(6)}"`. */
  function ShipId(i: nat): string
  {
    "SHP" + ZFill(DecimalString(i + 1), 6)
  }

  /** The ship id is "SHP" followed by digits that read back as i + 1, nine
      characters long while i + 1 has at most six digits. */
  lemma ShipIdShape(i: nat)
    ensures |ShipId(i)| >= 9 && ShipId(i)[..3] == "SHP"
    ensures AllDigits(ShipId(i)[3..]) && ParseDecimal(ShipId(i)[3..]) == i + 1
    ensures i + 1 <= 999999 ==> |ShipId(i)| == 9
  {
    var digits := ZFill(DecimalString(i + 1), 6);
    assert ShipId(i)[3..] == digits;
    ParseZFillDecimal(i + 1, 6);
    if i + 1 <= 999999 {
      DecimalStringShort(i + 1);
    }
  }

  /** Different record numbers never share a ship id. */
  lemma ShipIdInjective(i: nat, j: nat)
    requires i != j
    ensures ShipId(i) != ShipId(j)
  {
    ShipIdShape(i);
    ShipIdShape(j);
  }

  /** The record the generator builds from draw `d` at loop index `i`. */
  function GenerateRecord(i: nat, d: Draw): MockRecord
  {
    var origin := Ports[d.origin];
    var destination := OtherPorts(d.origin)[d.destination];
    var candidates := [origin, destination, Ports[d.sample.0], Ports[d.sample.1], Ports[d.sample.2]];
    var place := candidates[d.location];
    var row := Statuses[d.status];
    MockRecord(
      ShipId(i), origin.name, destination.name,
      BaseInstant + d.days * 86400 + d.hours * 3600 + d.minutes * 60,
      place.name, row.rawText, row.aiStatus, row.aiReason, place.lat, place.lon)
  }

  /** The record's location and coordinates are one port's. */
  predicate AtPort(r: MockRecord)
  {
    Port(r.location, r.latitude, r.longitude) in Ports
  }

  /** The record's status triple is a row of the status table. */
  predicate HasStatusRow(r: MockRecord)
  {
    StatusRow(r.aiStatus, r.aiReason, r.rawStatusText) in Statuses
  }

  /** The status table only uses the three categories, and only Delayed rows
      carry a reason. */
  lemma StatusTableShape()
    ensures forall k :: 0 <= k < |Statuses| ==>
      IsCategory(Statuses[k].aiStatus) && (Statuses[k].aiReason == NotApplicable <==> Statuses[k].aiStatus != Delayed)
  {
  }

  /** What every generated record promises: a proper ship id for its
      position, two different ports, a location at a port with that port's
      coordinates, a row of the status table and a timestamp inside the
      generated window. */
  ghost predicate RecordShape(i: nat, r: MockRecord)
  {
    && |r.shipid| >= 9 && r.shipid[..3] == "SHP"
    && AllDigits(r.shipid[3..]) && ParseDecimal(r.shipid[3..]) == i + 1
    && (i + 1 <= 999999 ==> |r.shipid| == 9)
    && r.origin != r.destination
    && AtPort(r)
    && HasStatusRow(r)
    && IsCategory(r.aiStatus)
    && (r.aiReason == NotApplicable <==> r.aiStatus != Delayed)
    && BaseInstant <= r.timestamp <= LastInstant
  }

  lemma GenerateRecordShape(i: nat, d: Draw)
    ensures RecordShape(i, GenerateRecord(i, d))
  {
    var r := GenerateRecord(i, d);
    ShipIdShape(i);
    var origin := Ports[d.origin];
    var destination := OtherPorts(d.origin)[d.destination];
    var candidates := [origin, destination, Ports[d.sample.0], Ports[d.sample.1], Ports[d.sample.2]];
    var place := candidates[d.location];
    assert place in Ports;
    assert Port(place.name, place.lat, place.lon) == place;
    var row := Statuses[d.status];
    assert StatusRow(row.aiStatus, row.aiReason, row.rawText) == row;
    StatusTableShape();
    assert d.days * 86400 + d.hours * 3600 + d.minutes * 60 <= 28 * 86400 + 23 * 3600 + 59 * 60;
  }

  /** `generate_realistic_data(num_records)`: record i is built from
      `draw(i)`. */
  function GenerateRealisticData(draw: nat -> Draw, numRecords: nat := 150): (r: seq<MockRecord>)
    ensures |r| == numRecords
    ensures forall i :: 0 <= i < |r| ==> |r[i].shipid| >= 9 && r[i].shipid[..3] == "SHP"
    ensures forall i :: 0 <= i < |r| ==> |r[i].shipid| >= 3 && AllDigits(r[i].shipid[3..]) && ParseDecimal(r[i].shipid[3..]) == i + 1
    ensures numRecords <= 999999 ==> forall i :: 0 <= i < |r| ==> |r[i].shipid| == 9
    ensures forall i, j :: 0 <= i < j < |r| ==> r[i].shipid != r[j].shipid
    ensures forall i :: 0 <= i < |r| ==> r[i].origin != r[i].destination
    ensures forall i :: 0 <= i < |r| ==> AtPort(r[i]) && HasStatusRow(r[i])
    ensures forall i :: 0 <= i < |r| ==> IsCategory(r[i].aiStatus)
    ensures forall i :: 0 <= i < |r| ==> (r[i].aiReason == NotApplicable <==> r[i].aiStatus != Delayed)
    ensures forall i :: 0 <= i < |r| ==> BaseInstant <= r[i].timestamp <= LastInstant
  {
    var r := Records(draw, numRecords);
    GeneratedShipIds(draw, r, numRecords);
    GeneratedRecords(draw, r);
    r
  }

  /** Record `i` is built from `draw(i)`, for every `i` below `n`. */
  function Records(draw: nat -> Draw, n: nat): (r: seq<MockRecord>)
    ensures |r| == n
    ensures forall i :: 0 <= i < n ==> r[i] == GenerateRecord(i, draw(i))
  {
    seq(n, i requires 0 <= i < n => GenerateRecord(i, draw(i)))
  }

  lemma GeneratedRecordsShape(draw: nat -> Draw, r: seq<MockRecord>)
    requires forall i :: 0 <= i < |r| ==> r[i] == GenerateRecord(i, draw(i))
    ensures forall i :: 0 <= i < |r| ==> RecordShape(i, r[i])
  {
    forall i | 0 <= i < |r| ensures RecordShape(i, r[i]) {
      GenerateRecordShape(i, draw(i));
    }
  }

  /** The ship-id clauses of `GenerateRealisticData`. */
  lemma GeneratedShipIds(draw: nat -> Draw, r: seq<MockRecord>, numRecords: nat)
    requires |r| == numRecords
    requires forall i :: 0 <= i < |r| ==> r[i] == GenerateRecord(i, draw(i))
    ensures forall i :: 0 <= i < |r| ==> |r[i].shipid| >= 9 && r[i].shipid[..3] == "SHP"
    ensures forall i :: 0 <= i < |r| ==> |r[i].shipid| >= 3 && AllDigits(r[i].shipid[3..]) && ParseDecimal(r[i].shipid[3..]) == i + 1
    ensures numRecords <= 999999 ==> forall i :: 0 <= i < |r| ==> |r[i].shipid| == 9
    ensures forall i, j :: 0 <= i < j < |r| ==> r[i].shipid != r[j].shipid
  {
    GeneratedRecordsShape(draw, r);
    forall i, j | 0 <= i < j < |r| ensures r[i].shipid != r[j].shipid {
      assert ParseDecimal(r[i].shipid[3..]) != ParseDecimal(r[j].shipid[3..]);
    }
  }

  /** The route, place, status and time clauses of `GenerateRealisticData`. */
  lemma GeneratedRecords(draw: nat -> Draw, r: seq<MockRecord>)
    requires forall i :: 0 <= i < |r| ==> r[i] == GenerateRecord(i, draw(i))
    ensures forall i :: 0 <= i < |r| ==> r[i].origin != r[i].destination
    ensures forall i :: 0 <= i < |r| ==> AtPort(r[i]) && HasStatusRow(r[i])
    ensures forall i :: 0 <= i < |r| ==> IsCategory(r[i].aiStatus)
    ensures forall i :: 0 <= i < |r| ==> (r[i].aiReason == NotApplicable <==> r[i].aiStatus != Delayed)
    ensures forall i :: 0 <= i < |r| ==> BaseInstant <= r[i].timestamp <= LastInstant
  {
    GeneratedRecordsShape(draw, r);
  }
}
