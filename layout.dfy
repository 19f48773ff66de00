/**
 * The uplink wire layouts and event masks of the two `app.h` headers.
 *
 * Each packed C struct of one-byte fields is a datatype holding its data
 * bytes; its tag bytes (Cayenne LPP channel and type) are the struct's
 * default initialisers, written by the serialiser and checked by the parser.
 */
module Layout {
  import opened Bytes
  import opened Wrappers

  // ---------------------------------------------------------------------
  // Event bits of the 16-bit event mask
  // ---------------------------------------------------------------------

  /** Application events, declared identically in both headers. */
  const ACC_TRIGGER: bv16 := 0x8000
  const N_ACC_TRIGGER: bv16 := 0x7FFF
  const GNSS_FIN: bv16 := 0x4000
  const N_GNSS_FIN: bv16 := 0xBFFF

  /**
   * Events raised by the WisBlock-API library, which is not part of this
   * model; the values are that library's. The proofs use only that each is
   * one bit, distinct from the others and from the application bits.
   */
  const STATUS: bv16 := 0x0001
  const N_STATUS: bv16 := 0xFFFE
  const LORA_DATA: bv16 := 0x0008
  const N_LORA_DATA: bv16 := 0xFFF7
  const LORA_TX_FIN: bv16 := 0x0010
  const N_LORA_TX_FIN: bv16 := 0xFFEF
  const LORA_JOIN_FIN: bv16 := 0x0040
  const N_LORA_JOIN_FIN: bv16 := 0xFFBF

  /**
   * Each `N_` mask is the 16-bit complement of its event bit, and the core's
   * event bits are pairwise disjoint single bits.
   */
  lemma MaskComplements()
    ensures N_ACC_TRIGGER == !ACC_TRIGGER && N_GNSS_FIN == !GNSS_FIN
    ensures N_STATUS == !STATUS && N_LORA_DATA == !LORA_DATA
    ensures N_LORA_TX_FIN == !LORA_TX_FIN && N_LORA_JOIN_FIN == !LORA_JOIN_FIN
    ensures ACC_TRIGGER & GNSS_FIN == 0
    ensures (ACC_TRIGGER | GNSS_FIN) & (STATUS | LORA_DATA | LORA_TX_FIN | LORA_JOIN_FIN) == 0
    ensures STATUS & LORA_DATA == 0 && STATUS & LORA_TX_FIN == 0 && STATUS & LORA_JOIN_FIN == 0
    ensures LORA_DATA & LORA_TX_FIN == 0 && LORA_DATA & LORA_JOIN_FIN == 0
    ensures LORA_TX_FIN & LORA_JOIN_FIN == 0
  {
  }

  /** Which of the core's event bits a mask has set. */
  datatype Events = Events(accTrigger: bool, gnssFin: bool, status: bool,
                           loraData: bool, loraTxFin: bool, loraJoinFin: bool)

  const NO_EVENTS := Events(false, false, false, false, false, false)

  /** The events set in a 16-bit mask. */
  function Decode(m: bv16): Events
  {
    Events(m & ACC_TRIGGER == ACC_TRIGGER, m & GNSS_FIN == GNSS_FIN, m & STATUS == STATUS,
           m & LORA_DATA == LORA_DATA, m & LORA_TX_FIN == LORA_TX_FIN,
           m & LORA_JOIN_FIN == LORA_JOIN_FIN)
  }

  /** A cleared mask holds no event. */
  lemma DecodeZero()
    ensures Decode(0) == NO_EVENTS
  {
  }

  /*
   * The mask idioms of the handlers. The test `(mask & BIT) == BIT` is the
   * event's field of `Decode` by definition; `mask &= N_BIT` clears exactly
   * that event, and `mask |= BIT` sets exactly that event.
   */

  lemma ClearAccTrigger(m: bv16)
    ensures Decode(m & N_ACC_TRIGGER) == Decode(m).(accTrigger := false)
  {
  }

  lemma ClearGnssFin(m: bv16)
    ensures Decode(m & N_GNSS_FIN) == Decode(m).(gnssFin := false)
  {
  }

  lemma ClearStatus(m: bv16)
    ensures Decode(m & N_STATUS) == Decode(m).(status := false)
  {
  }

  lemma ClearLoraData(m: bv16)
    ensures Decode(m & N_LORA_DATA) == Decode(m).(loraData := false)
  {
  }

  lemma ClearLoraTxFin(m: bv16)
    ensures Decode(m & N_LORA_TX_FIN) == Decode(m).(loraTxFin := false)
  {
  }

  lemma ClearLoraJoinFin(m: bv16)
    ensures Decode(m & N_LORA_JOIN_FIN) == Decode(m).(loraJoinFin := false)
  {
  }

  lemma RaiseGnssFin(m: bv16)
    ensures Decode(m | GNSS_FIN) == Decode(m).(gnssFin := true)
  {
  }

  lemma RaiseStatus(m: bv16)
    ensures Decode(m | STATUS) == Decode(m).(status := true)
  {
  }

  // ---------------------------------------------------------------------
  // Lengths
  // ---------------------------------------------------------------------

  const TRACKER_DATA_LEN: nat := 30
  const TRACKER_DATA_SHORT_LEN: nat := 11
  const TRACKER_DATA_PREC_LEN: nat := 13
  const ENVIRONMENT_DATA_LEN: nat := 19

  /** Offset of `data_flag3` in `tracker_data_s`: the start of the part without location. */
  const DATA_FLAG3_OFFSET: nat := 11
  /** Offsets of `lat_1` and `batt_1` in `tracker_data_s`. */
  const LOCATION_OFFSET: nat := 2
  const BATT_OFFSET: nat := 13

  /** Offsets of the data bytes of `env_data_s`. */
  const ENV_HUMID_OFFSET: nat := 6
  const ENV_TEMP_OFFSET: nat := 9
  const ENV_PRESS_OFFSET: nat := 13
  const ENV_GAS_OFFSET: nat := 17

  // ---------------------------------------------------------------------
  // tracker_data_short_s and tracker_data_prec_s
  // ---------------------------------------------------------------------

  /** The nine data bytes of a 0x88 location record: 3 bytes each of latitude, longitude, altitude. */
  datatype Location = Location(lat1: uint8, lat2: uint8, lat3: uint8,
                               long1: uint8, long2: uint8, long3: uint8,
                               alt1: uint8, alt2: uint8, alt3: uint8)

  /** The eleven data bytes of a 0x89 location record: 4 + 4 bytes of position, 3 of altitude. */
  datatype PreciseLocation = PreciseLocation(lat1: uint8, lat2: uint8, lat3: uint8, lat4: uint8,
                                             long1: uint8, long2: uint8, long3: uint8, long4: uint8,
                                             alt1: uint8, alt2: uint8, alt3: uint8)

  function LocationBytes(l: Location): (b: seq<uint8>)
    ensures |b| == 9
  {
    [l.lat1, l.lat2, l.lat3, l.long1, l.long2, l.long3, l.alt1, l.alt2, l.alt3]
  }

  /** `tracker_data_short_s` on the wire. */
  function ShortBytes(l: Location): (b: seq<uint8>)
    ensures |b| == TRACKER_DATA_SHORT_LEN
    ensures b[..2] == [0x01, 0x88] && b[2..] == LocationBytes(l)
  {
    [0x01, 0x88, l.lat1, l.lat2, l.lat3, l.long1, l.long2, l.long3, l.alt1, l.alt2, l.alt3]
  }

  /** `tracker_data_prec_s` on the wire. */
  function PrecBytes(l: PreciseLocation): (b: seq<uint8>)
    ensures |b| == TRACKER_DATA_PREC_LEN
    ensures b[..2] == [0x01, 0x89]
    ensures b[2..6] == [l.lat1, l.lat2, l.lat3, l.lat4]
    ensures b[6..10] == [l.long1, l.long2, l.long3, l.long4]
    ensures b[10..] == [l.alt1, l.alt2, l.alt3]
  {
    [0x01, 0x89, l.lat1, l.lat2, l.lat3, l.lat4, l.long1, l.long2, l.long3, l.long4,
     l.alt1, l.alt2, l.alt3]
  }

  function ParseShortRecord(b: seq<uint8>): (r: Option<Location>)
  {
    if |b| == TRACKER_DATA_SHORT_LEN && b[0] == 0x01 && b[1] == 0x88 then
      Some(Location(b[2], b[3], b[4], b[5], b[6], b[7], b[8], b[9], b[10]))
    else None
  }

  function ParsePrecRecord(b: seq<uint8>): (r: Option<PreciseLocation>)
  {
    if |b| == TRACKER_DATA_PREC_LEN && b[0] == 0x01 && b[1] == 0x89 then
      Some(PreciseLocation(b[2], b[3], b[4], b[5], b[6], b[7], b[8], b[9], b[10], b[11], b[12]))
    else None
  }

  /** The short record is recovered from its bytes, and only well-tagged 11-byte buffers parse. */
  lemma ShortRoundTrip(l: Location, b: seq<uint8>)
    ensures ParseShortRecord(ShortBytes(l)) == Some(l)
    ensures ParseShortRecord(b).Some? ==> ShortBytes(ParseShortRecord(b).value) == b
  {
  }

  lemma PrecRoundTrip(l: PreciseLocation, b: seq<uint8>)
    ensures ParsePrecRecord(PrecBytes(l)) == Some(l)
    ensures ParsePrecRecord(b).Some? ==> PrecBytes(ParsePrecRecord(b).value) == b
  {
  }

  // ---------------------------------------------------------------------
  // env_data_s
  // ---------------------------------------------------------------------

  /** The data bytes of `env_data_s`: battery, humidity, temperature, pressure, gas resistance. */
  datatype Sensors = Sensors(batt1: uint8, batt2: uint8, humid1: uint8,
                             temp1: uint8, temp2: uint8, press1: uint8, press2: uint8,
                             gas1: uint8, gas2: uint8)

  /** `env_data_s` on the wire. */
  function EnvBytes(s: Sensors): (b: seq<uint8>)
    ensures |b| == ENVIRONMENT_DATA_LEN
    ensures EnvTagsAt(b)
  {
    [0x02, 0x02, s.batt1, s.batt2,
     0x03, 0x68, s.humid1,
     0x04, 0x67, s.temp1, s.temp2,
     0x05, 0x73, s.press1, s.press2,
     0x06, 0x02, s.gas1, s.gas2]
  }

  /**
   * The five channel/type pairs of `env_data_s`: 02 02 at 0, 03 68 at 4,
   * 04 67 at 7, 05 73 at 11 and 06 02 at 15.
   */
  predicate EnvTagsAt(b: seq<uint8>)
  {
    && |b| == ENVIRONMENT_DATA_LEN
    && b[0] == 0x02 && b[1] == 0x02
    && b[4] == 0x03 && b[5] == 0x68
    && b[7] == 0x04 && b[8] == 0x67
    && b[11] == 0x05 && b[12] == 0x73
    && b[15] == 0x06 && b[16] == 0x02
  }

  function ParseEnv(b: seq<uint8>): (r: Option<Sensors>)
  {
    if EnvTagsAt(b) then
      Some(Sensors(b[2], b[3], b[6], b[9], b[10], b[13], b[14], b[17], b[18]))
    else None
  }

  lemma EnvRoundTrip(s: Sensors, b: seq<uint8>)
    ensures ParseEnv(EnvBytes(s)) == Some(s)
    ensures ParseEnv(b).Some? ==> EnvBytes(ParseEnv(b).value) == b
  {
  }

  // ---------------------------------------------------------------------
  // tracker_data_s (declared in the ArduinoIDE header, used by the PlatformIO sources)
  // ---------------------------------------------------------------------

  /** The data bytes of `tracker_data_s`: a location record followed by the sensor bytes. */
  datatype TrackerData = TrackerData(lat1: uint8, lat2: uint8, lat3: uint8,
                                     long1: uint8, long2: uint8, long3: uint8,
                                     alt1: uint8, alt2: uint8, alt3: uint8,
                                     batt1: uint8, batt2: uint8, humid1: uint8,
                                     temp1: uint8, temp2: uint8, press1: uint8, press2: uint8,
                                     gas1: uint8, gas2: uint8)

  /** `tracker_data_s` on the wire, one byte per struct field in declaration order. */
  function TrackerBytes(t: TrackerData): (b: seq<uint8>)
    ensures |b| == TRACKER_DATA_LEN
    ensures TrackerTagsAt(b)
  {
    [0x01, 0x88, t.lat1, t.lat2, t.lat3, t.long1, t.long2, t.long3, t.alt1, t.alt2, t.alt3,
     0x02, 0x02, t.batt1, t.batt2,
     0x03, 0x68, t.humid1,
     0x04, 0x67, t.temp1, t.temp2,
     0x05, 0x73, t.press1, t.press2,
     0x06, 0x02, t.gas1, t.gas2]
  }

  /**
   * The six channel/type pairs of `tracker_data_s`: 01 88 at 0, 02 02 at 11,
   * 03 68 at 15, 04 67 at 18, 05 73 at 22 and 06 02 at 26.
   */
  predicate TrackerTagsAt(b: seq<uint8>)
  {
    && |b| == TRACKER_DATA_LEN
    && b[0] == 0x01 && b[1] == 0x88
    && b[11] == 0x02 && b[12] == 0x02
    && b[15] == 0x03 && b[16] == 0x68
    && b[18] == 0x04 && b[19] == 0x67
    && b[22] == 0x05 && b[23] == 0x73
    && b[26] == 0x06 && b[27] == 0x02
  }

  function ParseTracker(b: seq<uint8>): (r: Option<TrackerData>)
  {
    if TrackerTagsAt(b) then
      Some(TrackerData(b[2], b[3], b[4], b[5], b[6], b[7], b[8], b[9], b[10],
                       b[13], b[14], b[17], b[20], b[21], b[24], b[25], b[28], b[29]))
    else None
  }

  lemma TrackerRoundTrip(t: TrackerData, b: seq<uint8>)
    ensures ParseTracker(TrackerBytes(t)) == Some(t)
    ensures ParseTracker(b).Some? ==> TrackerBytes(ParseTracker(b).value) == b
  {
  }

  /** The struct's default value: every data byte zero. */
  const DEFAULT_TRACKER := TrackerData(0, 0, 0, 0, 0, 0, 0, 0, 0, 0, 0, 0, 0, 0, 0, 0, 0, 0)

  function LocationOf(t: TrackerData): Location
  {
    Location(t.lat1, t.lat2, t.lat3, t.long1, t.long2, t.long3, t.alt1, t.alt2, t.alt3)
  }

  function SensorsOf(t: TrackerData): Sensors
  {
    Sensors(t.batt1, t.batt2, t.humid1, t.temp1, t.temp2, t.press1, t.press2, t.gas1, t.gas2)
  }

  /**
   * `tracker_data_s` is a short location record followed by an `env_data_s`
   * record: the part from `data_flag3` on is 19 bytes beginning with
   * `02 02 batt_1 batt_2`, and with the location block left out it is still a
   * well-formed sensor payload.
   */
  lemma {:induction false} TrackerSplitsAtDataFlag3(b: seq<uint8>)
    requires TrackerTagsAt(b)
    ensures |b[DATA_FLAG3_OFFSET..]| == ENVIRONMENT_DATA_LEN
    ensures b[DATA_FLAG3_OFFSET..DATA_FLAG3_OFFSET + 4] == [0x02, 0x02, b[BATT_OFFSET], b[BATT_OFFSET + 1]]
    ensures ParseShortRecord(b[..DATA_FLAG3_OFFSET]) == Some(LocationOf(ParseTracker(b).value))
    ensures ParseEnv(b[DATA_FLAG3_OFFSET..]) == Some(SensorsOf(ParseTracker(b).value))
    ensures b == ShortBytes(LocationOf(ParseTracker(b).value)) + EnvBytes(SensorsOf(ParseTracker(b).value))
  {
    var t := ParseTracker(b).value;
    TrackerRoundTrip(t, b);
    assert b == ShortBytes(LocationOf(t)) + EnvBytes(SensorsOf(t));
  }
}
