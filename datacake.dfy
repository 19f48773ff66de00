/**
 * `Decoder` of Datacake-decode.js: the decoded sensor object, extended with
 * the gateway metadata and, when the tracker reports a fix, a `location`
 * property, turned into Datacake's list of upper-cased field names and
 * values.
 */
module DatacakeDecoder {
  import opened Wrappers
  import opened JsHex
  import opened SensorDecode

  /**
   * What Datacake's `normalizedPayload` provides: the first gateway's RSSI
   * and SNR (None when there is no gateway or no such value) and the data
   * rate (None when it is undefined).
   */
  datatype Metadata = Metadata(rssi: Option<int>, snr: Option<int>, dataRate: Option<string>)

  /** The properties of the object `Decoder` builds. */
  datatype DcKey = Sensor(key: Key) | LoraRssi | LoraSnr | LoraDatarate | Location

  /** The JavaScript property name of a key. */
  function DcName(k: DcKey): string
  {
    match k
    case Sensor(key) => Name(key)
    case LoraRssi => "LORA_RSSI"
    case LoraSnr => "LORA_SNR"
    case LoraDatarate => "LORA_DATARATE"
    case Location => "location"
  }

  /** A property value: a sensor field, a metadata number, the data rate, or the position text. */
  datatype DcValue =
    | Reading(v: Value)
    | Number(x: int)
    | Rate(rate: Option<string>)
    | Position(lat: Option<Value>, lon: Option<Value>)  // "(" + latitude + "," + longitude + ")"

  /** One entry of the list handed to Datacake. */
  datatype DatacakeField = DatacakeField(field: string, value: DcValue)

  /** `x || 0` for a metadata number: a missing or zero value gives 0. */
  function OrZero(x: Option<int>): int
  {
    if x.Some? then x.value else 0
  }

  /** The decoded sensor object, seen as the start of `Decoder`'s object. */
  function Lift(decoded: seq<(Key, Value)>): (o: seq<(DcKey, DcValue)>)
    ensures |o| == |decoded|
    ensures forall i :: 0 <= i < |o| ==> o[i] == (Sensor(decoded[i].0), Reading(decoded[i].1))
  {
    if decoded == [] then [] else [(Sensor(decoded[0].0), Reading(decoded[0].1))] + Lift(decoded[1..])
  }

  /** The object after the three metadata assignments. */
  function WithGateway(decoded: seq<(Key, Value)>, m: Metadata): seq<(DcKey, DcValue)>
  {
    var o1 := Put(Lift(decoded), LoraRssi, Number(OrZero(m.rssi)));
    var o2 := Put(o1, LoraSnr, Number(OrZero(m.snr)));
    Put(o2, LoraDatarate, Rate(m.dataRate))
  }

  /** The position text's parts. */
  function PositionOf(decoded: seq<(Key, Value)>): DcValue
  {
    Position(Lookup(decoded, Latitude), Lookup(decoded, Longitude))
  }

  /** The object after the metadata and the location rule. */
  function WithMetadata(decoded: seq<(Key, Value)>, m: Metadata): seq<(DcKey, DcValue)>
  {
    var o := WithGateway(decoded, m);
    if Lookup(o, Sensor(HasFix)) == Some(Reading(Num(1))) then Put(o, Location, PositionOf(decoded)) else o
  }

  /** `c.toUpperCase()` for the ASCII letters property names are made of. */
  function UpperChar(c: char): char
  {
    if 'a' <= c <= 'z' then (c as int - 'a' as int + 'A' as int) as char else c
  }

  /** `key.toUpperCase()`. */
  function Upper(s: string): (r: string)
    ensures |r| == |s| && forall i :: 0 <= i < |s| ==> r[i] == UpperChar(s[i])
  {
    seq(|s|, i requires 0 <= i < |s| => UpperChar(s[i]))
  }

  /** The list the `for ... in` loop pushes: one entry per property, in enumeration order. */
  function ToFields(o: seq<(DcKey, DcValue)>): (fs: seq<DatacakeField>)
    ensures |fs| == |o|
  {
    seq(|o|, i requires 0 <= i < |o| => DatacakeField(Upper(DcName(o[i].0)), o[i].1))
  }

  /** The list `Decoder(bytes, port)` returns. */
  function Output(bytes: seq<int>, m: Metadata): seq<DatacakeField>
  {
    ToFields(WithMetadata(Decoded(Datacake, HexStr(bytes)), m))
  }

  /** `Decoder`: the port is not used. */
  method Decoder(bytes: seq<int>, port: int, m: Metadata) returns (datacakeFields: seq<DatacakeField>)
    ensures datacakeFields == Output(bytes, m)
  {
    var hexString := Bin2HexStr(bytes);
    var decoded := RakSensorDataDecode(Datacake, hexString);
    var obj := Lift(decoded);
    obj := Put(obj, LoraRssi, Number(OrZero(m.rssi)));
    obj := Put(obj, LoraSnr, Number(OrZero(m.snr)));
    obj := Put(obj, LoraDatarate, Rate(m.dataRate));
    assert obj == WithGateway(decoded, m);
    if Lookup(obj, Sensor(HasFix)) == Some(Reading(Num(1))) {
      obj := Put(obj, Location, PositionOf(decoded));
    }
    datacakeFields := PushFields(obj);
  }

  /** The `for (var key in decoded)` loop: one push per property, in order. */
  method PushFields(decoded: seq<(DcKey, DcValue)>) returns (datacakeFields: seq<DatacakeField>)
    ensures datacakeFields == ToFields(decoded)
  {
    datacakeFields := [];
    for i := 0 to |decoded|
      invariant datacakeFields == ToFields(decoded[..i])
    {
      datacakeFields := datacakeFields + [DatacakeField(Upper(DcName(decoded[i].0)), decoded[i].1)];
    }
    assert decoded[..|decoded|] == decoded;
  }

  // ---------------------------------------------------------------------
  // Properties
  // ---------------------------------------------------------------------

  /** Upper-casing leaves no lower-case letter and changes nothing but letters. */
  lemma UpperCases(s: string)
    ensures forall i :: 0 <= i < |s| ==> !('a' <= Upper(s)[i] <= 'z')
    ensures forall i :: 0 <= i < |s| ==> (Upper(s)[i] == s[i] <==> !('a' <= s[i] <= 'z'))
    ensures Upper(Upper(s)) == Upper(s)
  {
  }

  /** The lifted object holds the decoded fields and nothing else. */
  lemma {:induction false} LiftLookup(decoded: seq<(Key, Value)>, k: DcKey)
    ensures Lookup(Lift(decoded), k) ==
      if k.Sensor? && Lookup(decoded, k.key).Some? then Some(Reading(Lookup(decoded, k.key).value)) else None
    decreases |decoded|
  {
    if decoded != [] {
      LiftLookup(decoded[1..], k);
    }
  }

  lemma LiftDistinct(decoded: seq<(Key, Value)>)
    requires Distinct(Keys(decoded))
    ensures Distinct(Keys(Lift(decoded)))
  {
    forall i, j | 0 <= i < j < |decoded|
      ensures Keys(Lift(decoded))[i] != Keys(Lift(decoded))[j]
    {
      assert Keys(decoded)[i] != Keys(decoded)[j];
    }
  }

  /** The gateway assignments set their three properties and leave the sensor ones alone. */
  lemma GatewayLookup(decoded: seq<(Key, Value)>, m: Metadata, k: DcKey)
    ensures Lookup(WithGateway(decoded, m), k) ==
      match k
      case LoraRssi => Some(Number(OrZero(m.rssi)))
      case LoraSnr => Some(Number(OrZero(m.snr)))
      case LoraDatarate => Some(Rate(m.dataRate))
      case _ => Lookup(Lift(decoded), k)
  {
    var l := Lift(decoded);
    var o1 := Put(l, LoraRssi, Number(OrZero(m.rssi)));
    var o2 := Put(o1, LoraSnr, Number(OrZero(m.snr)));
    PutLookup(l, LoraRssi, Number(OrZero(m.rssi)), k);
    PutLookup(o1, LoraSnr, Number(OrZero(m.snr)), k);
    PutLookup(o2, LoraDatarate, Rate(m.dataRate), k);
  }

  /**
   * The metadata and the location rule: the three metadata properties hold
   * the gateway values (0 when missing), every sensor property keeps its
   * decoded value, and `location` is present exactly when `hasFix` is 1,
   * holding the latitude and longitude.
   */
  lemma MetadataAndLocation(decoded: seq<(Key, Value)>, m: Metadata)
    ensures var o := WithMetadata(decoded, m);
      && Lookup(o, LoraRssi) == Some(Number(OrZero(m.rssi)))
      && Lookup(o, LoraSnr) == Some(Number(OrZero(m.snr)))
      && Lookup(o, LoraDatarate) == Some(Rate(m.dataRate))
      && (forall k :: Lookup(o, Sensor(k)) == Lookup(Lift(decoded), Sensor(k)))
      && (Location in Keys(o) <==> Lookup(decoded, HasFix) == Some(Num(1)))
      && (Location in Keys(o) ==> Lookup(o, Location) == Some(PositionOf(decoded)))
  {
    var g := WithGateway(decoded, m);
    GatewayLookup(decoded, m, Sensor(HasFix));
    LiftLookup(decoded, Sensor(HasFix));
    GatewayLookup(decoded, m, Location);
    LiftLookup(decoded, Location);
    LocationLookup(decoded, m, Location);
    LocationLookup(decoded, m, LoraRssi);
    LocationLookup(decoded, m, LoraSnr);
    LocationLookup(decoded, m, LoraDatarate);
    GatewayLookup(decoded, m, LoraRssi);
    GatewayLookup(decoded, m, LoraSnr);
    GatewayLookup(decoded, m, LoraDatarate);
    forall k: Key
      ensures Lookup(WithMetadata(decoded, m), Sensor(k)) == Lookup(Lift(decoded), Sensor(k))
    {
      LocationLookup(decoded, m, Sensor(k));
      GatewayLookup(decoded, m, Sensor(k));
    }
  }

  /** The location rule adds `location` or nothing. */
  lemma LocationLookup(decoded: seq<(Key, Value)>, m: Metadata, k: DcKey)
    ensures var g := WithGateway(decoded, m);
      Lookup(WithMetadata(decoded, m), k) ==
        if k == Location && Lookup(g, Sensor(HasFix)) == Some(Reading(Num(1))) then Some(PositionOf(decoded))
        else Lookup(g, k)
  {
    var g := WithGateway(decoded, m);
    if Lookup(g, Sensor(HasFix)) == Some(Reading(Num(1))) {
      PutLookup(g, Location, PositionOf(decoded), k);
    }
  }

  /**
   * One entry per property: the list is as long as the object, its keys are
   * distinct, and entry `i` carries property `i`'s upper-cased name and value.
   */
  lemma OneEntryPerKey(bytes: seq<int>, m: Metadata)
    ensures var o := WithMetadata(Decoded(Datacake, HexStr(bytes)), m);
      && |Output(bytes, m)| == |o|
      && Distinct(Keys(o))
      && forall i :: 0 <= i < |o| ==> Output(bytes, m)[i] == DatacakeField(Upper(DcName(Keys(o)[i])), o[i].1)
  {
    var decoded := Decoded(Datacake, HexStr(bytes));
    DecodeDistinct(Datacake, HexStr(bytes), []);
    LiftDistinct(decoded);
    var l := Lift(decoded);
    var o1 := Put(l, LoraRssi, Number(OrZero(m.rssi)));
    var o2 := Put(o1, LoraSnr, Number(OrZero(m.snr)));
    var o3 := Put(o2, LoraDatarate, Rate(m.dataRate));
    PutDistinct(l, LoraRssi, Number(OrZero(m.rssi)));
    PutDistinct(o1, LoraSnr, Number(OrZero(m.snr)));
    PutDistinct(o2, LoraDatarate, Rate(m.dataRate));
    PutDistinct(o3, Location, PositionOf(decoded));
  }
}
