/**
 * `rakSensorDataDecode`, the loop both network-side decoders run over the
 * hex text of an uplink: a 4-character tag selects how many characters the
 * record takes and which fields of the result object it sets.
 *
 * The two copies differ. Datacake-decode.js stores plain numbers and has no
 * luminosity record; Chirpstack-decode.js appends a unit to every field and
 * knows luminosity (0x0565). A field is modelled by the integer its scaling
 * starts from; the float scaling and rounding are not modelled. Latitude and
 * longitude, the only fields `hasFix` reads, are scaled by 1e-6 and kept to
 * six decimals, so a non-zero integer never rounds to zero there; altitude
 * (scaled by 0.01, kept to one decimal) can show a small non-zero value as 0.
 *
 * The result object is an association list in insertion order, which is the
 * order in which JavaScript enumerates string keys.
 */
module SensorDecode {
  import opened Wrappers
  import opened JsHex

  /** Which copy of the decoder runs. */
  datatype Dialect =
    | Datacake             // Datacake-decode.js
    | Chirpstack           // Chirpstack-decode.js as written
    | ChirpstackCorrected  // Chirpstack-decode.js with the fix test made on the numbers

  /** A field: a plain number, or the number's text followed by a unit. */
  datatype Value = Num(n: int) | WithUnit(n: int, unit: string)

  /** The properties the decoder can set. */
  datatype Key =
    | Humidity | Barometer | Temperature
    | Latitude | Longitude | Altitude | HasFix
    | AccelerationX | AccelerationY | AccelerationZ
    | GasResistance | Battery | Luminosity
    | GyroscopeX | GyroscopeY | GyroscopeZ
    | MagnetometerX | MagnetometerY | MagnetometerZ

  /** The JavaScript property name of a key. */
  function Name(k: Key): string
  {
    match k
    case Humidity => "humidity"
    case Barometer => "barometer"
    case Temperature => "temperature"
    case Latitude => "latitude"
    case Longitude => "longitude"
    case Altitude => "altitude"
    case HasFix => "hasFix"
    case AccelerationX => "acceleration_x"
    case AccelerationY => "acceleration_y"
    case AccelerationZ => "acceleration_z"
    case GasResistance => "gasResistance"
    case Battery => "battery"
    case Luminosity => "luminosity"
    case GyroscopeX => "gyroscope_x"
    case GyroscopeY => "gyroscope_y"
    case GyroscopeZ => "gyroscope_z"
    case MagnetometerX => "magnetometer_x"
    case MagnetometerY => "magnetometer_y"
    case MagnetometerZ => "magnetometer_z"
  }

  // ---------------------------------------------------------------------
  // Objects
  // ---------------------------------------------------------------------

  /** The keys of an object, in enumeration order. */
  function Keys<K, V>(o: seq<(K, V)>): (ks: seq<K>)
    ensures |ks| == |o| && forall i :: 0 <= i < |o| ==> ks[i] == o[i].0
  {
    if o == [] then [] else [o[0].0] + Keys(o[1..])
  }

  /** Each key occurs once, as in a JavaScript object. */
  ghost predicate Distinct<K>(ks: seq<K>)
  {
    forall i, j :: 0 <= i < j < |ks| ==> ks[i] != ks[j]
  }

  /** `o[k]`: None when the property is missing. */
  function Lookup<K(==), V>(o: seq<(K, V)>, k: K): (r: Option<V>)
    ensures r.Some? <==> k in Keys(o)
  {
    if o == [] then None
    else if o[0].0 == k then Some(o[0].1)
    else Lookup(o[1..], k)
  }

  /** `o.k = v`. */
  function Put<K(==), V>(o: seq<(K, V)>, k: K, v: V): seq<(K, V)>
  {
    if o == [] then [(k, v)]
    else if o[0].0 == k then [(k, v)] + o[1..]
    else [o[0]] + Put(o[1..], k, v)
  }

  /** After `o.k = v`, `k` holds `v` and every other property is unchanged. */
  lemma {:induction false} PutLookup<K, V>(o: seq<(K, V)>, k: K, v: V, k': K)
    ensures Lookup(Put(o, k, v), k') == if k' == k then Some(v) else Lookup(o, k')
    decreases |o|
  {
    if o != [] && o[0].0 != k {
      PutLookup(o[1..], k, v, k');
    }
  }

  /** An existing property keeps its place; a new one is appended. */
  lemma {:induction false} PutKeys<K, V>(o: seq<(K, V)>, k: K, v: V)
    ensures Keys(Put(o, k, v)) == if k in Keys(o) then Keys(o) else Keys(o) + [k]
    decreases |o|
  {
    if o != [] && o[0].0 != k {
      PutKeys(o[1..], k, v);
      assert Keys(o) == [o[0].0] + Keys(o[1..]);
    }
  }

  /** Assigning a property never duplicates a key. */
  lemma PutDistinct<K, V>(o: seq<(K, V)>, k: K, v: V)
    requires Distinct(Keys(o))
    ensures Distinct(Keys(Put(o, k, v)))
  {
    PutKeys(o, k, v);
  }

  /** The properties of `fs` assigned one after the other. */
  function PutAll<K(==), V>(o: seq<(K, V)>, fs: seq<(K, V)>): seq<(K, V)>
  {
    if fs == [] then o else Put(PutAll(o, fs[..|fs| - 1]), fs[|fs| - 1].0, fs[|fs| - 1].1)
  }

  /** The value of the last assignment of `k` in `fs`. */
  function LastLookup<K(==), V>(fs: seq<(K, V)>, k: K): (r: Option<V>)
    ensures r.Some? <==> k in Keys(fs)
  {
    if fs == [] then None
    else if fs[|fs| - 1].0 == k then Some(fs[|fs| - 1].1)
    else
      assert Keys(fs) == Keys(fs[..|fs| - 1]) + [fs[|fs| - 1].0];
      LastLookup(fs[..|fs| - 1], k)
  }

  /** After a run of assignments a property holds the last value assigned, or its old one. */
  lemma {:induction false} PutAllLookup<K, V>(o: seq<(K, V)>, fs: seq<(K, V)>, k: K)
    ensures Lookup(PutAll(o, fs), k) == if k in Keys(fs) then LastLookup(fs, k) else Lookup(o, k)
    decreases |fs|
  {
    if fs != [] {
      PutAllLookup(o, fs[..|fs| - 1], k);
      PutLookup(PutAll(o, fs[..|fs| - 1]), fs[|fs| - 1].0, fs[|fs| - 1].1, k);
    }
  }

  lemma {:induction false} PutAllDistinct<K, V>(o: seq<(K, V)>, fs: seq<(K, V)>)
    requires Distinct(Keys(o))
    ensures Distinct(Keys(PutAll(o, fs)))
    decreases |fs|
  {
    if fs != [] {
      PutAllDistinct(o, fs[..|fs| - 1]);
      PutDistinct(PutAll(o, fs[..|fs| - 1]), fs[|fs| - 1].0, fs[|fs| - 1].1);
    }
  }

  // ---------------------------------------------------------------------
  // Records
  // ---------------------------------------------------------------------

  function Min(a: int, b: int): int
  {
    if a < b then a else b
  }

  /** `s.substring(a, b)` for `0 <= a <= b`: both ends are clamped to the length. */
  function Substring(s: string, a: nat, b: nat): string
    requires a <= b
  {
    s[Min(a, |s|)..Min(b, |s|)]
  }

  /** `s.substring(a)`. */
  function From(s: string, a: nat): (r: string)
    ensures |r| == |s| - Min(a, |s|)
  {
    s[Min(a, |s|)..]
  }

  const HUMIDITY := 0x0768
  const BAROMETER := 0x0673
  const TEMPERATURE := 0x0267
  const GPS := 0x0188
  const ACCELERATION := 0x0371
  const GAS_RESISTANCE := 0x0402
  const BATTERY := 0x0802
  const LUMINOSITY := 0x0565
  const GYROSCOPE := 0x0586
  const MAGNETOMETER_X := 0x0902
  const MAGNETOMETER_Y := 0x0a02
  const MAGNETOMETER_Z := 0x0b02

  /** `parseInt(str.substring(0, 4), 16)`: the record's tag. */
  function Flag(str: string): Option<int>
  {
    ParseInt(Substring(str, 0, 4))
  }

  /** The cases of the decoder's `switch`. */
  datatype Tag =
    | HumidityTag | BarometerTag | TemperatureTag | GpsTag | AccelerationTag
    | GasResistanceTag | BatteryTag | LuminosityTag | GyroscopeTag
    | MagnetometerXTag | MagnetometerYTag | MagnetometerZTag
    | Unknown

  /** The case a tag selects; Datacake has no luminosity case. */
  function TagOf(d: Dialect, flag: Option<int>): Tag
  {
    if flag == Some(HUMIDITY) then HumidityTag
    else if flag == Some(BAROMETER) then BarometerTag
    else if flag == Some(TEMPERATURE) then TemperatureTag
    else if flag == Some(GPS) then GpsTag
    else if flag == Some(ACCELERATION) then AccelerationTag
    else if flag == Some(GAS_RESISTANCE) then GasResistanceTag
    else if flag == Some(BATTERY) then BatteryTag
    else if flag == Some(LUMINOSITY) && d != Datacake then LuminosityTag
    else if flag == Some(GYROSCOPE) then GyroscopeTag
    else if flag == Some(MAGNETOMETER_X) then MagnetometerXTag
    else if flag == Some(MAGNETOMETER_Y) then MagnetometerYTag
    else if flag == Some(MAGNETOMETER_Z) then MagnetometerZTag
    else Unknown
  }

  /** The case of the record at the head of `str`. */
  function RecordTag(d: Dialect, str: string): Tag
  {
    TagOf(d, Flag(str))
  }

  /** How many characters a record takes: its tag and its fields, or 7 for an unknown tag. */
  function Width(t: Tag): (w: nat)
    ensures w in {6, 7, 8, 16, 28}
    ensures w == 7 <==> t == Unknown
  {
    match t
    case HumidityTag => 6
    case AccelerationTag | GyroscopeTag => 16
    case GpsTag => 28
    case Unknown => 7
    case _ => 8
  }

  /** The properties a case assigns, in order. */
  function KeysOf(t: Tag): seq<Key>
  {
    match t
    case HumidityTag => [Humidity]
    case BarometerTag => [Barometer]
    case TemperatureTag => [Temperature]
    case GpsTag => [Latitude, Longitude, Altitude, HasFix]
    case AccelerationTag => [AccelerationX, AccelerationY, AccelerationZ]
    case GasResistanceTag => [GasResistance]
    case BatteryTag => [Battery]
    case LuminosityTag => [Luminosity]
    case GyroscopeTag => [GyroscopeX, GyroscopeY, GyroscopeZ]
    case MagnetometerXTag => [MagnetometerX]
    case MagnetometerYTag => [MagnetometerY]
    case MagnetometerZTag => [MagnetometerZ]
    case Unknown => []
  }

  /** No case assigns a property twice. */
  lemma KeysOfDistinct(t: Tag)
    ensures Distinct(KeysOf(t))
  {
  }

  /**
   * The character ranges a case parses, after the four tag characters:
   * 32-bit fields for GPS, 16-bit ones (one byte for humidity) otherwise.
   */
  function Slots(t: Tag): (slots: seq<(nat, nat)>)
    ensures forall i :: 0 <= i < |slots| ==> 4 <= slots[i].0 <= slots[i].1 <= Width(t)
  {
    match t
    case HumidityTag => [(4, 6)]
    case GpsTag => [(4, 12), (12, 20), (20, 28)]
    case AccelerationTag | GyroscopeTag => [(4, 8), (8, 12), (12, 16)]
    case Unknown => []
    case _ => [(4, 8)]
  }

  /** `parseShort` of a 16-bit field, `parseQuadruple` of a GPS field. */
  function Parse(t: Tag, text: string): int
  {
    if t == GpsTag then ParseQuadruple(text) else ParseShort(text)
  }

  /** The integers a record's fields parse to. */
  function Raws(t: Tag, str: string): (raws: seq<int>)
    ensures |raws| == |Slots(t)|
  {
    seq(|Slots(t)|, i requires 0 <= i < |Slots(t)| => Parse(t, Substring(str, Slots(t)[i].0, Slots(t)[i].1)))
  }

  /** A field as the dialect stores it. */
  function Field(d: Dialect, raw: int, unit: string): (v: Value)
    ensures v.n == raw
  {
    if d == Datacake then Num(raw) else WithUnit(raw, unit)
  }

  /**
   * JavaScript's `v == 0.0`. A number text followed by a non-empty unit is
   * not a numeric literal, so it converts to NaN and is never equal to 0.
   */
  predicate LooselyZero(v: Value)
  {
    match v
    case Num(n) => n == 0
    case WithUnit(n, unit) => unit == [] && n == 0
  }

  /** `hasFix`: 0 when latitude and longitude both compare equal to 0, else 1. */
  function FixFlag(d: Dialect, lat: Value, lon: Value): int
  {
    if d == ChirpstackCorrected then (if lat.n == 0 && lon.n == 0 then 0 else 1)
    else if LooselyZero(lat) && LooselyZero(lon) then 0 else 1
  }

  /** The values a case assigns, in the order of its keys, from its parsed fields. */
  function ValuesOf(d: Dialect, t: Tag, raws: seq<int>): (vs: seq<Value>)
    requires |raws| == |Slots(t)|
    ensures |vs| == |KeysOf(t)|
  {
    match t
    case HumidityTag => [Field(d, raws[0], "%RH")]
    case BarometerTag => [Field(d, raws[0], "hPa")]
    case TemperatureTag => [Field(d, raws[0], "'C")]
    case GpsTag =>
      var lat := Field(d, raws[0], "'");
      var lon := Field(d, raws[1], "'");
      [lat, lon, Field(d, raws[2], "m"), Num(FixFlag(d, lat, lon))]
    case AccelerationTag => [Field(d, raws[0], "g"), Field(d, raws[1], "g"), Field(d, raws[2], "g")]
    case GasResistanceTag => [Field(d, raws[0], "KOhm")]
    case BatteryTag => [Field(d, raws[0], "V")]
    case LuminosityTag => [Field(d, raws[0], "L")]
    case GyroscopeTag => [Field(d, raws[0], "'/s"), Field(d, raws[1], "'/s"), Field(d, raws[2], "'/s")]
    case MagnetometerXTag => [Field(d, raws[0], "uT")]
    case MagnetometerYTag => [Field(d, raws[0], "uT")]
    case MagnetometerZTag => [Field(d, raws[0], "uT")]
    case Unknown => []
  }

  /** Keys paired with values. */
  function Zip<K, V>(ks: seq<K>, vs: seq<V>): (o: seq<(K, V)>)
    requires |ks| == |vs|
    ensures |o| == |ks| && forall i :: 0 <= i < |o| ==> o[i] == (ks[i], vs[i])
    ensures Keys(o) == ks
  {
    if ks == [] then [] else [(ks[0], vs[0])] + Zip(ks[1..], vs[1..])
  }

  /** The properties the record at the head of `str` assigns, in the order the decoder assigns them. */
  function Fields(d: Dialect, str: string): (fs: seq<(Key, Value)>)
    ensures Keys(fs) == KeysOf(RecordTag(d, str))
  {
    var t := RecordTag(d, str);
    Zip(KeysOf(t), ValuesOf(d, t, Raws(t, str)))
  }

  /** The object after decoding the rest of the text `str` into `obj`. */
  function DecodeFrom(d: Dialect, str: string, obj: seq<(Key, Value)>): seq<(Key, Value)>
    decreases |str|
  {
    if |str| <= 4 then obj
    else DecodeFrom(d, From(str, Width(RecordTag(d, str))), PutAll(obj, Fields(d, str)))
  }

  /** The object `rakSensorDataDecode(hexStr)` returns. */
  function Decoded(d: Dialect, hexStr: string): seq<(Key, Value)>
  {
    DecodeFrom(d, hexStr, [])
  }

  /** `rakSensorDataDecode`: the loop that consumes `str` record by record. */
  method RakSensorDataDecode(d: Dialect, hexStr: string) returns (myObj: seq<(Key, Value)>)
    ensures myObj == Decoded(d, hexStr)
    ensures Distinct(Keys(myObj))
  {
    var str := hexStr;
    myObj := [];
    while |str| > 4
      invariant DecodeFrom(d, str, myObj) == Decoded(d, hexStr)
      invariant Distinct(Keys(myObj))
      decreases |str|
    {
      var flag := ParseInt(Substring(str, 0, 4));
      PutAllDistinct(myObj, Fields(d, str));
      myObj := PutAll(myObj, Fields(d, str));
      str := From(str, Width(TagOf(d, flag)));
    }
  }

  // ---------------------------------------------------------------------
  // Properties
  // ---------------------------------------------------------------------

  /** Decoding assigns properties and never duplicates a key. */
  lemma {:induction false} DecodeDistinct(d: Dialect, str: string, obj: seq<(Key, Value)>)
    requires Distinct(Keys(obj))
    ensures Distinct(Keys(DecodeFrom(d, str, obj)))
    decreases |str|
  {
    if |str| > 4 {
      PutAllDistinct(obj, Fields(d, str));
      DecodeDistinct(d, From(str, Width(RecordTag(d, str))), PutAll(obj, Fields(d, str)));
    }
  }

  /** Every record takes at least six characters, so each turn of the loop shortens the text. */
  lemma StepShortens(d: Dialect, str: string)
    requires |str| > 4
    ensures |From(str, Width(RecordTag(d, str)))| < |str|
    ensures |From(str, Width(RecordTag(d, str)))| == if |str| <= Width(RecordTag(d, str)) then 0 else |str| - Width(RecordTag(d, str))
  {
  }

  /**
   * The characters each tag consumes: 6 for humidity, 16 for acceleration
   * and gyroscope, 28 for GPS, 8 for the other known tags (luminosity only
   * outside Datacake), and 7 for anything else, an unparsable flag included.
   */
  lemma FlagWidths(d: Dialect, flag: Option<int>)
    ensures var w := Width(TagOf(d, flag));
      var eight := {Some(BAROMETER), Some(TEMPERATURE), Some(GAS_RESISTANCE), Some(BATTERY),
                    Some(MAGNETOMETER_X), Some(MAGNETOMETER_Y), Some(MAGNETOMETER_Z)};
      && (flag == Some(HUMIDITY) ==> w == 6)
      && (flag == Some(ACCELERATION) || flag == Some(GYROSCOPE) ==> w == 16)
      && (flag == Some(GPS) ==> w == 28)
      && (flag in eight ==> w == 8)
      && (flag == Some(LUMINOSITY) ==> w == (if d == Datacake then 7 else 8))
      && (flag.None? ==> w == 7)
  {
  }

  /** A record with an unknown tag assigns nothing and skips seven characters. */
  lemma UnknownSkipped(d: Dialect, str: string, obj: seq<(Key, Value)>)
    requires |str| > 4 && RecordTag(d, str) == Unknown
    ensures DecodeFrom(d, str, obj) == DecodeFrom(d, From(str, 7), obj)
  {
    assert Fields(d, str) == [];
  }

  lemma SubstringOfPrefix(rec: string, rest: string, a: nat, b: nat)
    requires a <= b <= |rec|
    ensures Substring(rec + rest, a, b) == Substring(rec, a, b)
  {
  }

  /** A record followed by more text is decoded on its own, then the rest. */
  lemma RecordsCompose(d: Dialect, rec: string, rest: string, obj: seq<(Key, Value)>)
    requires |rec| > 4 && |rec| == Width(RecordTag(d, rec))
    ensures DecodeFrom(d, rec + rest, obj) == DecodeFrom(d, rest, PutAll(obj, Fields(d, rec)))
  {
    SubstringOfPrefix(rec, rest, 0, 4);
    var t := RecordTag(d, rec);
    assert RecordTag(d, rec + rest) == t;
    forall i | 0 <= i < |Slots(t)|
      ensures Raws(t, rec + rest)[i] == Raws(t, rec)[i]
    {
      SubstringOfPrefix(rec, rest, Slots(t)[i].0, Slots(t)[i].1);
    }
    assert Raws(t, rec + rest) == Raws(t, rec);
    assert Fields(d, rec + rest) == Fields(d, rec);
    assert From(rec + rest, |rec|) == rest;
  }

  /** In a list of distinct keys paired with values, each key's last (and only) value is its own. */
  lemma {:induction false} ZipLastLookup<K, V>(ks: seq<K>, vs: seq<V>, i: nat)
    requires |ks| == |vs| && Distinct(ks) && i < |ks|
    ensures LastLookup(Zip(ks, vs), ks[i]) == Some(vs[i])
    decreases |ks|
  {
    var n := |ks|;
    var z := Zip(ks, vs);
    assert z[n - 1] == (ks[n - 1], vs[n - 1]);
    if i < n - 1 {
      assert ks[n - 1] != ks[i];
      var z' := Zip(ks[..n - 1], vs[..n - 1]);
      assert z[..n - 1] == z';
      assert Distinct(ks[..n - 1]);
      ZipLastLookup(ks[..n - 1], vs[..n - 1], i);
      assert LastLookup(z, ks[i]) == LastLookup(z', ks[i]);
    }
  }

  /** After a record, each property of its case holds the value the record parsed for it. */
  lemma RecordSets(d: Dialect, str: string, obj: seq<(Key, Value)>, i: nat)
    requires i < |KeysOf(RecordTag(d, str))|
    ensures var t := RecordTag(d, str);
      Lookup(PutAll(obj, Fields(d, str)), KeysOf(t)[i]) == Some(ValuesOf(d, t, Raws(t, str))[i])
  {
    var t := RecordTag(d, str);
    KeysOfDistinct(t);
    ZipLastLookup(KeysOf(t), ValuesOf(d, t, Raws(t, str)), i);
    PutAllLookup(obj, Fields(d, str), KeysOf(t)[i]);
  }

  /**
   * A repeated tag overwrites: after two records of the same case every
   * property they assign holds the second record's value.
   */
  lemma RepeatedTagOverwrites(d: Dialect, r1: string, r2: string, obj: seq<(Key, Value)>, i: nat)
    requires |r1| > 4 && |r1| == Width(RecordTag(d, r1))
    requires |r2| > 4 && |r2| == Width(RecordTag(d, r2))
    requires RecordTag(d, r1) == RecordTag(d, r2) && i < |KeysOf(RecordTag(d, r1))|
    ensures var t := RecordTag(d, r2);
      Lookup(DecodeFrom(d, r1 + r2, obj), KeysOf(t)[i]) == Some(ValuesOf(d, t, Raws(t, r2))[i])
  {
    RecordsCompose(d, r1, r2, obj);
    var o1 := PutAll(obj, Fields(d, r1));
    assert DecodeFrom(d, r2, o1) == DecodeFrom(d, From(r2, |r2|), PutAll(o1, Fields(d, r2)));
    RecordSets(d, r2, o1, i);
  }

  /**
   * The GPS values: latitude, longitude and altitude are the parsed fields;
   * `hasFix` is 0 exactly when latitude and longitude are both 0 and 1
   * otherwise, except in Chirpstack as written, where it is always 1.
   */
  lemma GpsValues(d: Dialect, raws: seq<int>)
    requires |raws| == 3
    ensures var vs := ValuesOf(d, GpsTag, raws);
      && vs[0].n == raws[0] && vs[1].n == raws[1] && vs[2].n == raws[2]
      && (d != Chirpstack ==> vs[3] == Num(if raws[0] == 0 && raws[1] == 0 then 0 else 1))
      && (d == Chirpstack ==> vs[3] == Num(1))
  {
  }

  /**
   * A GPS record sets latitude, longitude and altitude from its three 32-bit
   * fields, and `hasFix` to 0 exactly when latitude and longitude are both 0
   * (Datacake, and Chirpstack once corrected).
   */
  lemma GpsRecord(d: Dialect, str: string, obj: seq<(Key, Value)>)
    requires d != Chirpstack && RecordTag(d, str) == GpsTag
    ensures var o := PutAll(obj, Fields(d, str));
      var lat, lon := ParseQuadruple(Substring(str, 4, 12)), ParseQuadruple(Substring(str, 12, 20));
      && Lookup(o, Latitude).Some? && Lookup(o, Latitude).value.n == lat
      && Lookup(o, Longitude).Some? && Lookup(o, Longitude).value.n == lon
      && Lookup(o, Altitude).Some? && Lookup(o, Altitude).value.n == ParseQuadruple(Substring(str, 20, 28))
      && (Lookup(o, HasFix) == Some(Num(0)) <==> lat == 0 && lon == 0)
      && (Lookup(o, HasFix) == Some(Num(1)) <==> !(lat == 0 && lon == 0))
  {
    var raws := Raws(GpsTag, str);
    GpsValues(d, raws);
    RecordSets(d, str, obj, 0);
    RecordSets(d, str, obj, 1);
    RecordSets(d, str, obj, 2);
    RecordSets(d, str, obj, 3);
  }

  /** As written, Chirpstack's GPS record always sets `hasFix` to 1. */
  lemma ChirpstackGpsRecord(str: string, obj: seq<(Key, Value)>)
    requires RecordTag(Chirpstack, str) == GpsTag
    ensures Lookup(PutAll(obj, Fields(Chirpstack, str)), HasFix) == Some(Num(1))
  {
    GpsValues(Chirpstack, Raws(GpsTag, str));
    RecordSets(Chirpstack, str, obj, 3);
  }

  /** One Chirpstack record never turns `hasFix` into 0. */
  lemma ChirpstackStepKeepsFix(str: string, obj: seq<(Key, Value)>)
    requires |str| > 4 && Lookup(obj, HasFix) != Some(Num(0))
    ensures Lookup(PutAll(obj, Fields(Chirpstack, str)), HasFix) != Some(Num(0))
  {
    var tag := RecordTag(Chirpstack, str);
    if tag == GpsTag {
      ChirpstackGpsRecord(str, obj);
    } else {
      NoFixKeyOutsideGps(tag);
      PutAllLookup(obj, Fields(Chirpstack, str), HasFix);
    }
  }

  /** Only the GPS case assigns `hasFix`. */
  lemma NoFixKeyOutsideGps(tag: Tag)
    requires tag != GpsTag
    ensures HasFix !in KeysOf(tag)
  {
  }

  /** As written, Chirpstack never reports `hasFix` 0, whatever the text. */
  lemma {:induction false} ChirpstackNeverNoFix(str: string, obj: seq<(Key, Value)>)
    requires Lookup(obj, HasFix) != Some(Num(0))
    ensures Lookup(DecodeFrom(Chirpstack, str, obj), HasFix) != Some(Num(0))
    decreases |str|
  {
    if |str| > 4 {
      ChirpstackStepKeepsFix(str, obj);
      ChirpstackNeverNoFix(From(str, Width(RecordTag(Chirpstack, str))), PutAll(obj, Fields(Chirpstack, str)));
    }
  }

  /** The object with every field reduced to its number. */
  function Numbers(o: seq<(Key, Value)>): (r: seq<(Key, int)>)
    ensures |r| == |o|
    ensures forall i :: 0 <= i < |o| ==> r[i] == (o[i].0, o[i].1.n)
  {
    if o == [] then [] else [(o[0].0, o[0].1.n)] + Numbers(o[1..])
  }

  lemma {:induction false} NumbersPut(o: seq<(Key, Value)>, k: Key, v: Value)
    ensures Numbers(Put(o, k, v)) == Put(Numbers(o), k, v.n)
    decreases |o|
  {
    if o != [] && o[0].0 != k {
      NumbersPut(o[1..], k, v);
      assert Numbers(o)[1..] == Numbers(o[1..]);
      assert Numbers([o[0]] + Put(o[1..], k, v)) == [Numbers(o)[0]] + Numbers(Put(o[1..], k, v));
    } else if o != [] {
      assert Numbers(o)[1..] == Numbers(o[1..]);
      assert Numbers([(k, v)] + o[1..]) == [(k, v.n)] + Numbers(o[1..]);
    }
  }

  lemma {:induction false} NumbersPutAll(o: seq<(Key, Value)>, fs: seq<(Key, Value)>)
    ensures Numbers(PutAll(o, fs)) == PutAll(Numbers(o), Numbers(fs))
    decreases |fs|
  {
    if fs != [] {
      NumbersPutAll(o, fs[..|fs| - 1]);
      assert Numbers(fs)[..|fs| - 1] == Numbers(fs[..|fs| - 1]);
      NumbersPut(PutAll(o, fs[..|fs| - 1]), fs[|fs| - 1].0, fs[|fs| - 1].1);
    }
  }

  /** The text holds no luminosity record, following the records as the decoder does. */
  predicate NoLuminosity(str: string)
    decreases |str|
  {
    |str| <= 4 || (Flag(str) != Some(LUMINOSITY) && NoLuminosity(From(str, Width(RecordTag(Datacake, str)))))
  }

  /** Outside luminosity both decoders take the same case. */
  lemma SameCase(flag: Option<int>)
    requires flag != Some(LUMINOSITY)
    ensures TagOf(Datacake, flag) == TagOf(ChirpstackCorrected, flag)
  {
  }

  /** Both decoders give a case's properties the same numbers. */
  lemma SameNumbers(t: Tag, raws: seq<int>)
    requires |raws| == |Slots(t)|
    ensures forall i :: 0 <= i < |KeysOf(t)| ==> ValuesOf(Datacake, t, raws)[i].n == ValuesOf(ChirpstackCorrected, t, raws)[i].n
  {
  }

  /**
   * Without a luminosity record, Datacake and the corrected Chirpstack decoder
   * read the same records and give every property the same number.
   */
  lemma {:induction false} DialectsAgree(str: string, o1: seq<(Key, Value)>, o2: seq<(Key, Value)>)
    requires NoLuminosity(str) && Numbers(o1) == Numbers(o2)
    ensures Numbers(DecodeFrom(Datacake, str, o1)) == Numbers(DecodeFrom(ChirpstackCorrected, str, o2))
    decreases |str|
  {
    if |str| > 4 {
      SameCase(Flag(str));
      var t := RecordTag(Datacake, str);
      var f1, f2 := Fields(Datacake, str), Fields(ChirpstackCorrected, str);
      SameNumbers(t, Raws(t, str));
      assert Numbers(f1) == Numbers(f2);
      NumbersPutAll(o1, f1);
      NumbersPutAll(o2, f2);
      DialectsAgree(From(str, Width(t)), PutAll(o1, f1), PutAll(o2, f2));
    }
  }
}
