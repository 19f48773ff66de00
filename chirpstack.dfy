/**
 * `Decode` of Chirpstack-decode.js: the sensor object decoded from the hex
 * text of the uplink's bytes.
 *
 * As written, the GPS case compares `latitude` and `longitude` with 0.0 after
 * appending the unit "'" to them. Such a string converts to NaN, so `hasFix`
 * is 1 even for a record whose coordinates are both zero.
 * `DecodeCorrected` makes the comparison on the numbers, as the Datacake
 * decoder does.
 */
module ChirpstackDecoder {
  import opened Wrappers
  import opened JsHex
  import opened SensorDecode

  /** `Decode(fPort, bytes, variables)` as written: the port and the variables are not used. */
  function Decode(fPort: int, bytes: seq<int>, variables: map<string, string>): seq<(Key, Value)>
  {
    Decoded(Chirpstack, HexStr(bytes))
  }

  /** `Decode` with the fix test made on the numbers. */
  function DecodeCorrected(fPort: int, bytes: seq<int>, variables: map<string, string>): seq<(Key, Value)>
  {
    Decoded(ChirpstackCorrected, HexStr(bytes))
  }

  /** The result depends on the bytes alone. */
  lemma DecodeIgnoresPort(p1: int, p2: int, bytes: seq<int>, v1: map<string, string>, v2: map<string, string>)
    ensures Decode(p1, bytes, v1) == Decode(p2, bytes, v2)
    ensures DecodeCorrected(p1, bytes, v1) == DecodeCorrected(p2, bytes, v2)
  {
  }

  /** As written, no uplink ever decodes to `hasFix` 0. */
  lemma NeverNoFix(fPort: int, bytes: seq<int>, variables: map<string, string>)
    ensures Lookup(Decode(fPort, bytes, variables), HasFix) != Some(Num(0))
  {
    ChirpstackNeverNoFix(HexStr(bytes), []);
  }

  /**
   * Once corrected, Chirpstack and Datacake give every property the same
   * number, for every uplink without a luminosity record.
   */
  lemma CorrectedAgreesWithDatacake(fPort: int, bytes: seq<int>, variables: map<string, string>)
    requires NoLuminosity(HexStr(bytes))
    ensures Numbers(DecodeCorrected(fPort, bytes, variables)) == Numbers(Decoded(Datacake, HexStr(bytes)))
  {
    DialectsAgree(HexStr(bytes), [], []);
  }

  /** A GPS record whose coordinates and altitude are all zero: 01 88 and twelve zero bytes. */
  predicate ZeroGps(b: seq<int>)
  {
    |b| == 14 && b[0] == 0x01 && b[1] == 0x88 && forall i :: 2 <= i < 14 ==> b[i] == 0
  }

  lemma ZeroGpsExists()
    ensures ZeroGps([0x01, 0x88, 0, 0, 0, 0, 0, 0, 0, 0, 0, 0, 0, 0])
  {
  }

  /** Its hex text is the GPS tag followed by 24 zero digits. */
  lemma ZeroGpsText(b: seq<int>)
    requires ZeroGps(b)
    ensures var s := HexStr(b);
      && |s| == 28 && s[0] == '0' && s[1] == '1' && s[2] == '8' && s[3] == '8'
      && forall k :: 4 <= k < 28 ==> s[k] == '0'
  {
    var s := HexStr(b);
    HexStrAt(b, 0);
    ByteHexDigits(b[0]);
    assert s[0] == s[0..2][0] && s[1] == s[0..2][1];
    HexStrAt(b, 1);
    ByteHexDigits(b[1]);
    assert s[2] == s[2..4][0] && s[3] == s[2..4][1];
    forall k | 4 <= k < 28
      ensures s[k] == '0'
    {
      var i := k / 2;
      HexStrAt(b, i);
      ByteHexDigits(b[i]);
      assert s[k] == s[2 * i..2 * i + 2][k - 2 * i];
    }
  }

  /** The tag text "0188" parses to the GPS tag. */
  lemma GpsTagText(t: string)
    requires |t| == 4 && t[0] == '0' && t[1] == '1' && t[2] == '8' && t[3] == '8'
    ensures ParseInt(t) == Some(GPS)
  {
    assert t[..1][..0] == [] && t[..2][..1] == t[..1] && t[..3][..2] == t[..2] && t[..4] == t;
    assert HexValue(t[..1]) == 0;
    assert HexValue(t[..2]) == 1;
    assert HexValue(t[..3]) == 0x18;
    ParseHexDigits(t);
  }

  lemma {:induction false} ZerosValue(z: string)
    requires forall k :: 0 <= k < |z| ==> z[k] == '0'
    ensures IsHexDigits(z) && HexValue(z) == 0
    decreases |z|
  {
    if z != [] {
      ZerosValue(z[..|z| - 1]);
    }
  }

  /** Eight zero digits parse to 0. */
  lemma ZeroField(s: string, a: nat)
    requires a + 8 <= |s| && forall k :: a <= k < a + 8 ==> s[k] == '0'
    ensures ParseQuadruple(Substring(s, a, a + 8)) == 0
  {
    var z := Substring(s, a, a + 8);
    assert z == s[a..a + 8];
    ZerosValue(z);
    ParseHexDigits(z);
    ParseQuadrupleValue(z);
  }

  /** The text of the zero GPS uplink is one GPS record for every dialect. */
  lemma ZeroGpsRecord(d: Dialect, b: seq<int>)
    requires ZeroGps(b)
    ensures var s := HexStr(b);
      && RecordTag(d, s) == GpsTag
      && Decoded(d, s) == PutAll([], Fields(d, s))
      && ParseQuadruple(Substring(s, 4, 12)) == 0
      && ParseQuadruple(Substring(s, 12, 20)) == 0
  {
    var s := HexStr(b);
    ZeroGpsText(b);
    GpsTagText(Substring(s, 0, 4));
    OneGpsRecord(d, s);
    ZeroField(s, 4);
    ZeroField(s, 12);
  }

  /** A 28-character text that starts with the GPS tag decodes as that one record. */
  lemma OneGpsRecord(d: Dialect, s: string)
    requires |s| == 28 && ParseInt(Substring(s, 0, 4)) == Some(GPS)
    ensures RecordTag(d, s) == GpsTag
    ensures Decoded(d, s) == PutAll([], Fields(d, s))
  {
    GpsTagOf(d, s);
    RecordsCompose(d, s, [], []);
    assert s + [] == s;
  }

  lemma GpsTagOf(d: Dialect, s: string)
    requires ParseInt(Substring(s, 0, 4)) == Some(GPS)
    ensures RecordTag(d, s) == GpsTag
  {
    assert Flag(s) == Some(GPS);
  }

  /**
   * The counterexample: the uplink 01 88 followed by twelve zero bytes holds
   * a latitude and a longitude of 0. Datacake and the corrected decoder report
   * `hasFix` 0; Chirpstack as written reports 1.
   */
  lemma ZeroGpsReportsFix(b: seq<int>)
    requires ZeroGps(b)
    ensures var o := Decode(1, b, map[]);
      && Lookup(o, Latitude).Some? && Lookup(o, Latitude).value.n == 0
      && Lookup(o, Longitude).Some? && Lookup(o, Longitude).value.n == 0
      && Lookup(o, HasFix) == Some(Num(1))
      && Lookup(DecodeCorrected(1, b, map[]), HasFix) == Some(Num(0))
      && Lookup(Decoded(Datacake, HexStr(b)), HasFix) == Some(Num(0))
  {
    var s := HexStr(b);
    ZeroGpsRecord(Chirpstack, b);
    ZeroGpsRecord(ChirpstackCorrected, b);
    ZeroGpsRecord(Datacake, b);
    ChirpstackGpsRecord(s, []);
    RecordSets(Chirpstack, s, [], 0);
    RecordSets(Chirpstack, s, [], 1);
    GpsValues(Chirpstack, Raws(GpsTag, s));
    GpsRecord(ChirpstackCorrected, s, []);
    GpsRecord(Datacake, s, []);
  }

  /**
   * The corrected decoder reports `hasFix` 0 exactly for a GPS record whose
   * latitude and longitude are both 0, as Datacake does.
   */
  lemma CorrectedFixRule(str: string, obj: seq<(Key, Value)>)
    requires RecordTag(ChirpstackCorrected, str) == GpsTag
    ensures var o := PutAll(obj, Fields(ChirpstackCorrected, str));
      var lat, lon := ParseQuadruple(Substring(str, 4, 12)), ParseQuadruple(Substring(str, 12, 20));
      (Lookup(o, HasFix) == Some(Num(0)) <==> lat == 0 && lon == 0)
      && (Lookup(o, HasFix) == Some(Num(1)) <==> !(lat == 0 && lon == 0))
  {
    GpsRecord(ChirpstackCorrected, str, obj);
  }
}
