/**
 * `read_bme`: wait a bounded time for the environment sensor to finish, then
 * pack its integer-scaled readings into the bytes of `g_env_data`.
 *
 * The sensor is abstracted as the sequence of answers `endReading()` gives
 * while the 5000 ms bound has not yet passed, and the readings after the
 * float-to-integer casts.
 */
module Environment {
  import opened Bytes
  import opened Layout
  import opened Wrappers

  /** `temp_int`, `humid_int`, `press_int` and `gasres_int`. */
  datatype Reading = Reading(temp: int16, humid: uint16, press: uint16, gasres: uint16)

  /** Outcome of `read_bme`: whether it succeeded and the new `g_env_data` bytes. */
  datatype BmeResult = BmeResult(ok: bool, env: seq<uint8>)

  /** Index of the first `endReading()` call that reports completion, if any. */
  function FirstFinished(polls: seq<bool>): (r: Option<nat>)
    ensures r.None? <==> (forall i :: 0 <= i < |polls| ==> !polls[i])
    ensures r.Some? ==> r.value < |polls| && polls[r.value]
                        && forall i :: 0 <= i < r.value ==> !polls[i]
  {
    if polls == [] then None
    else if polls[0] then Some(0)
    else match FirstFinished(polls[1..])
      case None => None
      case Some(k) => Some(k + 1)
  }

  /** The bytes `read_bme` stores, in the order humid_1, temp_1, temp_2, press_1, press_2, gas_1, gas_2. */
  function Packed(r: Reading): seq<uint8>
  {
    [ToU8(r.humid), ToU8(r.temp / 0x100), ToU8(r.temp),
     HighByte(r.press), LowByte(r.press), HighByte(r.gasres), LowByte(r.gasres)]
  }

  /** `g_env_data` with the seven data bytes `read_bme` writes replaced. */
  function WithReading(env: seq<uint8>, r: Reading): (e: seq<uint8>)
    requires |env| == ENVIRONMENT_DATA_LEN
    ensures |e| == ENVIRONMENT_DATA_LEN
  {
    var p := Packed(r);
    env[ENV_HUMID_OFFSET := p[0]][ENV_TEMP_OFFSET := p[1]][ENV_TEMP_OFFSET + 1 := p[2]]
       [ENV_PRESS_OFFSET := p[3]][ENV_PRESS_OFFSET + 1 := p[4]]
       [ENV_GAS_OFFSET := p[5]][ENV_GAS_OFFSET + 1 := p[6]]
  }

  /** The specification of `read_bme`. */
  function BmeStep(env: seq<uint8>, polls: seq<bool>, r: Reading): (res: BmeResult)
    requires |env| == ENVIRONMENT_DATA_LEN
    ensures |res.env| == ENVIRONMENT_DATA_LEN
  {
    if FirstFinished(polls).None? then BmeResult(false, env)
    else BmeResult(true, WithReading(env, r))
  }

  /**
   * A reading that does not finish within the bound leaves `g_env_data`
   * untouched and reports failure; one that finishes reports success and
   * leaves the battery bytes and all tag bytes as they were.
   */
  lemma BmeOutcome(env: seq<uint8>, polls: seq<bool>, r: Reading)
    requires |env| == ENVIRONMENT_DATA_LEN
    ensures var res := BmeStep(env, polls, r);
      && (res.ok <==> exists i :: 0 <= i < |polls| && polls[i])
      && (!res.ok ==> res.env == env)
      && (forall k :: 0 <= k < ENVIRONMENT_DATA_LEN && k !in {6, 9, 10, 13, 14, 17, 18}
            ==> res.env[k] == env[k])
      && (EnvTagsAt(env) ==> EnvTagsAt(res.env))
  {
    if FirstFinished(polls).None? {
    } else {
      var i := FirstFinished(polls).value;
      assert polls[i];
    }
  }

  /**
   * On success the bytes are the readings split big-endian: temp_1/temp_2
   * reassemble to the 16-bit two's complement of `temp_int`, press and gas
   * to their unsigned values, and humid_1 is the low byte of `humid_int`.
   */
  lemma {:induction false} BmeBytes(env: seq<uint8>, polls: seq<bool>, r: Reading)
    requires |env| == ENVIRONMENT_DATA_LEN
    requires exists i :: 0 <= i < |polls| && polls[i]
    ensures var e := BmeStep(env, polls, r).env;
      && e[ENV_HUMID_OFFSET] == r.humid % 0x100
      && SignExtend16(Join16(e[ENV_TEMP_OFFSET], e[ENV_TEMP_OFFSET + 1])) == r.temp
      && Join16(e[ENV_PRESS_OFFSET], e[ENV_PRESS_OFFSET + 1]) == r.press
      && Join16(e[ENV_GAS_OFFSET], e[ENV_GAS_OFFSET + 1]) == r.gasres
  {
    var i :| 0 <= i < |polls| && polls[i];
    assert FirstFinished(polls).Some?;
    var t: int := r.temp;
    var hi, lo := ToU8(t / 0x100), ToU8(t);
    if t >= 0 {
      assert hi == t / 0x100 && lo == t % 0x100;
    } else {
      assert t / 0x100 < 0 && hi == t / 0x100 + 0x100;
      assert lo == t - (t / 0x100) * 0x100;
    }
    SplitJoin16(r.press);
    SplitJoin16(r.gasres);
  }

  /**
   * `read_bme` on the buffer `envData` (`g_env_data`): the polling loop ends
   * at the first completed reading or when the bound is used up.
   */
  method ReadBme(envData: array<uint8>, polls: seq<bool>, r: Reading) returns (ok: bool)
    requires envData.Length == ENVIRONMENT_DATA_LEN
    modifies envData
    ensures BmeStep(old(envData[..]), polls, r) == BmeResult(ok, envData[..])
  {
    var i := 0;
    var readSuccess := false;
    while i < |polls|
      invariant 0 <= i <= |polls|
      invariant !readSuccess
      invariant forall j :: 0 <= j < i ==> !polls[j]
    {
      if polls[i] {
        readSuccess := true;
        break;
      }
      i := i + 1;
    }
    if !readSuccess {
      return false;
    }
    ghost var before := envData[..];
    envData[ENV_HUMID_OFFSET] := ToU8(r.humid);
    envData[ENV_TEMP_OFFSET] := ToU8(r.temp / 0x100);
    envData[ENV_TEMP_OFFSET + 1] := ToU8(r.temp);
    envData[ENV_PRESS_OFFSET] := HighByte(r.press);
    envData[ENV_PRESS_OFFSET + 1] := LowByte(r.press);
    envData[ENV_GAS_OFFSET] := HighByte(r.gasres);
    envData[ENV_GAS_OFFSET + 1] := LowByte(r.gasres);
    assert envData[..] == WithReading(before, r);
    ok := true;
  }
}
