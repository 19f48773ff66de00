/**
 * The acquisition task of gnss.cpp: `poll_gnss`, which searches for a fix
 * and encodes it into the location bytes of `g_tracker_data`, and one wake of
 * `gnss_task`, which skips the search while the radio is busy.
 *
 * The GNSS receiver is abstracted as the sequence of reports it gives while
 * the search bound has not yet passed; each report carries the fix type and
 * the receiver's latitude and longitude (1e-7 degree) and altitude (mm).
 */
module Gnss {
  import opened Bytes
  import opened Layout
  import opened Wrappers
  import opened Globals

  datatype FixReport = FixReport(fixType: uint8, latitude: int32, longitude: int32, altitude: int32)

  /** A 3D fix or better ends the search. */
  predicate IsFix(r: FixReport) { r.fixType >= 3 }

  /** Index of the first report with a fix, if any. */
  function FirstFix(reports: seq<FixReport>): (r: Option<nat>)
    ensures r.None? <==> (forall i :: 0 <= i < |reports| ==> !IsFix(reports[i]))
    ensures r.Some? ==> r.value < |reports| && IsFix(reports[r.value])
                        && forall i :: 0 <= i < r.value ==> !IsFix(reports[i])
  {
    if reports == [] then None
    else if IsFix(reports[0]) then Some(0)
    else match FirstFix(reports[1..])
      case None => None
      case Some(k) => Some(k + 1)
  }

  /**
   * The 24-bit field of one coordinate: the scaled value (C truncating
   * division) stored in the `uint32_t` of `pos_union`, bytes val8[2], val8[1],
   * val8[0].
   */
  function Field24(value: int, scale: int): (b: seq<uint8>)
    requires scale > 0
    ensures |b| == 3
  {
    Low24BigEndian(ToU32(TruncDiv(value, scale)))
  }

  /** lat_1..alt_3 for a fix: latitude/1000 and longitude/1000 in 1e-4 degree, altitude/10 in cm. */
  function EncodeFix(r: FixReport): (b: seq<uint8>)
    ensures |b| == 9
  {
    Field24(r.latitude, 1000) + Field24(r.longitude, 1000) + Field24(r.altitude, 10)
  }

  const NO_FIX_BYTES: seq<uint8> := [0, 0, 0, 0, 0, 0, 0, 0, 0]

  /** `g_tracker_data` with its nine location bytes replaced. */
  function WithLocation(t: seq<uint8>, loc: seq<uint8>): (r: seq<uint8>)
    requires |t| == TRACKER_DATA_LEN && |loc| == 9
    ensures |r| == TRACKER_DATA_LEN
  {
    t[2 := loc[0]][3 := loc[1]][4 := loc[2]]
     [5 := loc[3]][6 := loc[4]][7 := loc[5]]
     [8 := loc[6]][9 := loc[7]][10 := loc[8]]
  }

  /** The location bytes are `loc`; every other byte, tags included, is kept. */
  lemma WithLocationBytes(t: seq<uint8>, loc: seq<uint8>)
    requires |t| == TRACKER_DATA_LEN && |loc| == 9
    ensures var r := WithLocation(t, loc);
      && r[LOCATION_OFFSET..LOCATION_OFFSET + 9] == loc
      && (forall k :: 0 <= k < TRACKER_DATA_LEN && !(LOCATION_OFFSET <= k < LOCATION_OFFSET + 9)
            ==> r[k] == t[k])
      && (TrackerTagsAt(t) ==> TrackerTagsAt(r))
  {
    var r := WithLocation(t, loc);
    assert r[LOCATION_OFFSET..LOCATION_OFFSET + 9] == loc;
  }

  /** The specification of `poll_gnss`: whether a fix was found, and the new globals. */
  function PollStep(s: State, reports: seq<FixReport>): (r: (bool, State))
    requires WellFormed(s)
  {
    match FirstFix(reports)
    case Some(i) => (true, s.(lastReadOk := true, tracker := WithLocation(s.tracker, EncodeFix(reports[i]))))
    case None => (false, s.(lastReadOk := false, tracker := WithLocation(s.tracker, NO_FIX_BYTES)))
  }

  /**
   * `poll_gnss` writes only the nine location bytes and `last_read_ok`: the
   * result and `last_read_ok` say whether a fix was seen, a fix is encoded
   * from the first report that has one, and without a fix the bytes are zero.
   */
  lemma PollOutcome(s: State, reports: seq<FixReport>)
    requires WellFormed(s)
    ensures var (found, s') := PollStep(s, reports);
      && (found <==> exists i :: 0 <= i < |reports| && IsFix(reports[i]))
      && s'.lastReadOk == found
      && s' == s.(lastReadOk := found, tracker := s'.tracker)
      && WellFormed(s')
      && (forall k :: 0 <= k < TRACKER_DATA_LEN && !(LOCATION_OFFSET <= k < LOCATION_OFFSET + 9)
            ==> s'.tracker[k] == s.tracker[k])
      && (found ==> s'.tracker[LOCATION_OFFSET..LOCATION_OFFSET + 9]
                    == EncodeFix(reports[FirstFix(reports).value]))
      && (!found ==> s'.tracker[LOCATION_OFFSET..LOCATION_OFFSET + 9] == NO_FIX_BYTES)
  {
    match FirstFix(reports)
    case Some(i) =>
      assert IsFix(reports[i]);
      WithLocationBytes(s.tracker, EncodeFix(reports[i]));
    case None =>
      WithLocationBytes(s.tracker, NO_FIX_BYTES);
  }

  /**
   * A coordinate field read back as signed 24-bit gives the truncated
   * quotient, within one unit of the scale of the receiver's value: a
   * latitude or longitude to 1e-4 degree, an altitude to 1 cm.
   */
  lemma {:induction false} FieldRecoversValue(value: int, scale: int)
    requires scale > 0
    requires -0x80_0000 * scale < value < 0x80_0000 * scale
    ensures BigEndian(Field24(value, scale)) < 0x100_0000
    ensures SignExtend24(BigEndian(Field24(value, scale))) == TruncDiv(value, scale)
    ensures -scale < value - TruncDiv(value, scale) * scale < scale
  {
    var q := TruncDiv(value, scale);
    TruncDivBounds(value, scale);
    Low24RoundTrip(q);
  }

  /**
   * Every latitude (|lat| <= 90 degrees) and longitude (|lon| <= 180
   * degrees) fits its 3-byte field without overflow.
   */
  lemma CoordinatesFit(lat: int, lon: int)
    requires -900_000_000 <= lat <= 900_000_000 && -1_800_000_000 <= lon <= 1_800_000_000
    ensures BigEndian(Field24(lat, 1000)) < 0x100_0000 && BigEndian(Field24(lon, 1000)) < 0x100_0000
    ensures SignExtend24(BigEndian(Field24(lat, 1000))) == TruncDiv(lat, 1000)
    ensures SignExtend24(BigEndian(Field24(lon, 1000))) == TruncDiv(lon, 1000)
  {
    FieldRecoversValue(lat, 1000);
    FieldRecoversValue(lon, 1000);
  }

  /**
   * Copies `val8[2]`, `val8[1]`, `val8[0]` of the `pos_union` value `v` into
   * three consecutive bytes of `g_tracker_data`.
   */
  method StoreField(t: array<uint8>, off: nat, v: uint32)
    requires off + 3 <= t.Length
    modifies t
    ensures t[..] == old(t[..])[off := U32Byte(v, 2)][off + 1 := U32Byte(v, 1)][off + 2 := U32Byte(v, 0)]
  {
    t[off] := U32Byte(v, 2);
    t[off + 1] := U32Byte(v, 1);
    t[off + 2] := U32Byte(v, 0);
  }

  /** Zeroes the location bytes of `g_tracker_data`. */
  method ClearLocation(t: array<uint8>)
    requires t.Length == TRACKER_DATA_LEN
    modifies t
    ensures t[..] == WithLocation(old(t[..]), NO_FIX_BYTES)
  {
    t[2], t[3], t[4] := 0, 0, 0;
    t[5], t[6], t[7] := 0, 0, 0;
    t[8], t[9], t[10] := 0, 0, 0;
  }

  /** The three coordinate fields of a fix, written as `poll_gnss` does. */
  method StoreFix(t: array<uint8>, fix: FixReport)
    requires t.Length == TRACKER_DATA_LEN
    modifies t
    ensures t[..] == WithLocation(old(t[..]), EncodeFix(fix))
  {
    var posUnion := ToU32(TruncDiv(fix.latitude, 1000));
    StoreField(t, 2, posUnion);
    posUnion := ToU32(TruncDiv(fix.longitude, 1000));
    StoreField(t, 5, posUnion);
    posUnion := ToU32(TruncDiv(fix.altitude, 10));
    StoreField(t, 8, posUnion);
  }

  /**
   * `poll_gnss` on the globals: poll until a report has a fix or the reports
   * run out, then encode the fix through the `pos_union` scratch value, or
   * zero the location bytes.
   */
  method PollGnss(d: Device, reports: seq<FixReport>) returns (found: bool)
    requires d.Valid()
    modifies d`lastReadOk, d.tracker
    ensures d.Valid()
    ensures (found, d.Snapshot()) == PollStep(old(d.Snapshot()), reports)
  {
    var i := 0;
    var hasPos := false;
    while i < |reports|
      invariant 0 <= i <= |reports|
      invariant !hasPos
      invariant forall j :: 0 <= j < i ==> !IsFix(reports[j])
    {
      if IsFix(reports[i]) {
        hasPos := true;
        break;
      }
      i := i + 1;
    }
    ghost var before := d.tracker[..];
    if hasPos {
      d.lastReadOk := true;
      StoreFix(d.tracker, reports[i]);
      WithLocationBytes(before, EncodeFix(reports[i]));
      assert FirstFix(reports) == Some(i);
      return true;
    }
    ClearLocation(d.tracker);
    WithLocationBytes(before, NO_FIX_BYTES);
    d.lastReadOk := false;
    return false;
  }

  // ---------------------------------------------------------------------
  // gnss_task
  // ---------------------------------------------------------------------

  /**
   * One pass of `gnss_task`'s endless loop after `g_gnss_sem` was taken.
   * `taskSemReady` says whether `g_task_sem` exists.
   */
  function GnssWakeStep(s: State, reports: seq<FixReport>, taskSemReady: bool): (o: Outcome)
    requires WellFormed(s)
  {
    if !s.loraBusy then
      var s' := PollStep(s, reports).1;
      if taskSemReady then Outcome(s'.(events := s'.events.(gnssFin := true)), [GiveTaskSem])
      else Outcome(s', [])
    else
      var cnt := ToU8(s.busyCnt + 1);
      if cnt == 2 then Outcome(s.(busyCnt := 0, loraBusy := false), [])
      else Outcome(s.(busyCnt := cnt), [])
  }

  /**
   * A wake while the radio is idle searches, then raises GNSS_FIN and gives
   * `g_task_sem` whether or not a fix was found; it writes only the location
   * bytes, `last_read_ok` and the event. A wake while the radio is busy
   * searches nothing and asks for nothing: it counts the skip and clears
   * `lora_busy` on the second counted skip. Only busy wakes touch
   * `busy_cnt`, so the two skips need not be consecutive.
   */
  lemma GnssWakeOutcome(s: State, reports: seq<FixReport>, taskSemReady: bool)
    requires WellFormed(s) && s.busyCnt < 2
    ensures var o := GnssWakeStep(s, reports, taskSemReady);
      var (found, s1) := PollStep(s, reports);
      && WellFormed(o.state)
      && o.state.busyCnt < 2
      && (!s.loraBusy ==>
            && o.state == s.(lastReadOk := found, tracker := s1.tracker,
                             events := if taskSemReady then s.events.(gnssFin := true) else s.events)
            && o.effects == (if taskSemReady then [GiveTaskSem] else []))
      && (s.loraBusy ==>
            && o.state == s.(busyCnt := 1 - s.busyCnt, loraBusy := s.busyCnt == 0)
            && o.effects == [])
  {
    if s.loraBusy {
      GnssWakeBusy(s, reports, taskSemReady);
    } else {
      GnssWakeIdle(s, reports, taskSemReady);
    }
  }

  /** `GnssWakeOutcome` for a wake while the radio is idle. */
  lemma GnssWakeIdle(s: State, reports: seq<FixReport>, taskSemReady: bool)
    requires WellFormed(s) && !s.loraBusy
    ensures var o := GnssWakeStep(s, reports, taskSemReady);
      var (found, s1) := PollStep(s, reports);
      && WellFormed(o.state)
      && o.state == s.(lastReadOk := found, tracker := s1.tracker,
                       events := if taskSemReady then s.events.(gnssFin := true) else s.events)
      && o.effects == (if taskSemReady then [GiveTaskSem] else [])
  {
    PollOutcome(s, reports);
  }

  /** `GnssWakeOutcome` for a wake while the radio is busy. */
  lemma GnssWakeBusy(s: State, reports: seq<FixReport>, taskSemReady: bool)
    requires WellFormed(s) && s.busyCnt < 2 && s.loraBusy
    ensures var o := GnssWakeStep(s, reports, taskSemReady);
      && WellFormed(o.state)
      && o.state.busyCnt < 2
      && o.state == s.(busyCnt := 1 - s.busyCnt, loraBusy := s.busyCnt == 0)
      && o.effects == []
  {
  }

  /** One wake of a run: the radio's state when `g_gnss_sem` is taken, and what the receiver reports. */
  datatype Wake = Wake(busy: bool, reports: seq<FixReport>, taskSemReady: bool)

  /**
   * The state after a run of wakes of one `gnss_task`. Between wakes other
   * handlers set and clear `lora_busy` (a send, LORA_TX_FIN) but none of them
   * touches `busy_cnt`; `busy` is the radio's state at each wake.
   */
  function WakeRun(s: State, ws: seq<Wake>): (r: State)
    requires WellFormed(s) && s.busyCnt < 2
    ensures WellFormed(r) && r.busyCnt < 2
    decreases |ws|
  {
    if ws == [] then s
    else
      var s0 := s.(loraBusy := ws[0].busy);
      WakeCount(s0, ws[0].reports, ws[0].taskSemReady);
      WakeRun(GnssWakeStep(s0, ws[0].reports, ws[0].taskSemReady).state, ws[1..])
  }

  /** A busy wake flips `busy_cnt`, an idle one keeps it. */
  lemma WakeCount(s: State, reports: seq<FixReport>, taskSemReady: bool)
    requires WellFormed(s) && s.busyCnt < 2
    ensures var o := GnssWakeStep(s, reports, taskSemReady).state;
      WellFormed(o) && o.busyCnt == if s.loraBusy then 1 - s.busyCnt else s.busyCnt
  {
    if s.loraBusy {
      GnssWakeBusy(s, reports, taskSemReady);
    } else {
      GnssWakeIdle(s, reports, taskSemReady);
    }
  }

  /** Whether a run holds an odd number of busy wakes. */
  function OddBusy(ws: seq<Wake>): bool
  {
    if ws == [] then false else ws[0].busy != OddBusy(ws[1..])
  }

  /** Over a run, `busy_cnt` flips once per busy wake: it ends flipped exactly when their number is odd. */
  lemma {:induction false} WakeRunCount(s: State, ws: seq<Wake>)
    requires WellFormed(s) && s.busyCnt < 2
    ensures WakeRun(s, ws).busyCnt == if OddBusy(ws) then 1 - s.busyCnt else s.busyCnt
    decreases |ws|
  {
    if ws != [] {
      var s0 := s.(loraBusy := ws[0].busy);
      WakeCount(s0, ws[0].reports, ws[0].taskSemReady);
      var o := GnssWakeStep(s0, ws[0].reports, ws[0].taskSemReady).state;
      WakeRunCount(o, ws[1..]);
      assert WakeRun(s, ws) == WakeRun(o, ws[1..]);
    }
  }

  /** A run of idle wakes leaves the count as it is. */
  lemma {:induction false} IdleRunKeepsCount(ws: seq<Wake>)
    requires forall i :: 0 <= i < |ws| ==> !ws[i].busy
    ensures !OddBusy(ws)
    decreases |ws|
  {
    if ws != [] {
      IdleRunKeepsCount(ws[1..]);
    }
  }

  /**
   * Of two busy wakes, with any number of idle wakes between them, exactly
   * one frees the radio: the first when it finds `busy_cnt` at 1, else the
   * second.
   */
  lemma TwoSkipsClearBusy(s: State, first: Wake, idle: seq<Wake>, second: Wake)
    requires WellFormed(s) && s.busyCnt < 2 && first.busy && second.busy
    requires forall i :: 0 <= i < |idle| ==> !idle[i].busy
    ensures var s0 := s.(loraBusy := true);
      var o1 := GnssWakeStep(s0, first.reports, first.taskSemReady).state;
      && WellFormed(o1) && o1.busyCnt < 2
      && var o2 := GnssWakeStep(WakeRun(o1, idle).(loraBusy := true), second.reports, second.taskSemReady).state;
      (o1.loraBusy <==> !o2.loraBusy) && (!o1.loraBusy <==> s.busyCnt == 1)
  {
    var s0 := s.(loraBusy := true);
    GnssWakeBusy(s0, first.reports, first.taskSemReady);
    var o1 := GnssWakeStep(s0, first.reports, first.taskSemReady).state;
    WakeRunCount(o1, idle);
    IdleRunKeepsCount(idle);
    var m := WakeRun(o1, idle).(loraBusy := true);
    GnssWakeBusy(m, second.reports, second.taskSemReady);
  }

  /** The busy branch of `gnss_task`: count the skipped search, free the radio on the second. */
  method CountBusySkip(d: Device)
    requires d.Valid()
    modifies d`busyCnt, d`loraBusy
    ensures d.Valid()
    ensures var s := old(d.Snapshot()); var cnt := ToU8(s.busyCnt + 1);
      d.Snapshot() == if cnt == 2 then s.(busyCnt := 0, loraBusy := false) else s.(busyCnt := cnt)
  {
    d.busyCnt := ToU8(d.busyCnt + 1);
    if d.busyCnt == 2 {
      d.busyCnt := 0;
      d.loraBusy := false;
    }
  }

  /** One wake of `gnss_task` on the globals. */
  method GnssTaskWake(d: Device, reports: seq<FixReport>, taskSemReady: bool) returns (fx: seq<Effect>)
    requires d.Valid()
    modifies d`eventMask, d`lastReadOk, d`busyCnt, d`loraBusy, d.tracker
    ensures d.Valid()
    ensures Outcome(d.Snapshot(), fx) == GnssWakeStep(old(d.Snapshot()), reports, taskSemReady)
  {
    ghost var s0 := d.Snapshot();
    fx := [];
    if !d.loraBusy {
      var gotLocation := PollGnss(d, reports);
      ghost var s1 := d.Snapshot();
      assert s1 == PollStep(s0, reports).1;
      if taskSemReady {
        d.SetGnssFin();
        fx := [GiveTaskSem];
      }
    } else {
      CountBusySkip(d);
    }
  }
}
