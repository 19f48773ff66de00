/**
 * The scheduler of app.cpp: `init_app`'s send throttle, the three branches
 * of `app_event_handler` (STATUS, ACC_TRIGGER, GNSS_FIN), the three branches
 * of `lora_data_handler` (LORA_JOIN_FIN, LORA_TX_FIN, LORA_DATA) and the
 * `send_delayed` timer callback.
 *
 * Each handler is a step function from the old globals to the new globals
 * and the effects it asked for, and a method on `Device` that performs the
 * handler's assignments in the source's order and is proved to agree with
 * the step. `millis()` is read once per handler (`now`); the battery
 * reading, the join and transmission results, the sensor and the radio's
 * answers are parameters.
 */
module Scheduler {
  import opened Bytes
  import opened Layout
  import opened Globals
  import opened Environment
  import opened Wrappers

  // ---------------------------------------------------------------------
  // init_app
  // ---------------------------------------------------------------------

  /** `min_delay`: half the send interval, or 30 s when periodic sending is off. */
  function MinDelay(sendRepeatTime: uint32): (r: int)
    ensures sendRepeatTime != 0 ==> 2 * r <= sendRepeatTime < 2 * r + 2
    ensures sendRepeatTime == 0 ==> r == 30000
  {
    if sendRepeatTime != 0 then sendRepeatTime / 2 else 30000
  }

  /**
   * `init_app` after the sensors were initialised (`gnssOk`, `accOk`,
   * `bmeOk` are the results of `init_gnss`, `init_acc` and `init_bme`):
   * the result is their disjunction, since the later two are combined with
   * `|=`.
   */
  function InitStep(s: State, cfg: Settings, now: int, gnssOk: bool, accOk: bool, bmeOk: bool)
    : (r: (bool, Outcome))
  {
    var s1 := if !cfg.lorawanEnable then s.(lastPosSend := now, joined := true) else s;
    var fx1 := if !cfg.lorawanEnable then [StartGnssTask] else [];
    var md := MinDelay(cfg.sendRepeatTime);
    (gnssOk || accOk || bmeOk, Outcome(s1.(minDelay := md), fx1 + [BeginDelayedTimer(md)]))
  }

  /**
   * In P2P mode the acquisition task starts at once and the device counts
   * as joined; in LoRaWAN mode neither happens here. The delayed-sending
   * timer is prepared with `min_delay` but not started, and the result is
   * true as soon as one sensor initialised.
   */
  lemma InitOutcome(s: State, cfg: Settings, now: int, gnssOk: bool, accOk: bool, bmeOk: bool)
    ensures var (ok, o) := InitStep(s, cfg, now, gnssOk, accOk, bmeOk);
      && (ok <==> gnssOk || accOk || bmeOk)
      && o.state.minDelay == MinDelay(cfg.sendRepeatTime)
      && o.effects[|o.effects| - 1] == BeginDelayedTimer(o.state.minDelay)
      && (StartGnssTask in o.effects <==> !cfg.lorawanEnable)
      && (!cfg.lorawanEnable ==> o.state.joined && o.state.lastPosSend == now)
      && (cfg.lorawanEnable ==> o.state == s.(minDelay := o.state.minDelay))
      && o.state.(lastPosSend := s.lastPosSend, joined := s.joined, minDelay := s.minDelay) == s
  {
  }

  /** `init_app` on the globals. */
  method InitApp(d: Device, cfg: Settings, now: int, gnssOk: bool, accOk: bool, bmeOk: bool)
    returns (initResult: bool, fx: seq<Effect>)
    requires d.Valid()
    modifies d`lastPosSend, d`hasJoined, d`minDelay
    ensures d.Valid()
    ensures (initResult, Outcome(d.Snapshot(), fx)) == InitStep(old(d.Snapshot()), cfg, now, gnssOk, accOk, bmeOk)
  {
    initResult := gnssOk;
    fx := [];
    if !cfg.lorawanEnable {
      fx := fx + [StartGnssTask];
      d.lastPosSend := now;
      d.hasJoined := true;
    }
    initResult := initResult || accOk;
    initResult := initResult || bmeOk;
    if cfg.sendRepeatTime != 0 {
      d.minDelay := cfg.sendRepeatTime / 2;
    } else {
      d.minDelay := 30000;
    }
    fx := fx + [BeginDelayedTimer(d.minDelay)];
    ghost var r := InitStep(old(d.Snapshot()), cfg, now, gnssOk, accOk, bmeOk);
    assert r.1.effects == fx;
    assert r.1.state == d.Snapshot();
  }

  // ---------------------------------------------------------------------
  // app_event_handler: STATUS
  // ---------------------------------------------------------------------

  /** Battery level below which protection starts, and above which it ends (in 10 mV). */
  const LOW_BATT_ON: int := 290
  const LOW_BATT_OFF: int := 410
  /** Wakeup period while protection is active: one hour. */
  const PROTECTED_PERIOD: int := 3600000

  /** `low_batt_protection` after a battery reading `batt` (the hysteresis). */
  function Protection(wasOn: bool, batt: uint16): bool
  {
    if batt < LOW_BATT_ON then true
    else if batt > LOW_BATT_OFF && wasOn then false
    else wasOn
  }

  /** `g_tracker_data` with `batt_1`, `batt_2` taken from the `batt_s` union. */
  function WithBattery(t: seq<uint8>, batt: uint16): (r: seq<uint8>)
    requires |t| == TRACKER_DATA_LEN
    ensures TrackerTagsAt(t) ==> TrackerTagsAt(r)
  {
    t[BATT_OFFSET := HighByte(batt)][BATT_OFFSET + 1 := LowByte(batt)]
  }

  /** The 4 bytes sent in LoRaWAN mode while protection is on, from `data_flag3`. */
  function BatteryPayload(t: seq<uint8>): seq<uint8>
    requires |t| == TRACKER_DATA_LEN
  {
    t[DATA_FLAG3_OFFSET..DATA_FLAG3_OFFSET + 4]
  }

  /** The wakeup-timer changes the hysteresis asks for. */
  function HysteresisEffects(wasOn: bool, cfg: Settings, batt: uint16): seq<Effect>
  {
    if batt < LOW_BATT_ON then [SetWakeupPeriod(PROTECTED_PERIOD), ResetWakeupTimer]
    else if batt > LOW_BATT_OFF && wasOn then [SetWakeupPeriod(cfg.sendRepeatTime), ResetWakeupTimer]
    else []
  }

  /** The battery-only uplink sent while protection is on, from the updated globals. */
  function LowBatterySend(s: State, cfg: Settings, radio: LmhStatus): (o: Outcome)
    requires |s.tracker| == TRACKER_DATA_LEN
  {
    if !s.lowBattProtection then Outcome(s, [])
    else if cfg.lorawanEnable then
      Outcome(s.(loraBusy := s.loraBusy || radio == LmhSuccess), [LoraSend(BatteryPayload(s.tracker))])
    else Outcome(s, [P2PSend(s.tracker)])
  }

  /** The STATUS branch once its bit is cleared. */
  function StatusWork(s: State, cfg: Settings, batt: uint16, radio: LmhStatus): (o: Outcome)
    requires WellFormed(s)
    ensures WellFormed(o.state)
  {
    var fx1 := if !s.lowBattProtection then [StartBme, GiveGnssSem] else [];
    var fx2 := HysteresisEffects(s.lowBattProtection, cfg, batt);
    var s1 := s.(tracker := WithBattery(s.tracker, batt),
                 lowBattProtection := Protection(s.lowBattProtection, batt));
    var o := LowBatterySend(s1, cfg, radio);
    Outcome(o.state, fx1 + fx2 + o.effects)
  }

  /** The STATUS branch of `app_event_handler`, given `read_batt()/10` and the radio's answer. */
  function StatusStep(s: State, cfg: Settings, batt: uint16, radio: LmhStatus): (o: Outcome)
    requires WellFormed(s)
    ensures WellFormed(o.state)
  {
    if !s.events.status then Outcome(s, [])
    else StatusWork(s.(events := s.events.(status := false)), cfg, batt, radio)
  }

  /**
   * The battery hysteresis: below 290 protection turns on and the wakeup
   * period becomes one hour; above 410 with protection on it turns off and
   * the period returns to `send_repeat_time`; otherwise neither the flag nor
   * the period changes. `batt_1`/`batt_2` reassemble to the reading, and no
   * other byte of the packet changes.
   */
  lemma {:induction false} StatusBattery(s: State, cfg: Settings, batt: uint16, radio: LmhStatus)
    requires WellFormed(s) && s.events.status
    ensures var o := StatusStep(s, cfg, batt, radio);
      && o.state.events == s.events.(status := false)
      && o.state.joined == s.joined && o.state.sendFail == s.sendFail
      && Join16(o.state.tracker[BATT_OFFSET], o.state.tracker[BATT_OFFSET + 1]) == batt
      && (forall k :: 0 <= k < TRACKER_DATA_LEN && k != BATT_OFFSET && k != BATT_OFFSET + 1
            ==> o.state.tracker[k] == s.tracker[k])
      && (batt < 290 ==> o.state.lowBattProtection && SetWakeupPeriod(3600000) in o.effects)
      && (batt > 410 && s.lowBattProtection ==>
            !o.state.lowBattProtection && SetWakeupPeriod(cfg.sendRepeatTime) in o.effects)
      && (290 <= batt && (batt <= 410 || !s.lowBattProtection) ==>
            o.state.lowBattProtection == s.lowBattProtection
            && forall e :: e in o.effects ==> !e.SetWakeupPeriod? && e != ResetWakeupTimer)
  {
    SplitJoin16(batt);
  }

  /**
   * The battery-only uplink depends on the protection flag after the
   * reading. In LoRaWAN mode that uplink is `02 02 batt_1 batt_2` and marks
   * the radio busy when it was enqueued; in P2P mode the whole packet goes
   * out.
   */
  lemma {:induction false} StatusSends(s: State, cfg: Settings, batt: uint16, radio: LmhStatus)
    requires WellFormed(s) && s.events.status
    ensures var o := StatusStep(s, cfg, batt, radio);
      && ((exists e :: e in o.effects && e.LoraSend?) <==> o.state.lowBattProtection && cfg.lorawanEnable)
      && ((exists e :: e in o.effects && e.P2PSend?) <==> o.state.lowBattProtection && !cfg.lorawanEnable)
      && (o.state.lowBattProtection && cfg.lorawanEnable ==>
            o.effects[|o.effects| - 1] == LoraSend([0x02, 0x02, HighByte(batt), LowByte(batt)]))
      && (o.state.loraBusy <==>
            s.loraBusy || (o.state.lowBattProtection && cfg.lorawanEnable && radio == LmhSuccess))
  {
    WorkSends(s.(events := s.events.(status := false)), cfg, batt, radio);
  }

  /**
   * The sensor reading and the location search start only if protection was
   * off before the reading.
   */
  lemma StatusStarts(s: State, cfg: Settings, batt: uint16, radio: LmhStatus)
    requires WellFormed(s) && s.events.status
    ensures var o := StatusStep(s, cfg, batt, radio);
      && (StartBme in o.effects <==> !s.lowBattProtection)
      && (GiveGnssSem in o.effects <==> !s.lowBattProtection)
  {
    WorkSends(s.(events := s.events.(status := false)), cfg, batt, radio);
  }

  /** `StatusSends` once the bit is cleared. */
  lemma {:induction false} WorkSends(s: State, cfg: Settings, batt: uint16, radio: LmhStatus)
    requires WellFormed(s)
    ensures var o := StatusWork(s, cfg, batt, radio);
      && (StartBme in o.effects <==> !s.lowBattProtection)
      && (GiveGnssSem in o.effects <==> !s.lowBattProtection)
      && ((exists e :: e in o.effects && e.LoraSend?) <==> o.state.lowBattProtection && cfg.lorawanEnable)
      && ((exists e :: e in o.effects && e.P2PSend?) <==> o.state.lowBattProtection && !cfg.lorawanEnable)
      && (o.state.lowBattProtection && cfg.lorawanEnable ==>
            o.effects[|o.effects| - 1] == LoraSend([0x02, 0x02, HighByte(batt), LowByte(batt)]))
      && (o.state.loraBusy <==>
            s.loraBusy || (o.state.lowBattProtection && cfg.lorawanEnable && radio == LmhSuccess))
  {
    var o := StatusWork(s, cfg, batt, radio);
    BatteryPayloadBytes(s.tracker, batt);
    if o.state.lowBattProtection && cfg.lorawanEnable {
      assert o.effects[|o.effects| - 1].LoraSend?;
    }
    if o.state.lowBattProtection && !cfg.lorawanEnable {
      assert o.effects[|o.effects| - 1].P2PSend?;
    }
  }

  /** The battery-only payload is the `data_flag3` tag and the two battery bytes. */
  lemma BatteryPayloadBytes(t: seq<uint8>, batt: uint16)
    requires TrackerTagsAt(t)
    ensures BatteryPayload(WithBattery(t, batt)) == [0x02, 0x02, HighByte(batt), LowByte(batt)]
  {
  }

  /** Writes the `batt_s` bytes into `g_tracker_data`. */
  method StoreBattery(d: Device, batt: uint16)
    requires d.Valid()
    modifies d.tracker
    ensures d.Valid()
    ensures d.Snapshot() == old(d.Snapshot()).(tracker := WithBattery(old(d.tracker[..]), batt))
  {
    d.tracker[BATT_OFFSET] := HighByte(batt);
    d.tracker[BATT_OFFSET + 1] := LowByte(batt);
  }

  /** The hysteresis on the globals. */
  method ApplyHysteresis(d: Device, cfg: Settings, batt: uint16) returns (fx: seq<Effect>)
    requires d.Valid()
    modifies d`lowBattProtection
    ensures d.Valid()
    ensures fx == HysteresisEffects(old(d.lowBattProtection), cfg, batt)
    ensures d.Snapshot()
            == old(d.Snapshot()).(lowBattProtection := Protection(old(d.lowBattProtection), batt))
  {
    fx := [];
    if batt < LOW_BATT_ON {
      d.lowBattProtection := true;
      fx := [SetWakeupPeriod(PROTECTED_PERIOD), ResetWakeupTimer];
    } else if batt > LOW_BATT_OFF && d.lowBattProtection {
      d.lowBattProtection := false;
      fx := [SetWakeupPeriod(cfg.sendRepeatTime), ResetWakeupTimer];
    }
  }

  /** The battery-only uplink on the globals. */
  method SendLowBattery(d: Device, cfg: Settings, radio: LmhStatus) returns (fx: seq<Effect>)
    requires d.Valid()
    modifies d`loraBusy
    ensures d.Valid()
    ensures Outcome(d.Snapshot(), fx) == LowBatterySend(old(d.Snapshot()), cfg, radio)
  {
    fx := [];
    if d.lowBattProtection {
      if cfg.lorawanEnable {
        fx := [LoraSend(d.tracker[DATA_FLAG3_OFFSET..DATA_FLAG3_OFFSET + 4])];
        if radio == LmhSuccess {
          d.loraBusy := true;
        }
      } else {
        fx := [P2PSend(d.tracker[..])];
      }
    }
  }

  /** The STATUS branch on the globals, once its bit is cleared. */
  method StatusWorkOn(d: Device, cfg: Settings, batt: uint16, radio: LmhStatus) returns (fx: seq<Effect>)
    requires d.Valid()
    modifies d`lowBattProtection, d`loraBusy, d.tracker
    ensures d.Valid()
    ensures Outcome(d.Snapshot(), fx) == StatusWork(old(d.Snapshot()), cfg, batt, radio)
  {
    fx := [];
    if !d.lowBattProtection {
      fx := [StartBme, GiveGnssSem];
    }
    StoreBattery(d, batt);
    var fx2 := ApplyHysteresis(d, cfg, batt);
    var fx3 := SendLowBattery(d, cfg, radio);
    fx := fx + fx2 + fx3;
  }

  /** The STATUS branch on the globals. */
  method HandleStatus(d: Device, cfg: Settings, batt: uint16, radio: LmhStatus) returns (fx: seq<Effect>)
    requires d.Valid()
    modifies d`eventMask, d`lowBattProtection, d`loraBusy, d.tracker
    ensures d.Valid()
    ensures Outcome(d.Snapshot(), fx) == StatusStep(old(d.Snapshot()), cfg, batt, radio)
  {
    fx := [];
    var pending := d.TakeStatus();
    if pending {
      fx := StatusWorkOn(d, cfg, batt, radio);
    }
  }

  // ---------------------------------------------------------------------
  // app_event_handler: ACC_TRIGGER
  // ---------------------------------------------------------------------

  /**
   * The delay armed for a throttled motion event. The source tests the
   * absolute value of a comparison, which is non-zero exactly when the
   * comparison holds.
   */
  function WaitTime(minDelay: int, elapsed: int): int
  {
    if minDelay - elapsed >= 0 then minDelay - elapsed else minDelay
  }

  /** Whether a motion event at `now` falls inside the throttle window. */
  predicate Throttled(s: State, cfg: Settings, now: int)
  {
    cfg.sendRepeatTime != 0 && now - s.lastPosSend < s.minDelay
  }

  /** The ACC_TRIGGER branch once its bit is cleared. */
  function AccWork(s: State, cfg: Settings, now: int): (o: Outcome)
    ensures WellFormed(s) ==> WellFormed(o.state)
  {
    var reset := if cfg.sendRepeatTime != 0 then [ResetWakeupTimer] else [];
    if !Throttled(s, cfg, now) then
      Outcome(s.(lastPosSend := now, events := s.events.(status := true)),
              [ClearAccInterrupt] + reset)
    else if !s.delayedActive then
      var w := WaitTime(s.minDelay, now - s.lastPosSend);
      Outcome(s.(delayedActive := true),
              [ClearAccInterrupt, StopDelayedTimer, StartDelayedTimer(w)] + reset)
    else Outcome(s, [ClearAccInterrupt] + reset)
  }

  /** The ACC_TRIGGER branch of `app_event_handler`. */
  function AccStep(s: State, cfg: Settings, now: int): (o: Outcome)
    ensures WellFormed(s) ==> WellFormed(o.state)
  {
    if !(s.events.accTrigger && s.joined) then Outcome(s, [])
    else AccWork(s.(events := s.events.(accTrigger := false)), cfg, now)
  }

  /** A motion event is acted on only once the device has joined; until then nothing changes. */
  lemma AccIgnored(s: State, cfg: Settings, now: int)
    requires !(s.events.accTrigger && s.joined)
    ensures AccStep(s, cfg, now) == Outcome(s, [])
  {
  }

  /**
   * Outside the throttle window (always, with periodic sending off) the
   * event clears its bit, raises STATUS and stamps `last_pos_send`; the
   * wakeup timer restarts exactly when periodic sending is on.
   */
  lemma {:induction false} AccImmediate(s: State, cfg: Settings, now: int)
    requires s.events.accTrigger && s.joined
    requires cfg.sendRepeatTime == 0 || now - s.lastPosSend >= s.minDelay
    ensures var o := AccStep(s, cfg, now);
      && o.state == s.(events := s.events.(accTrigger := false, status := true), lastPosSend := now)
      && ClearAccInterrupt in o.effects
      && (ResetWakeupTimer in o.effects <==> cfg.sendRepeatTime != 0)
      && forall e :: e in o.effects ==> !e.StartDelayedTimer?
  {
    AccWorkImmediate(s.(events := s.events.(accTrigger := false)), cfg, now);
  }

  /** `AccImmediate` once the bit is cleared. */
  lemma AccWorkImmediate(s: State, cfg: Settings, now: int)
    requires !Throttled(s, cfg, now)
    ensures var o := AccWork(s, cfg, now);
      && o.state == s.(events := s.events.(status := true), lastPosSend := now)
      && ClearAccInterrupt in o.effects
      && (ResetWakeupTimer in o.effects <==> cfg.sendRepeatTime != 0)
      && forall e :: e in o.effects ==> !e.StartDelayedTimer?
  {
  }

  /**
   * Inside the throttle window the event clears its bit but raises nothing
   * and keeps `last_pos_send`. Unless a delayed send is already pending, one
   * is armed after `min_delay - elapsed`, which lies in (0, min_delay] on a
   * clock that does not run backwards, and the pending flag is set.
   */
  lemma {:induction false} AccThrottled(s: State, cfg: Settings, now: int)
    requires s.events.accTrigger && s.joined
    requires cfg.sendRepeatTime != 0 && s.lastPosSend <= now && now - s.lastPosSend < s.minDelay
    ensures var o := AccStep(s, cfg, now); var w := s.minDelay - (now - s.lastPosSend);
      && 0 < w <= s.minDelay
      && o.state == s.(events := s.events.(accTrigger := false), delayedActive := true)
      && ClearAccInterrupt in o.effects && ResetWakeupTimer in o.effects
      && (!s.delayedActive ==> StartDelayedTimer(w) in o.effects)
      && (s.delayedActive ==> forall e :: e in o.effects ==> !e.StartDelayedTimer?)
  {
    AccWorkThrottled(s.(events := s.events.(accTrigger := false)), cfg, now);
  }

  /** `AccThrottled` once the bit is cleared. */
  lemma AccWorkThrottled(s: State, cfg: Settings, now: int)
    requires Throttled(s, cfg, now) && s.lastPosSend <= now
    ensures var o := AccWork(s, cfg, now); var w := s.minDelay - (now - s.lastPosSend);
      && 0 < w <= s.minDelay
      && o.state == s.(delayedActive := true)
      && ClearAccInterrupt in o.effects && ResetWakeupTimer in o.effects
      && (!s.delayedActive ==> StartDelayedTimer(w) in o.effects)
      && (s.delayedActive ==> forall e :: e in o.effects ==> !e.StartDelayedTimer?)
  {
    var o := AccWork(s, cfg, now);
    if !s.delayedActive {
      assert o.effects[2] == StartDelayedTimer(s.minDelay - (now - s.lastPosSend));
    }
  }

  /** The ACC_TRIGGER branch on the globals, once its bit is cleared. */
  method AccWorkOn(d: Device, cfg: Settings, now: int) returns (fx: seq<Effect>)
    requires d.Valid()
    modifies d`eventMask, d`delayedActive, d`lastPosSend
    ensures d.Valid()
    ensures Outcome(d.Snapshot(), fx) == AccWork(old(d.Snapshot()), cfg, now)
  {
    fx := [ClearAccInterrupt];
    var sendNow := true;
    if cfg.sendRepeatTime != 0 {
      if now - d.lastPosSend < d.minDelay {
        sendNow := false;
        if !d.delayedActive {
          fx := fx + [StopDelayedTimer];
          var elapsed, minDelay := now - d.lastPosSend, d.minDelay;
          var waitTime := if minDelay - elapsed >= 0 then minDelay - elapsed else minDelay;
          fx := fx + [StartDelayedTimer(waitTime)];
          d.delayedActive := true;
        }
      }
    }
    if sendNow {
      d.lastPosSend := now;
      d.SetStatus();
    }
    if cfg.sendRepeatTime != 0 {
      fx := fx + [ResetWakeupTimer];
    }
  }

  /** The ACC_TRIGGER branch on the globals. */
  method HandleAcc(d: Device, cfg: Settings, now: int) returns (fx: seq<Effect>)
    requires d.Valid()
    modifies d`eventMask, d`delayedActive, d`lastPosSend
    ensures d.Valid()
    ensures Outcome(d.Snapshot(), fx) == AccStep(old(d.Snapshot()), cfg, now)
  {
    fx := [];
    var pending := d.TakeAccTrigger();
    if pending {
      fx := AccWorkOn(d, cfg, now);
    }
  }

  // ---------------------------------------------------------------------
  // app_event_handler: GNSS_FIN
  // ---------------------------------------------------------------------

  /** What `send_lora_packet` answers to the first, second and third attempt. */
  datatype RadioAnswers = RadioAnswers(first: LmhStatus, second: LmhStatus, third: LmhStatus)

  /** The uplink after a search: the whole packet after a fix, else the 19 bytes from `data_flag3`. */
  function Uplink(s: State): (p: seq<uint8>)
    requires WellFormed(s)
  {
    if s.lastReadOk then s.tracker else s.tracker[DATA_FLAG3_OFFSET..]
  }

  /** The send attempts: a retry follows only `LMH_ERROR`, and there are at most three. */
  function Attempts(p: seq<uint8>, radio: RadioAnswers): seq<Effect>
  {
    if radio.first != LmhError then [LoraSend(p)]
    else if radio.second != LmhError then [LoraSend(p), LoraSend(p)]
    else [LoraSend(p), LoraSend(p), LoraSend(p)]
  }

  /** Whether `lora_busy` is set: the third attempt's answer is never looked at. */
  predicate Enqueued(radio: RadioAnswers)
  {
    radio.first == LmhSuccess || (radio.first == LmhError && radio.second == LmhSuccess)
  }

  /** The GNSS_FIN branch once its bit is cleared. */
  function GnssFinWork(s: State, cfg: Settings, now: int, polls: seq<bool>, reading: Reading,
                       radio: RadioAnswers): (o: Outcome)
    requires WellFormed(s)
    ensures WellFormed(o.state)
  {
    var s1 := s.(env := BmeStep(s.env, polls, reading).env, lastPosSend := now, delayedActive := false);
    assert WellFormed(s1) by { BmeOutcome(s.env, polls, reading); }
    if !cfg.lorawanEnable then Outcome(s1, [P2PSend(s1.tracker)])
    else if cfg.loraRegion == 8 && cfg.dataRate == 0 then Outcome(s1, [DataRateError])
    else Outcome(s1.(loraBusy := s1.loraBusy || Enqueued(radio)), Attempts(Uplink(s1), radio))
  }

  /** The GNSS_FIN branch of `app_event_handler`. */
  function GnssFinStep(s: State, cfg: Settings, now: int, polls: seq<bool>, reading: Reading,
                       radio: RadioAnswers): (o: Outcome)
    requires WellFormed(s)
    ensures WellFormed(o.state)
  {
    if !s.events.gnssFin then Outcome(s, [])
    else GnssFinWork(s.(events := s.events.(gnssFin := false)), cfg, now, polls, reading, radio)
  }

  /**
   * After a search the branch stamps `last_pos_send`, ends any pending
   * delayed send and reads the environment sensor. Region 8 at data rate 0
   * sends nothing. Otherwise one to three identical uplinks go out, a retry
   * following exactly an `LMH_ERROR` answer: 30 bytes after a fix, else the
   * 19-byte sensor payload from `data_flag3`. `lora_busy` is set when the
   * first or second attempt was enqueued, and not by a third.
   */
  lemma {:induction false} GnssFinOutcome(s: State, cfg: Settings, now: int, polls: seq<bool>,
                                          reading: Reading, radio: RadioAnswers)
    requires WellFormed(s) && s.events.gnssFin
    ensures var o := GnssFinStep(s, cfg, now, polls, reading, radio);
      && o.state.events == s.events.(gnssFin := false)
      && o.state.lastPosSend == now && !o.state.delayedActive
      && o.state.env == BmeStep(s.env, polls, reading).env
      && o.state.tracker == s.tracker
      && (cfg.lorawanEnable && cfg.loraRegion == 8 && cfg.dataRate == 0 ==>
            o.effects == [DataRateError] && o.state.loraBusy == s.loraBusy)
      && (cfg.lorawanEnable && !(cfg.loraRegion == 8 && cfg.dataRate == 0) ==>
            && 1 <= |o.effects| <= 3
            && |o.effects| == 1 + (if radio.first == LmhError then 1 else 0)
                                + (if radio.first == LmhError && radio.second == LmhError then 1 else 0)
            && (forall i :: 0 <= i < |o.effects| ==>
                  o.effects[i].LoraSend?
                  && |o.effects[i].payload| == (if s.lastReadOk then TRACKER_DATA_LEN else 19))
            && (!s.lastReadOk ==> forall i :: 0 <= i < |o.effects| ==>
                  ParseEnv(o.effects[i].payload) == Some(SensorsOf(ParseTracker(s.tracker).value)))
            && (o.state.loraBusy <==>
                  s.loraBusy || radio.first == LmhSuccess
                  || (radio.first == LmhError && radio.second == LmhSuccess)))
      && (!cfg.lorawanEnable ==> o.effects == [P2PSend(s.tracker)])
  {
    GnssFinWorkOutcome(s.(events := s.events.(gnssFin := false)), cfg, now, polls, reading, radio);
  }

  /** `GnssFinOutcome` once the bit is cleared. */
  lemma {:induction false} GnssFinWorkOutcome(s: State, cfg: Settings, now: int, polls: seq<bool>,
                                              reading: Reading, radio: RadioAnswers)
    requires WellFormed(s)
    ensures var o := GnssFinWork(s, cfg, now, polls, reading, radio);
      && o.state.events == s.events
      && o.state.lastPosSend == now && !o.state.delayedActive
      && o.state.env == BmeStep(s.env, polls, reading).env
      && o.state.tracker == s.tracker
      && (cfg.lorawanEnable && cfg.loraRegion == 8 && cfg.dataRate == 0 ==>
            o.effects == [DataRateError] && o.state.loraBusy == s.loraBusy)
      && (cfg.lorawanEnable && !(cfg.loraRegion == 8 && cfg.dataRate == 0) ==>
            && 1 <= |o.effects| <= 3
            && |o.effects| == 1 + (if radio.first == LmhError then 1 else 0)
                                + (if radio.first == LmhError && radio.second == LmhError then 1 else 0)
            && (forall i :: 0 <= i < |o.effects| ==>
                  o.effects[i].LoraSend?
                  && |o.effects[i].payload| == (if s.lastReadOk then TRACKER_DATA_LEN else 19))
            && (!s.lastReadOk ==> forall i :: 0 <= i < |o.effects| ==>
                  ParseEnv(o.effects[i].payload) == Some(SensorsOf(ParseTracker(s.tracker).value)))
            && (o.state.loraBusy <==>
                  s.loraBusy || radio.first == LmhSuccess
                  || (radio.first == LmhError && radio.second == LmhSuccess)))
      && (!cfg.lorawanEnable ==> o.effects == [P2PSend(s.tracker)])
  {
    UplinkAttempts(s, radio);
  }

  /** The attempts of one search's uplink: their number, and what each carries. */
  lemma {:induction false} UplinkAttempts(s: State, radio: RadioAnswers)
    requires WellFormed(s)
    ensures var fx := Attempts(Uplink(s), radio);
      && |fx| == 1 + (if radio.first == LmhError then 1 else 0)
                   + (if radio.first == LmhError && radio.second == LmhError then 1 else 0)
      && (forall i :: 0 <= i < |fx| ==>
            fx[i].LoraSend?
            && |fx[i].payload| == (if s.lastReadOk then TRACKER_DATA_LEN else 19))
      && (!s.lastReadOk ==> forall i :: 0 <= i < |fx| ==>
            ParseEnv(fx[i].payload) == Some(SensorsOf(ParseTracker(s.tracker).value)))
  {
    TrackerSplitsAtDataFlag3(s.tracker);
  }

  /** The sends of the GNSS_FIN branch, with the nested retry of the source. */
  method SendTracker(d: Device, radio: RadioAnswers) returns (fx: seq<Effect>)
    requires d.Valid()
    modifies d`loraBusy
    ensures d.Valid()
    ensures var s := old(d.Snapshot());
      fx == Attempts(Uplink(s), radio) && d.Snapshot() == s.(loraBusy := s.loraBusy || Enqueued(radio))
  {
    var payload := if d.lastReadOk then d.tracker[..] else d.tracker[DATA_FLAG3_OFFSET..];
    fx := [LoraSend(payload)];
    var result := radio.first;
    match result
    case LmhSuccess =>
      d.loraBusy := true;
    case LmhBusy =>
    case LmhError =>
      fx := fx + [LoraSend(payload)];
      result := radio.second;
      match result
      case LmhSuccess =>
        d.loraBusy := true;
      case LmhBusy =>
      case LmhError =>
        fx := fx + [LoraSend(payload)];
        result := radio.third;
  }

  /** The GNSS_FIN branch on the globals, once its bit is cleared. */
  method GnssFinWorkOn(d: Device, cfg: Settings, now: int, polls: seq<bool>, reading: Reading,
                       radio: RadioAnswers) returns (fx: seq<Effect>)
    requires d.Valid()
    modifies d`lastPosSend, d`delayedActive, d`loraBusy, d.env
    ensures d.Valid()
    ensures Outcome(d.Snapshot(), fx) == GnssFinWork(old(d.Snapshot()), cfg, now, polls, reading, radio)
  {
    ghost var e0 := d.env[..];
    var envOk := ReadBme(d.env, polls, reading);
    BmeOutcome(e0, polls, reading);
    d.lastPosSend := now;
    d.delayedActive := false;
    if cfg.lorawanEnable {
      if cfg.loraRegion == 8 {
        if cfg.dataRate == 0 {
          fx := [DataRateError];
          return;
        }
      }
      fx := SendTracker(d, radio);
    } else {
      fx := [P2PSend(d.tracker[..])];
    }
  }

  /** The GNSS_FIN branch on the globals. */
  method HandleGnssFin(d: Device, cfg: Settings, now: int, polls: seq<bool>, reading: Reading,
                       radio: RadioAnswers) returns (fx: seq<Effect>)
    requires d.Valid()
    modifies d`eventMask, d`lastPosSend, d`delayedActive, d`loraBusy, d.env
    ensures d.Valid()
    ensures Outcome(d.Snapshot(), fx) == GnssFinStep(old(d.Snapshot()), cfg, now, polls, reading, radio)
  {
    fx := [];
    var pending := d.TakeGnssFin();
    if pending {
      fx := GnssFinWorkOn(d, cfg, now, polls, reading, radio);
    }
  }

  // ---------------------------------------------------------------------
  // app_event_handler as a whole
  // ---------------------------------------------------------------------

  /** The inputs one call of `app_event_handler` consumes. */
  datatype AppInputs = AppInputs(now: int, batt: uint16, battRadio: LmhStatus,
                                 polls: seq<bool>, reading: Reading, radio: RadioAnswers)

  /** `app_event_handler`: the STATUS, ACC_TRIGGER and GNSS_FIN branches in that order. */
  function AppEvent(s: State, cfg: Settings, in_: AppInputs): (o: Outcome)
    requires WellFormed(s)
    ensures WellFormed(o.state)
  {
    var o1 := StatusStep(s, cfg, in_.batt, in_.battRadio);
    var o2 := AccStep(o1.state, cfg, in_.now);
    var o3 := GnssFinStep(o2.state, cfg, in_.now, in_.polls, in_.reading, in_.radio);
    Outcome(o3.state, o1.effects + o2.effects + o3.effects)
  }

  /** The STATUS branch leaves the ACC_TRIGGER and GNSS_FIN events, `joined` and `send_fail` alone. */
  lemma StatusKeepsEvents(s: State, cfg: Settings, batt: uint16, radio: LmhStatus)
    requires WellFormed(s)
    ensures var o := StatusStep(s, cfg, batt, radio);
      && o.state.events.accTrigger == s.events.accTrigger
      && o.state.events.gnssFin == s.events.gnssFin
      && o.state.joined == s.joined && o.state.sendFail == s.sendFail
  {
    if s.events.status {
      StatusBattery(s, cfg, batt, radio);
    }
  }

  /**
   * On a joined device the ACC_TRIGGER branch always leaves its event
   * cleared, keeps GNSS_FIN, and raises STATUS when the event is not
   * throttled.
   */
  lemma AccClearsEvent(s: State, cfg: Settings, now: int)
    requires s.joined
    ensures var o := AccStep(s, cfg, now);
      && !o.state.events.accTrigger
      && o.state.events.gnssFin == s.events.gnssFin
      && o.state.joined && o.state.sendFail == s.sendFail
      && (s.events.accTrigger && !Throttled(s, cfg, now) ==> o.state.events.status)
  {
  }

  /** The GNSS_FIN branch always leaves its event cleared and keeps ACC_TRIGGER and STATUS. */
  lemma GnssFinClearsEvent(s: State, cfg: Settings, now: int, polls: seq<bool>, reading: Reading,
                           radio: RadioAnswers)
    requires WellFormed(s)
    ensures var o := GnssFinStep(s, cfg, now, polls, reading, radio);
      && !o.state.events.gnssFin
      && o.state.events.accTrigger == s.events.accTrigger
      && o.state.events.status == s.events.status
      && o.state.joined == s.joined && o.state.sendFail == s.sendFail
  {
  }

  /**
   * A motion event that is sent at once raises STATUS after the STATUS
   * branch already ran, so the reading it asks for waits for the next call
   * of the handler; the handler never leaves the ACC_TRIGGER or GNSS_FIN
   * event set once the device has joined, and never changes `send_fail`.
   */
  lemma {:induction false} AppEventOutcome(s: State, cfg: Settings, in_: AppInputs)
    requires WellFormed(s) && s.joined
    ensures var o := AppEvent(s, cfg, in_);
      && !o.state.events.accTrigger
      && !o.state.events.gnssFin
      && o.state.sendFail == s.sendFail
      && o.state.joined
      && (s.events.accTrigger
          && !Throttled(StatusStep(s, cfg, in_.batt, in_.battRadio).state, cfg, in_.now) ==>
            o.state.events.status)
  {
    var o1 := StatusStep(s, cfg, in_.batt, in_.battRadio);
    var o2 := AccStep(o1.state, cfg, in_.now);
    StatusKeepsEvents(s, cfg, in_.batt, in_.battRadio);
    AccClearsEvent(o1.state, cfg, in_.now);
    GnssFinClearsEvent(o2.state, cfg, in_.now, in_.polls, in_.reading, in_.radio);
  }

  /** `app_event_handler` on the globals. */
  method AppEventHandler(d: Device, cfg: Settings, in_: AppInputs) returns (fx: seq<Effect>)
    requires d.Valid()
    modifies d`eventMask, d`lowBattProtection, d`loraBusy, d`delayedActive, d`lastPosSend, d.tracker, d.env
    ensures d.Valid()
    ensures Outcome(d.Snapshot(), fx) == AppEvent(old(d.Snapshot()), cfg, in_)
  {
    var fx1 := HandleStatus(d, cfg, in_.batt, in_.battRadio);
    var fx2 := HandleAcc(d, cfg, in_.now);
    var fx3 := HandleGnssFin(d, cfg, in_.now, in_.polls, in_.reading, in_.radio);
    fx := fx1 + fx2 + fx3;
  }

  // ---------------------------------------------------------------------
  // lora_data_handler and send_delayed
  // ---------------------------------------------------------------------

  /** Failed transmissions after which the node restarts. */
  const MAX_SEND_FAIL: int := 10

  /**
   * The LORA_JOIN_FIN branch, given `g_join_result`. A successful join
   * creates a new `gnss_task`, whose local `busy_cnt` starts at 0.
   */
  function JoinFinStep(s: State, joinOk: bool, now: int): (o: Outcome)
  {
    var s1 := s.(events := s.events.(loraJoinFin := false));
    if !s.events.loraJoinFin then Outcome(s, [])
    else if joinOk then Outcome(s1.(lastPosSend := now, busyCnt := 0), [StartGnssTask]) else Outcome(s1, [])
  }

  /** The LORA_TX_FIN branch, given `g_rx_fin_result`. */
  function TxFinStep(s: State, txOk: bool): (o: Outcome)
  {
    if !s.events.loraTxFin then Outcome(s, [])
    else
      var s1 := s.(events := s.events.(loraTxFin := false), loraBusy := false);
      if txOk then Outcome(s1, [])
      else
        var n := ToU8(s.sendFail + 1);
        Outcome(s1.(sendFail := n), if n == MAX_SEND_FAIL then [SystemReset] else [])
  }

  /** The LORA_DATA branch: only the bit and `lora_busy` change. */
  function RxDataStep(s: State): (o: Outcome)
  {
    if !s.events.loraData then Outcome(s, [])
    else Outcome(s.(events := s.events.(loraData := false), loraBusy := false), [])
  }

  /** `lora_data_handler`: LORA_JOIN_FIN, LORA_TX_FIN and LORA_DATA in that order. */
  function LoraDataStep(s: State, joinOk: bool, txOk: bool, now: int): (o: Outcome)
  {
    var o1 := JoinFinStep(s, joinOk, now);
    var o2 := TxFinStep(o1.state, txOk);
    var o3 := RxDataStep(o2.state);
    Outcome(o3.state, o1.effects + o2.effects + o3.effects)
  }

  /**
   * A successful join starts a new acquisition task, whose skip count is 0,
   * and stamps `last_pos_send`; a failed one only clears the bit. Neither
   * sets `g_lpwan_has_joined`, which the LoRaWAN stack maintains, and
   * nothing else changes.
   */
  lemma JoinFinOutcome(s: State, joinOk: bool, now: int)
    requires s.events.loraJoinFin
    ensures var o := JoinFinStep(s, joinOk, now);
      && o.state.events == s.events.(loraJoinFin := false)
      && o.state.joined == s.joined
      && (joinOk ==> && o.effects == [StartGnssTask]
                     && o.state == s.(events := s.events.(loraJoinFin := false), lastPosSend := now, busyCnt := 0))
      && (!joinOk ==> o.effects == [] && o.state == s.(events := s.events.(loraJoinFin := false)))
  {
  }

  /**
   * The end of a transmission always frees the radio. A failure counts in
   * `send_fail` (an 8-bit counter) and asks for a restart exactly when the
   * count becomes 10; a success leaves the count as it is.
   */
  lemma TxFinOutcome(s: State, txOk: bool)
    requires s.events.loraTxFin
    ensures var o := TxFinStep(s, txOk);
      && o.state.events == s.events.(loraTxFin := false)
      && !o.state.loraBusy
      && (txOk ==> o.state.sendFail == s.sendFail && o.effects == [])
      && (!txOk ==> o.state.sendFail == (s.sendFail + 1) % 256
                    && (SystemReset in o.effects <==> o.state.sendFail == 10))
      && o.state.(events := s.events, loraBusy := s.loraBusy, sendFail := s.sendFail) == s
  {
  }

  /** Number of failed transmissions in a run of results. */
  function Failures(results: seq<bool>): (n: nat)
    ensures n <= |results|
    ensures n == multiset(results)[false]
  {
    if results == [] then 0
    else
      assert results == [results[0]] + results[1..];
      (if results[0] then 0 else 1) + Failures(results[1..])
  }

  /** The failures of two runs in a row add up. */
  lemma {:induction false} FailuresAppend(a: seq<bool>, b: seq<bool>)
    ensures Failures(a + b) == Failures(a) + Failures(b)
    decreases |a|
  {
    if a != [] {
      assert (a + b)[1..] == a[1..] + b;
      FailuresAppend(a[1..], b);
    } else {
      assert a + b == b;
    }
  }

  /** A run of LORA_TX_FIN events, one per result, each handled by `lora_data_handler`. */
  function TxRun(s: State, results: seq<bool>): (o: Outcome)
    decreases |results|
  {
    if results == [] then Outcome(s, [])
    else
      var o1 := TxTurn(s, results[0]);
      var o2 := TxRun(o1.state, results[1..]);
      Outcome(o2.state, o1.effects + o2.effects)
  }

  /**
   * Over any run of transmissions whose failures keep the 8-bit counter from
   * wrapping, `send_fail` grows by the number of failures (successes never
   * reset it), and exactly one restart is requested if the run takes the
   * count across 10.
   */
  lemma {:induction false} TxRunRestarts(s: State, results: seq<bool>)
    requires s.sendFail + Failures(results) < 256
    ensures TxRun(s, results).state.sendFail == s.sendFail + Failures(results)
    ensures multiset(TxRun(s, results).effects)[SystemReset]
            == if s.sendFail < 10 <= s.sendFail + Failures(results) then 1 else 0
    decreases |results|
  {
    if results != [] {
      var o1 := TxTurn(s, results[0]);
      var rest := results[1..];
      var f0 := if results[0] then 0 else 1;
      assert Failures(results) == f0 + Failures(rest);
      assert o1.state.sendFail == s.sendFail + f0;
      TxRunRestarts(o1.state, rest);
      var o2 := TxRun(o1.state, rest);
      assert TxRun(s, results) == Outcome(o2.state, o1.effects + o2.effects);
      assert multiset(o1.effects + o2.effects) == multiset(o1.effects) + multiset(o2.effects);
    }
  }

  /** One counted transmission of a run. */
  function TxTurn(s: State, txOk: bool): (o: Outcome)
    ensures o.state.sendFail == if txOk then s.sendFail else ToU8(s.sendFail + 1)
    ensures multiset(o.effects)[SystemReset]
            == if !txOk && ToU8(s.sendFail + 1) == MAX_SEND_FAIL then 1 else 0
  {
    TxFinStep(s.(events := s.events.(loraTxFin := true)), txOk)
  }

  /** From a fresh counter, the tenth failure and no other restarts the node. */
  lemma TenthFailureRestarts(s: State, results: seq<bool>)
    requires s.sendFail == 0 && Failures(results) < 256
    ensures multiset(TxRun(s, results).effects)[SystemReset] == if Failures(results) >= 10 then 1 else 0
  {
    TxRunRestarts(s, results);
  }

  /** The LORA_DATA branch only frees the radio. */
  lemma RxDataOutcome(s: State)
    requires s.events.loraData
    ensures RxDataStep(s) == Outcome(s.(events := s.events.(loraData := false), loraBusy := false), [])
  {
  }

  /** The JOIN_FIN branch on the globals. */
  method HandleJoinFin(d: Device, joinOk: bool, now: int) returns (fx: seq<Effect>)
    requires d.Valid()
    modifies d`eventMask, d`lastPosSend, d`busyCnt
    ensures d.Valid()
    ensures Outcome(d.Snapshot(), fx) == JoinFinStep(old(d.Snapshot()), joinOk, now)
  {
    fx := [];
    var pending := d.TakeLoraJoinFin();
    if pending {
      if joinOk {
        fx := [StartGnssTask];
        d.lastPosSend := now;
        d.busyCnt := 0;
      }
    }
  }

  /** The TX_FIN branch on the globals. */
  method HandleTxFin(d: Device, txOk: bool) returns (fx: seq<Effect>)
    requires d.Valid()
    modifies d`eventMask, d`loraBusy, d`sendFail
    ensures d.Valid()
    ensures Outcome(d.Snapshot(), fx) == TxFinStep(old(d.Snapshot()), txOk)
  {
    fx := [];
    var pending := d.TakeLoraTxFin();
    if pending {
      d.loraBusy := false;
      if !txOk {
        d.sendFail := ToU8(d.sendFail + 1);
        if d.sendFail == MAX_SEND_FAIL {
          fx := [SystemReset];
        }
      }
    }
  }

  /** The LORA_DATA branch on the globals. */
  method HandleRxData(d: Device)
    requires d.Valid()
    modifies d`eventMask, d`loraBusy
    ensures d.Valid()
    ensures d.Snapshot() == RxDataStep(old(d.Snapshot())).state
  {
    var pending := d.TakeLoraData();
    if pending {
      d.loraBusy := false;
    }
  }

  /** `lora_data_handler` on the globals. */
  method LoraDataHandler(d: Device, joinOk: bool, txOk: bool, now: int) returns (fx: seq<Effect>)
    requires d.Valid()
    modifies d`eventMask, d`lastPosSend, d`busyCnt, d`loraBusy, d`sendFail
    ensures d.Valid()
    ensures Outcome(d.Snapshot(), fx) == LoraDataStep(old(d.Snapshot()), joinOk, txOk, now)
  {
    var fx1 := HandleJoinFin(d, joinOk, now);
    var fx2 := HandleTxFin(d, txOk);
    HandleRxData(d);
    fx := fx1 + fx2;
  }

  /** `send_delayed`: raise STATUS and wake the event loop. */
  function SendDelayedStep(s: State): (o: Outcome)
  {
    Outcome(s.(events := s.events.(status := true)), [GiveTaskSem])
  }

  /**
   * The timer callback only raises STATUS: every other event, the
   * pending-send flag and the rest of the globals stay as they were.
   */
  lemma SendDelayedOutcome(s: State)
    ensures var o := SendDelayedStep(s);
      && o.state.events.status
      && o.state.events.(status := s.events.status) == s.events
      && o.state.(events := s.events) == s
      && o.effects == [GiveTaskSem]
  {
  }

  /** `send_delayed` on the globals. */
  method SendDelayed(d: Device) returns (fx: seq<Effect>)
    requires d.Valid()
    modifies d`eventMask
    ensures d.Valid()
    ensures Outcome(d.Snapshot(), fx) == SendDelayedStep(old(d.Snapshot()))
  {
    d.SetStatus();
    fx := [GiveTaskSem];
  }
}
