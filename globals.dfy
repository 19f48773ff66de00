/**
 * The firmware's shared global state, gathered into one object.
 *
 * `Device` holds the globals that the scheduler (app.cpp), the acquisition
 * task (gnss.cpp) and the sensor reader (environment.cpp) update in place:
 * the event mask `g_task_event_type`, the flags and counters, and the two
 * packet buffers `g_tracker_data` and `g_env_data` as byte arrays.
 * `Snapshot()` is the value of all of it, with the mask read as the events
 * it holds; every handler is specified by a
 * pure step function from the old snapshot to the new one and the effects
 * it asked of timers, sensors and the radio.
 */
module Globals {
  import opened Bytes
  import opened Layout

  /** The fields of `g_lorawan_settings` the core reads. */
  datatype Settings = Settings(sendRepeatTime: uint32, lorawanEnable: bool,
                               loraRegion: uint8, dataRate: uint8)

  /** Result of `send_lora_packet` (`lmh_error_status`). */
  datatype LmhStatus = LmhSuccess | LmhBusy | LmhError

  /** What a handler asks of a collaborator, in the order it asks. */
  datatype Effect =
    | StartBme                     // start_bme(): begin an environment reading
    | GiveGnssSem                  // release g_gnss_sem: wake the acquisition task
    | GiveTaskSem                  // release g_task_sem: wake the main event loop
    | SetWakeupPeriod(ms: int)     // g_task_wakeup_timer.setPeriod
    | ResetWakeupTimer             // g_task_wakeup_timer.reset()
    | BeginDelayedTimer(ms: int)   // delayed_sending.begin, not started
    | StopDelayedTimer             // delayed_sending.stop()
    | StartDelayedTimer(ms: int)   // delayed_sending.setPeriod(ms) and start()
    | ClearAccInterrupt            // clear_acc_int()
    | LoraSend(payload: seq<uint8>) // send_lora_packet(payload)
    | P2PSend(payload: seq<uint8>)  // send_p2p_packet(payload)
    | DataRateError                // "+EVT:DR_ERROR": nothing is sent
    | StartGnssTask                // create g_gnss_sem and gnss_task
    | SystemReset                  // sd_nvic_SystemReset()

  /** The value of every global the core reads or writes. */
  datatype State = State(
    events: Events,           // the events set in g_task_event_type
    joined: bool,             // g_lpwan_has_joined
    loraBusy: bool,           // lora_busy
    lastReadOk: bool,         // last_read_ok
    lowBattProtection: bool,  // low_batt_protection
    delayedActive: bool,      // delayed_active
    lastPosSend: int,         // last_pos_send (time_t)
    minDelay: int,            // min_delay (time_t)
    sendFail: uint8,          // send_fail
    busyCnt: uint8,           // busy_cnt, local to gnss_task's endless loop
    tracker: seq<uint8>,      // g_tracker_data as bytes
    env: seq<uint8>)          // g_env_data as bytes

  /** The packet buffers keep their size and their tag bytes. */
  predicate WellFormed(s: State)
  {
    TrackerTagsAt(s.tracker) && EnvTagsAt(s.env)
  }

  /** A new state together with the effects that produced it. */
  datatype Outcome = Outcome(state: State, effects: seq<Effect>)

  /** The globals' initial values. */
  const INITIAL_STATE := State(NO_EVENTS, false, false, false, false, false, 0, 45000, 0, 0,
                               TrackerBytes(DEFAULT_TRACKER),
                               EnvBytes(Sensors(0, 0, 0, 0, 0, 0, 0, 0, 0)))

  class Device {
    var eventMask: bv16
    var hasJoined: bool
    var loraBusy: bool
    var lastReadOk: bool
    var lowBattProtection: bool
    var delayedActive: bool
    var lastPosSend: int
    var minDelay: int
    var sendFail: uint8
    var busyCnt: uint8
    const tracker: array<uint8>
    const env: array<uint8>

    ghost predicate Valid()
      reads this, tracker, env
    {
      tracker != env && TrackerTagsAt(tracker[..]) && EnvTagsAt(env[..])
    }

    function Snapshot(): State
      reads this, tracker, env
    {
      State(Decode(eventMask), hasJoined, loraBusy, lastReadOk, lowBattProtection, delayedActive,
            lastPosSend, minDelay, sendFail, busyCnt, tracker[..], env[..])
    }

    /** The globals as the firmware starts. */
    constructor ()
      ensures Valid() && Snapshot() == INITIAL_STATE
      ensures fresh(tracker) && fresh(env)
    {
      eventMask, hasJoined, loraBusy, lastReadOk := 0, false, false, false;
      lowBattProtection, delayedActive := false, false;
      lastPosSend, minDelay, sendFail, busyCnt := 0, 45000, 0, 0;
      var t := TrackerBytes(DEFAULT_TRACKER);
      var e := EnvBytes(Sensors(0, 0, 0, 0, 0, 0, 0, 0, 0));
      tracker := new uint8[TRACKER_DATA_LEN](i requires 0 <= i < TRACKER_DATA_LEN => t[i]);
      env := new uint8[ENVIRONMENT_DATA_LEN](i requires 0 <= i < ENVIRONMENT_DATA_LEN => e[i]);
      new;
      DecodeZero();
      assert tracker[..] == t;
      assert env[..] == e;
    }

    /**
     * The test-and-clear that opens each handler branch: `(mask & STATUS) ==
     * STATUS` reads the event and `mask &= N_STATUS` consumes it.
     */
    method TakeStatus() returns (pending: bool)
      modifies `eventMask
      ensures pending == old(Decode(eventMask)).status
      ensures Decode(eventMask) == old(Decode(eventMask)).(status := false)
    {
      pending := eventMask & STATUS == STATUS;
      ClearStatus(eventMask);
      if pending {
        eventMask := eventMask & N_STATUS;
      }
    }

    /** The ACC_TRIGGER test, which also needs `g_lpwan_has_joined`, and its clear. */
    method TakeAccTrigger() returns (pending: bool)
      modifies `eventMask
      ensures pending == (old(Decode(eventMask)).accTrigger && hasJoined)
      ensures pending ==> Decode(eventMask) == old(Decode(eventMask)).(accTrigger := false)
      ensures !pending ==> eventMask == old(eventMask)
    {
      pending := eventMask & ACC_TRIGGER == ACC_TRIGGER && hasJoined;
      if pending {
        ClearAccTrigger(eventMask);
        eventMask := eventMask & N_ACC_TRIGGER;
      }
    }

    /** The GNSS_FIN test and clear. */
    method TakeGnssFin() returns (pending: bool)
      modifies `eventMask
      ensures pending == old(Decode(eventMask)).gnssFin
      ensures Decode(eventMask) == old(Decode(eventMask)).(gnssFin := false)
    {
      pending := eventMask & GNSS_FIN == GNSS_FIN;
      ClearGnssFin(eventMask);
      if pending {
        eventMask := eventMask & N_GNSS_FIN;
      }
    }

    /** The LORA_JOIN_FIN test and clear. */
    method TakeLoraJoinFin() returns (pending: bool)
      modifies `eventMask
      ensures pending == old(Decode(eventMask)).loraJoinFin
      ensures Decode(eventMask) == old(Decode(eventMask)).(loraJoinFin := false)
    {
      pending := eventMask & LORA_JOIN_FIN == LORA_JOIN_FIN;
      ClearLoraJoinFin(eventMask);
      if pending {
        eventMask := eventMask & N_LORA_JOIN_FIN;
      }
    }

    /** The LORA_TX_FIN test and clear. */
    method TakeLoraTxFin() returns (pending: bool)
      modifies `eventMask
      ensures pending == old(Decode(eventMask)).loraTxFin
      ensures Decode(eventMask) == old(Decode(eventMask)).(loraTxFin := false)
    {
      pending := eventMask & LORA_TX_FIN == LORA_TX_FIN;
      ClearLoraTxFin(eventMask);
      if pending {
        eventMask := eventMask & N_LORA_TX_FIN;
      }
    }

    /** The LORA_DATA test and clear. */
    method TakeLoraData() returns (pending: bool)
      modifies `eventMask
      ensures pending == old(Decode(eventMask)).loraData
      ensures Decode(eventMask) == old(Decode(eventMask)).(loraData := false)
    {
      pending := eventMask & LORA_DATA == LORA_DATA;
      ClearLoraData(eventMask);
      if pending {
        eventMask := eventMask & N_LORA_DATA;
      }
    }

    /** `g_task_event_type |= STATUS`: raises STATUS and no other event. */
    method SetStatus()
      modifies `eventMask
      ensures Decode(eventMask) == old(Decode(eventMask)).(status := true)
    {
      RaiseStatus(eventMask);
      eventMask := eventMask | STATUS;
    }

    /** `g_task_event_type |= GNSS_FIN`: raises GNSS_FIN and no other event. */
    method SetGnssFin()
      modifies `eventMask
      ensures Decode(eventMask) == old(Decode(eventMask)).(gnssFin := true)
    {
      RaiseGnssFin(eventMask);
      eventMask := eventMask | GNSS_FIN;
    }
  }
}
