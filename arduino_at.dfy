/**
 * The user AT command of the ArduinoIDE build (user_at_cmd.cpp): `AT+GNSS`
 * selects the location precision and the packet format. Both settings
 * persist as the presence of a file in the internal flash file system, which
 * is modelled as the set of names it holds: "GNSS" for six-digit precision,
 * "HELIUM" for the Helium Mapper format.
 */
module ArduinoAt {
  import opened Bytes

  const GNSS_NAME := "GNSS"
  const HELIUM_FORMAT := "HELIUM"

  /** `AT_ERRNO_PARA_VAL` of the WisBlock-API library: 5, as the command's own documentation states. */
  const AT_ERRNO_PARA_VAL: int := 5

  /** The two settings and the file names they persist in. */
  datatype GnssConfig = GnssConfig(isHelium: bool, prec6: bool, files: set<string>)

  /** The file system after `save_gps_settings`. */
  function SavedFiles(files: set<string>, prec6: bool, isHelium: bool): set<string>
  {
    var f := if prec6 then files + {GNSS_NAME} else files - {GNSS_NAME};
    if isHelium then f + {HELIUM_FORMAT} else f - {HELIUM_FORMAT}
  }

  /** `save_gps_settings`: the flags are written out, the flags themselves stay. */
  function Save(c: GnssConfig): GnssConfig
  {
    c.(files := SavedFiles(c.files, c.prec6, c.isHelium))
  }

  /** `read_gps_settings`: each flag is set from the presence of its file. */
  function Read(c: GnssConfig): GnssConfig
  {
    c.(prec6 := GNSS_NAME in c.files, isHelium := HELIUM_FORMAT in c.files)
  }

  /** The digit `at_query_gnss` reports: 2 for the Helium format, else 1 or 0 for the precision. */
  function QueryDigit(c: GnssConfig): char
  {
    if c.isHelium then '2' else if c.prec6 then '1' else '0'
  }

  /** The text `at_query_gnss` leaves in `g_at_query_buf`. */
  function QueryText(c: GnssConfig): string
  {
    "GPS precision: " + [QueryDigit(c)]
  }

  /** `str[0]` of a C string: the terminating NUL when the string is empty. */
  function FirstChar(str: string): char
  {
    if str == [] then '\0' else str[0]
  }

  /** `at_exec_gnss`: the result code and the new settings. */
  function ExecGnss(c: GnssConfig, str: string): (int, GnssConfig)
  {
    var ch := FirstChar(str);
    if ch == '0' then (0, Save(c.(isHelium := false, prec6 := false)))
    else if ch == '1' then (0, Save(c.(isHelium := false, prec6 := true)))
    else if ch == '2' then (0, Save(c.(isHelium := true)))
    else (AT_ERRNO_PARA_VAL, c)
  }

  /**
   * '0' selects four digits, '1' six digits, both in the Cayenne format; '2'
   * selects the Helium format and keeps the precision. Each of them saves
   * and succeeds; any other first character fails with AT_ERRNO_PARA_VAL and
   * changes nothing. Only the first character is looked at.
   */
  lemma ExecGnssOutcome(c: GnssConfig, str: string)
    ensures var (code, c') := ExecGnss(c, str);
      && (FirstChar(str) == '0' ==> code == 0 && !c'.isHelium && !c'.prec6)
      && (FirstChar(str) == '1' ==> code == 0 && !c'.isHelium && c'.prec6)
      && (FirstChar(str) == '2' ==> code == 0 && c'.isHelium && c'.prec6 == c.prec6)
      && (FirstChar(str) in {'0', '1', '2'} ==> c'.files == SavedFiles(c.files, c'.prec6, c'.isHelium))
      && (FirstChar(str) !in {'0', '1', '2'} ==> code == AT_ERRNO_PARA_VAL && c' == c)
      && (forall other: string :: FirstChar(other) == FirstChar(str) ==> ExecGnss(c, other) == ExecGnss(c, str))
  {
  }

  /**
   * Reading after saving restores both flags: "GNSS" is present exactly
   * when six-digit precision is on and "HELIUM" exactly in the Helium
   * format, whatever the other flag is, and no other file is touched.
   */
  lemma SaveReadRoundTrip(c: GnssConfig)
    ensures Read(Save(c)) == Save(c)
    ensures (GNSS_NAME in Save(c).files <==> c.prec6) && (HELIUM_FORMAT in Save(c).files <==> c.isHelium)
    ensures forall n :: n != GNSS_NAME && n != HELIUM_FORMAT ==> (n in Save(c).files <==> n in c.files)
  {
    assert GNSS_NAME != HELIUM_FORMAT by { assert GNSS_NAME[0] != HELIUM_FORMAT[0]; }
  }

  /**
   * A successful `AT+GNSS=<d>` is reported back by `AT+GNSS?` as the same
   * digit, and it survives a restart: reading the files gives the same
   * settings.
   */
  lemma ExecThenQuery(c: GnssConfig, str: string)
    requires FirstChar(str) in {'0', '1', '2'}
    ensures var (code, c') := ExecGnss(c, str);
      code == 0 && QueryText(c') == "GPS precision: " + [FirstChar(str)] && Read(c') == c'
  {
    var c' := ExecGnss(c, str).1;
    if FirstChar(str) == '0' {
      SaveReadRoundTrip(c.(isHelium := false, prec6 := false));
    } else if FirstChar(str) == '1' {
      SaveReadRoundTrip(c.(isHelium := false, prec6 := true));
    } else {
      SaveReadRoundTrip(c.(isHelium := true));
    }
  }

  /** One entry of an AT command table: the command and which handlers it has. */
  datatype AtCommand = AtCommand(name: string, hasQuery: bool, hasExec: bool, hasRun: bool)

  /** `g_user_at_cmd_list_gps`: the single `+GNSS` command, with query and exec handlers. */
  const GPS_COMMANDS: seq<AtCommand> := [AtCommand("+GNSS", true, true, false)]

  /** The globals of user_at_cmd.cpp and the file system they persist in. */
  class UserAt {
    var isHelium: bool           // g_is_helium
    var prec6: bool              // g_gps_prec_6
    var files: set<string>       // names present in InternalFS
    var queryBuf: string         // g_at_query_buf
    var cmdNum: uint8            // g_user_at_cmd_num
    var cmdList: seq<AtCommand>  // g_user_at_cmd_list

    function Config(): GnssConfig
      reads this
    {
      GnssConfig(isHelium, prec6, files)
    }

    /** The globals at start-up, over a file system that already holds `files0`. */
    constructor (files0: set<string>)
      ensures Config() == GnssConfig(false, false, files0)
      ensures queryBuf == [] && cmdNum == 0 && cmdList == []
    {
      isHelium, prec6, files := false, false, files0;
      queryBuf, cmdNum, cmdList := [], 0, [];
    }

    /** `at_query_gnss`: writes the report into the query buffer and always answers 0. */
    method AtQueryGnss() returns (r: int)
      modifies `queryBuf
      ensures r == 0 && queryBuf == QueryText(Config())
    {
      if isHelium {
        queryBuf := "GPS precision: 2";
      } else {
        queryBuf := "GPS precision: " + [if prec6 then '1' else '0'];
      }
      r := 0;
    }

    /** `at_exec_gnss`. */
    method AtExecGnss(str: string) returns (r: int)
      modifies `isHelium, `prec6, `files
      ensures (r, Config()) == ExecGnss(old(Config()), str)
    {
      var ch := if str == [] then '\0' else str[0];
      if ch == '0' {
        isHelium := false;
        prec6 := false;
        SaveGpsSettings();
      } else if ch == '1' {
        isHelium := false;
        prec6 := true;
        SaveGpsSettings();
      } else if ch == '2' {
        isHelium := true;
        SaveGpsSettings();
      } else {
        return AT_ERRNO_PARA_VAL;
      }
      r := 0;
    }

    /** `read_gps_settings`. */
    method ReadGpsSettings()
      modifies `prec6, `isHelium
      ensures Config() == Read(old(Config()))
    {
      if GNSS_NAME in files {
        prec6 := true;
      } else {
        prec6 := false;
      }
      if HELIUM_FORMAT in files {
        isHelium := true;
      } else {
        isHelium := false;
      }
    }

    /** `save_gps_settings`: creates or removes each file. */
    method SaveGpsSettings()
      modifies `files
      ensures Config() == Save(old(Config()))
    {
      if prec6 {
        files := files + {GNSS_NAME};
      } else {
        files := files - {GNSS_NAME};
      }
      if isHelium {
        files := files + {HELIUM_FORMAT};
      } else {
        files := files - {HELIUM_FORMAT};
      }
    }

    /**
     * `init_user_at`: copies the command table into the combined list and
     * adds its size to the 8-bit command count.
     */
    method InitUserAt()
      modifies `cmdNum, `cmdList
      ensures cmdList == GPS_COMMANDS
      ensures cmdNum == ToU8(old(cmdNum) + |GPS_COMMANDS|)
    {
      cmdList := GPS_COMMANDS;
      cmdNum := ToU8(cmdNum + |GPS_COMMANDS|);
    }
  }
}
