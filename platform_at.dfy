/**
 * The user AT commands of the PlatformIO build (user_at_cmd.cpp):
 * `AT+GPS?`, `AT+GPS=?`, `AT+GPS=0` and `AT+GPS=1`. The six-digit precision
 * flag persists as the presence of the file "GPS" in the internal flash file
 * system, modelled as the set of names it holds.
 */
module PlatformAt {
  import opened Wrappers

  const GPS_NAME := "GPS"

  /** The precision flag and the file names it persists in. */
  datatype GpsConfig = GpsConfig(prec6: bool, files: set<string>)

  /** `s` without its leading ':' delimiters. */
  function SkipColons(s: string): (r: string)
    ensures |r| <= |s| && r == s[|s| - |r|..]
    ensures r == [] || r[0] != ':'
    ensures forall i :: 0 <= i < |s| - |r| ==> s[i] == ':'
  {
    if s != [] && s[0] == ':' then SkipColons(s[1..]) else s
  }

  /** The longest prefix of `s` without a ':'. */
  function UpToColon(s: string): (r: string)
    ensures r <= s
    ensures forall i :: 0 <= i < |r| ==> r[i] != ':'
    ensures |r| == |s| || s[|r|] == ':'
  {
    if s == [] || s[0] == ':' then [] else [s[0]] + UpToColon(s[1..])
  }

  /**
   * `strtok(user_cmd, ":")`: the first token delimited by ':', or NULL (None)
   * when the string holds nothing but delimiters.
   */
  function Token(cmd: string): Option<string>
  {
    var rest := SkipColons(cmd);
    if rest == [] then None else Some(UpToColon(rest))
  }

  /**
   * The token is the command name before the first ':': a non-empty name
   * without ':' is its own token, whatever parameters follow it.
   */
  lemma TokenOfCommand(name: string, rest: string)
    requires name != [] && forall i :: 0 <= i < |name| ==> name[i] != ':'
    ensures Token(name) == Some(name)
    ensures Token(name + ":" + rest) == Some(name)
  {
    NameUpToColon(name, []);
    assert name + [] == name;
    var full := name + (":" + rest);
    assert name + ":" + rest == full;
    assert full[0] == name[0];
    NameUpToColon(name, ":" + rest);
  }

  /** Leading delimiters are skipped, and a string of delimiters only has no token. */
  lemma TokenSkipsDelimiters(s: string)
    ensures Token(":" + s) == Token(s)
    ensures (forall i :: 0 <= i < |s| ==> s[i] == ':') ==> Token(s) == None
  {
    assert (":" + s)[1..] == s;
  }

  /** The prefix without ':' of `name + tail` is `name` when `tail` is empty or starts with ':'. */
  lemma {:induction false} NameUpToColon(name: string, tail: string)
    requires forall i :: 0 <= i < |name| ==> name[i] != ':'
    requires tail == [] || tail[0] == ':'
    ensures UpToColon(name + tail) == name
    decreases |name|
  {
    if name != [] {
      assert (name + tail)[1..] == name[1..] + tail;
      NameUpToColon(name[1..], tail);
    } else {
      assert name + tail == tail;
    }
  }

  /** `save_gps_settings`: "GPS" exists exactly when six-digit precision is on. */
  function Save(c: GpsConfig): GpsConfig
  {
    c.(files := if c.prec6 then c.files + {GPS_NAME} else c.files - {GPS_NAME})
  }

  /** `read_gps_settings`: the flag is the presence of "GPS". */
  function Read(c: GpsConfig): GpsConfig
  {
    c.(prec6 := GPS_NAME in c.files)
  }

  /** `user_at_handler`: whether the command was recognised, and the new settings. */
  function Handle(c: GpsConfig, cmd: string): (bool, GpsConfig)
  {
    match Token(cmd)
    case None => (false, c)
    case Some(param) =>
      if param == "+GPS?" || param == "+GPS=?" then (true, c)
      else if param == "+GPS=0" then (true, Save(c.(prec6 := false)))
      else if param == "+GPS=1" then (true, Save(c.(prec6 := true)))
      else (false, c)
  }

  /**
   * The two queries are recognised and change nothing; `+GPS=0` and
   * `+GPS=1` set the flag and save it; every other command is refused and
   * changes nothing. Parameters after a ':' are ignored.
   */
  lemma HandleOutcome(c: GpsConfig, cmd: string)
    ensures var (ok, c') := Handle(c, cmd);
      && (Token(cmd) == Some("+GPS?") || Token(cmd) == Some("+GPS=?") ==> ok && c' == c)
      && (Token(cmd) == Some("+GPS=0") ==> ok && !c'.prec6 && GPS_NAME !in c'.files
                                           && c'.files == c.files - {GPS_NAME})
      && (Token(cmd) == Some("+GPS=1") ==> ok && c'.prec6 && c'.files == c.files + {GPS_NAME})
      && (ok <==> Token(cmd) in {Some("+GPS?"), Some("+GPS=?"), Some("+GPS=0"), Some("+GPS=1")})
      && (!ok ==> c' == c)
  {
  }

  /** A command written with parameters behaves like the bare command. */
  lemma ParametersIgnored(c: GpsConfig, name: string, rest: string)
    requires name != [] && forall i :: 0 <= i < |name| ==> name[i] != ':'
    ensures Handle(c, name + ":" + rest) == Handle(c, name)
  {
    TokenOfCommand(name, rest);
  }

  /**
   * Saving then reading gives back the flag, and touches no other file; so
   * `+GPS=0` and `+GPS=1` survive a restart.
   */
  lemma SaveReadRoundTrip(c: GpsConfig)
    ensures Read(Save(c)) == Save(c)
    ensures GPS_NAME in Save(c).files <==> c.prec6
    ensures forall n :: n != GPS_NAME ==> (n in Save(c).files <==> n in c.files)
  {
  }

  /** The setting made by `+GPS=0` or `+GPS=1` is the one read back after a restart. */
  lemma SetSurvivesRestart(c: GpsConfig, cmd: string)
    requires Token(cmd) == Some("+GPS=0") || Token(cmd) == Some("+GPS=1")
    ensures var c' := Handle(c, cmd).1;
      Read(c') == c' && (c'.prec6 <==> Token(cmd) == Some("+GPS=1"))
  {
    SaveReadRoundTrip(c.(prec6 := Token(cmd) == Some("+GPS=1")));
  }

  /** The globals of user_at_cmd.cpp and the file system the flag persists in. */
  class GpsSettings {
    var prec6: bool         // g_gps_prec_6
    var files: set<string>  // names present in InternalFS

    function Config(): GpsConfig
      reads this
    {
      GpsConfig(prec6, files)
    }

    constructor (files0: set<string>)
      ensures Config() == GpsConfig(false, files0)
    {
      prec6, files := false, files0;
    }

    /** `user_at_handler`. */
    method UserAtHandler(userCmd: string) returns (handled: bool)
      modifies `prec6, `files
      ensures (handled, Config()) == Handle(old(Config()), userCmd)
    {
      var param := Token(userCmd);
      if param == Some("+GPS?") {
        return true;
      }
      if param == Some("+GPS=?") {
        return true;
      }
      if param == Some("+GPS=0") {
        prec6 := false;
        SaveGpsSettings();
        return true;
      }
      if param == Some("+GPS=1") {
        prec6 := true;
        SaveGpsSettings();
        return true;
      }
      return false;
    }

    /** `read_gps_settings`. */
    method ReadGpsSettings()
      modifies `prec6
      ensures Config() == Read(old(Config()))
    {
      if GPS_NAME in files {
        prec6 := true;
      } else {
        prec6 := false;
      }
    }

    /** `save_gps_settings`: creates or removes "GPS". */
    method SaveGpsSettings()
      modifies `files
      ensures Config() == Save(old(Config()))
    {
      if prec6 {
        files := files + {GPS_NAME};
      } else {
        files := files - {GPS_NAME};
      }
    }
  }
}
