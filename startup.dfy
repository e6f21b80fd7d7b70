/**
 * Start-up of gansiweather: the four package-level settings with their
 * defaults, `readConfig`'s check-and-merge of a decoded configuration
 * record, and `start`'s decision on the outcome of looking the file up.
 * The environment lookup, the stat, the file read and the JSON decoding are
 * inputs here: only the decisions taken on their results are modelled.
 */
module Startup {
  import opened Wrappers

  /** Go's `uint64`, the type of `cache_seconds` and `Config.CacheSeconds`. */
  newtype uint64 = x: int | 0 <= x < 0x1_0000_0000_0000_0000

  /** The configuration file, relative to $HOME. */
  const ConfigFile := ".config/gansiweather.conf"

  /** The four settings (ansiweather.go:24-27). */
  datatype Settings = Settings(apiKey: string, cacheSeconds: uint64, location: string, units: string)

  const Defaults := Settings("", 600, "Seattle,WA", "imperial")

  /** The decoded configuration record; a field absent from the JSON decodes to its zero value. */
  datatype Config = Config(apiKey: string, cacheSeconds: uint64, location: string, units: string)

  /** What opening, reading and decoding the file gave: a record, or the I/O or JSON error. */
  datatype Load = Decoded(config: Config) | Unreadable(reason: string)

  /** What stat said of the configuration file; `Found` carries what loading it gives. */
  datatype Stat = Missing(reason: string) | StatFailed(reason: string) | Found(regular: bool, load: Load)

  /** The errors `start` and `readConfig` return. */
  datatype Error =
    | HomeUnset                 // "Could not read $HOME"
    | StatError(reason: string) // the error stat returned, passed on as it is
    | NotRegular(path: string)  // "<path>: Config is not a regular file"
    | LoadError(reason: string) // the error open, read or decode returned
    | ApiKeyUnset(path: string) // "<path>: ApiKey is not set"

  /** The settings after a step, and the error the step returned. */
  datatype Outcome = Outcome(settings: Settings, err: Option<Error>)

  /** The invariant of the settings: a positive cache time, a location and units. */
  predicate Usable(s: Settings)
  {
    s.cacheSeconds > 0 && s.location != [] && s.units != []
  }

  /**
   * `readConfig` from the decoded record on: a record without an API key is
   * refused before anything is assigned; otherwise the key is taken and each
   * other field overrides its setting only when it is set (positive, non-empty).
   */
  function AfterReadConfig(cur: Settings, cfile: string, load: Load): (o: Outcome)
    ensures o.err.None? <==> load.Decoded? && load.config.apiKey != []
    ensures o.err.Some? ==> o.settings == cur
    ensures load.Unreadable? ==> o.err == Some(LoadError(load.reason))
    ensures load.Decoded? && load.config.apiKey == [] ==> o.err == Some(ApiKeyUnset(cfile))
    ensures o.err.None? ==> o.settings.apiKey == load.config.apiKey
    ensures o.err.None? ==>
      o.settings.cacheSeconds == (if load.config.cacheSeconds > 0 then load.config.cacheSeconds else cur.cacheSeconds)
    ensures o.err.None? ==>
      o.settings.location == (if load.config.location != [] then load.config.location else cur.location)
    ensures o.err.None? ==>
      o.settings.units == (if load.config.units != [] then load.config.units else cur.units)
  {
    match load
    case Unreadable(reason) => Outcome(cur, Some(LoadError(reason)))
    case Decoded(m) =>
      if |m.apiKey| == 0 then Outcome(cur, Some(ApiKeyUnset(cfile)))
      else
        var s := cur.(apiKey := m.apiKey);
        var s := if m.cacheSeconds > 0 then s.(cacheSeconds := m.cacheSeconds) else s;
        var s := if |m.location| > 0 then s.(location := m.location) else s;
        var s := if |m.units| > 0 then s.(units := m.units) else s;
        Outcome(s, None)
  }

  /**
   * `start`, with a missing configuration file accepted: no $HOME is an
   * error, a missing file leaves the settings as they are, any other stat
   * failure and a file that is not regular are errors, and a regular file
   * is read.
   */
  function AfterStart(cur: Settings, home: string, stat: Stat): (o: Outcome)
    ensures o.err.Some? ==> o.settings == cur
    ensures home == [] ==> o.err == Some(HomeUnset)
    ensures home != [] && stat.Missing? ==> o == Outcome(cur, None)
    ensures home != [] && stat.StatFailed? ==> o.err == Some(StatError(stat.reason))
    ensures home != [] && stat.Found? && !stat.regular ==> o.err == Some(NotRegular(home + "/" + ConfigFile))
    ensures home != [] && stat.Found? && stat.regular ==> o == AfterReadConfig(cur, home + "/" + ConfigFile, stat.load)
  {
    if |home| == 0 then Outcome(cur, Some(HomeUnset))
    else
      var cfile := home + "/" + ConfigFile;
      match stat
      case Missing(_) => Outcome(cur, None)
      case StatFailed(reason) => Outcome(cur, Some(StatError(reason)))
      case Found(regular, load) =>
        if !regular then Outcome(cur, Some(NotRegular(cfile)))
        else AfterReadConfig(cur, cfile, load)
  }

  /**
   * `start` as written: the stat error is stored in the named result, so
   * the final bare return hands the not-exist error of a missing file back
   * to the caller as well.
   */
  function AfterStartAsWritten(cur: Settings, home: string, stat: Stat): (o: Outcome)
    ensures stat.Missing? && home != [] ==> o == Outcome(cur, Some(StatError(stat.reason)))
    ensures !stat.Missing? || home == [] ==> o == AfterStart(cur, home, stat)
  {
    if |home| == 0 then Outcome(cur, Some(HomeUnset))
    else
      var cfile := home + "/" + ConfigFile;
      match stat
      case Missing(reason) => Outcome(cur, Some(StatError(reason)))
      case StatFailed(reason) => Outcome(cur, Some(StatError(reason)))
      case Found(regular, load) =>
        if !regular then Outcome(cur, Some(NotRegular(cfile)))
        else AfterReadConfig(cur, cfile, load)
  }

  /** The text of each error as the program prints it. */
  function Message(e: Error): (r: string)
    ensures e.NotRegular? ==> e.path + ": " <= r
    ensures e.ApiKeyUnset? ==> e.path + ": " <= r
    ensures e.StatError? ==> r == e.reason
    ensures e.LoadError? ==> r == e.reason
  {
    match e
    case HomeUnset => "Could not read $HOME"
    case StatError(reason) => reason
    case NotRegular(path) => path + ": Config is not a regular file"
    case LoadError(reason) => reason
    case ApiKeyUnset(path) => path + ": ApiKey is not set"
  }

  /** Start keeps the settings usable: merging never clears the cache time, location or units. */
  lemma StartKeepsUsable(cur: Settings, home: string, stat: Stat)
    requires Usable(cur)
    ensures Usable(AfterStart(cur, home, stat).settings)
  {
  }

  /** Starting twice from the same file is the same as starting once. */
  lemma StartIdempotent(cur: Settings, home: string, stat: Stat)
    ensures AfterStart(AfterStart(cur, home, stat).settings, home, stat) == AfterStart(cur, home, stat)
  {
  }

  /**
   * A start that reads the file succeeds exactly when the record has a key,
   * and the key in force afterwards is the record's.
   */
  lemma StartTakesKey(cur: Settings, home: string, m: Config)
    requires home != []
    ensures var o := AfterStart(cur, home, Found(true, Decoded(m)));
            (o.err.None? <==> m.apiKey != []) && (o.err.None? ==> o.settings.apiKey == m.apiKey)
  {
  }

  /** What a record sets does not depend on the settings before: only unset fields fall back. */
  lemma StartOverridesPrior(cur1: Settings, cur2: Settings, home: string, stat: Stat)
    requires stat.Found? && stat.load.Decoded?
    ensures var o1, o2, m := AfterStart(cur1, home, stat), AfterStart(cur2, home, stat), stat.load.config;
            o1.err == o2.err
            && (o1.err.None? && m.cacheSeconds > 0 ==> o1.settings.cacheSeconds == o2.settings.cacheSeconds)
            && (o1.err.None? && m.location != [] ==> o1.settings.location == o2.settings.location)
            && (o1.err.None? && m.units != [] ==> o1.settings.units == o2.settings.units)
            && (o1.err.None? ==> o1.settings.apiKey == o2.settings.apiKey)
  {
  }

  /**
   * As written, a missing configuration file is reported as an error (the
   * program then exits), where the check for "does not exist" evidently meant
   * to carry on with the defaults.
   */
  lemma MissingConfigFailsAsWritten(cur: Settings, home: string, reason: string)
    requires home != []
    ensures AfterStartAsWritten(cur, home, Missing(reason)).err == Some(StatError(reason))
    ensures AfterStart(cur, home, Missing(reason)).err == None
  {
  }

  /** The package-level settings, which `start` and `readConfig` assign in place. */
  class Globals {
    var apiKey: string
    var cacheSeconds: uint64
    var location: string
    var units: string

    function Value(): Settings
      reads this
    {
      Settings(apiKey, cacheSeconds, location, units)
    }

    /** The defaults the program starts with. */
    constructor ()
      ensures Value() == Defaults && Usable(Value())
    {
      apiKey := "";
      cacheSeconds := 10 * 60;
      location := "Seattle,WA";
      units := "imperial";
    }

    /** `readConfig`: checks the decoded record, then assigns the settings it sets. */
    method ReadConfig(cfile: string, load: Load) returns (err: Option<Error>)
      modifies this
      ensures Outcome(Value(), err) == AfterReadConfig(old(Value()), cfile, load)
      ensures old(Usable(Value())) ==> Usable(Value())
    {
      if load.Unreadable? {
        return Some(LoadError(load.reason));
      }
      var m := load.config;
      if |m.apiKey| == 0 {
        return Some(ApiKeyUnset(cfile));
      } else {
        apiKey := m.apiKey;
      }
      if m.cacheSeconds > 0 {
        cacheSeconds := m.cacheSeconds;
      }
      if |m.location| > 0 {
        location := m.location;
      }
      if |m.units| > 0 {
        units := m.units;
      }
      return None;
    }

    /** `start`, with a missing configuration file accepted. */
    method Start(home: string, stat: Stat) returns (err: Option<Error>)
      modifies this
      ensures Outcome(Value(), err) == AfterStart(old(Value()), home, stat)
      ensures old(Usable(Value())) ==> Usable(Value())
    {
      if |home| == 0 {
        return Some(HomeUnset);
      }
      var cfile := home + "/" + ConfigFile;
      match stat
      case Missing(_) =>
        err := None;
      case StatFailed(reason) =>
        err := Some(StatError(reason));
      case Found(regular, load) =>
        if !regular {
          return Some(NotRegular(cfile));
        }
        err := ReadConfig(cfile, load);
    }
  }
}
