/**
  The extra configuration option (config.go): it reads one environment
  variable through an injected `getenv` and, when the variable is set,
  either stores its integer value in `TransactionEvents.MaxSamplesStored`
  or records an error in `Config.Error`.
*/
module Config {
  import opened Wrappers
  import StrConv

  const TransactionEventsMaxSamples: string := "NEW_RELIC_TRANSACTION_EVENTS_MAX_SAMPLES_STORED"

  datatype TransactionEvents = TransactionEvents(enabled: bool, maxSamplesStored: int)

  /** The two fields of `newrelic.Config` the option can write. */
  datatype Settings = Settings(transactionEvents: TransactionEvents, error: Option<string>)

  /** What `assignInt` decides from its variable's value. */
  datatype Assignment = Keep | Assign(value: int) | Reject(message: string)

  function AssignmentFor(name: string, env: string): (a: Assignment)
    ensures a == Keep <==> env == ""
    ensures a.Assign? <==> env != "" && StrConv.Atoi(env).Some?
    ensures a.Assign? ==> StrConv.Atoi(env) == Some(a.value)
    ensures a.Reject? ==> a.message == "invalid " + name + " value: " + env
  {
    if env == "" then Keep
    else
      match StrConv.Atoi(env)
      case None => Reject("invalid " + name + " value: " + env)
      case Some(i) => Assign(i)
  }

  /** The writable fields after an assignment: each outcome is one fixed field write, or none. */
  function Applied(a: Assignment, s: Settings): Settings {
    match a
    case Keep => s
    case Assign(i) => s.(transactionEvents := s.transactionEvents.(maxSamplesStored := i))
    case Reject(m) => s.(error := Some(m))
  }

  /** The option's effect on the writable fields, for the environment `getenv` describes. */
  function Configured(getenv: string -> string, s: Settings): Settings {
    Applied(AssignmentFor(TransactionEventsMaxSamples, getenv(TransactionEventsMaxSamples)), s)
  }

  /** `newrelic.Config`, with a few of its other fields to show that the option leaves them alone. */
  class NewRelicConfig {
    var appName: string
    var enabled: bool
    var transactionEvents: TransactionEvents
    var error: Option<string>

    constructor (appName: string, enabled: bool, transactionEvents: TransactionEvents)
      ensures this.appName == appName && this.enabled == enabled
      ensures this.transactionEvents == transactionEvents && error == None
    {
      this.appName := appName;
      this.enabled := enabled;
      this.transactionEvents := transactionEvents;
      error := None;
    }

    function Writable(): Settings
      reads this
    {
      Settings(transactionEvents, error)
    }
  }

  /** The `assignInt` closure, applied to `&cfg.TransactionEvents.MaxSamplesStored`. */
  method AssignInt(getenv: string -> string, cfg: NewRelicConfig, name: string)
    modifies cfg`transactionEvents, cfg`error
    ensures cfg.Writable() == Applied(AssignmentFor(name, getenv(name)), old(cfg.Writable()))
  {
    var env := getenv(name);
    if env != "" {
      var i := StrConv.Atoi(env);
      if i.None? {
        cfg.error := Some("invalid " + name + " value: " + env);
      } else {
        cfg.transactionEvents := cfg.transactionEvents.(maxSamplesStored := i.value);
      }
    }
  }

  /** The option `extraConfigFromEnvironment(getenv)` returns, applied to `cfg`. */
  method ExtraConfigFromEnvironment(getenv: string -> string, cfg: NewRelicConfig)
    modifies cfg`transactionEvents, cfg`error
    ensures cfg.Writable() == Configured(getenv, old(cfg.Writable()))
  {
    AssignInt(getenv, cfg, TransactionEventsMaxSamples);
  }

  /** An unset or empty variable leaves the configuration as earlier options left it. */
  lemma ConfiguredEmptyKeeps(getenv: string -> string, s: Settings)
    requires getenv(TransactionEventsMaxSamples) == ""
    ensures Configured(getenv, s) == s
  {
  }

  /** A parsable value is stored in the field, and the error is left as it was. */
  lemma ConfiguredStoresValue(getenv: string -> string, s: Settings)
    requires getenv(TransactionEventsMaxSamples) != ""
    requires StrConv.Atoi(getenv(TransactionEventsMaxSamples)).Some?
    ensures Configured(getenv, s).transactionEvents.maxSamplesStored
            == StrConv.Atoi(getenv(TransactionEventsMaxSamples)).value
    ensures Configured(getenv, s).transactionEvents.enabled == s.transactionEvents.enabled
    ensures Configured(getenv, s).error == s.error
  {
  }

  /** An unparsable value sets the error and keeps the field's previous value. */
  lemma ConfiguredRejects(getenv: string -> string, s: Settings)
    requires getenv(TransactionEventsMaxSamples) != ""
    requires StrConv.Atoi(getenv(TransactionEventsMaxSamples)).None?
    ensures Configured(getenv, s).transactionEvents == s.transactionEvents
    ensures Configured(getenv, s).error
            == Some("invalid " + TransactionEventsMaxSamples + " value: " + getenv(TransactionEventsMaxSamples))
  {
  }

  /** Any 64-bit integer written by `strconv.Itoa` into the variable ends up in the field. */
  lemma ConfiguredFormattedValue(getenv: string -> string, s: Settings, n: int)
    requires StrConv.MinInt <= n <= StrConv.MaxInt
    requires getenv(TransactionEventsMaxSamples) == StrConv.Itoa(n)
    ensures Configured(getenv, s) == s.(transactionEvents := s.transactionEvents.(maxSamplesStored := n))
  {
    StrConv.AtoiItoa(n);
  }

  /** Only the one variable is read: environments that agree on it give the same configuration. */
  lemma ConfiguredReadsOneVariable(g1: string -> string, g2: string -> string, s: Settings)
    requires g1(TransactionEventsMaxSamples) == g2(TransactionEventsMaxSamples)
    ensures Configured(g1, s) == Configured(g2, s)
  {
  }

  /** Applying the option twice under the same environment is the same as applying it once. */
  lemma ConfiguredIdempotent(getenv: string -> string, s: Settings)
    ensures Configured(getenv, Configured(getenv, s)) == Configured(getenv, s)
  {
  }
}
