/** Loading the server's configuration: defaults, then flags, then environment variables, then validation. */
module Config {
  import opened Wrappers
  import opened Decimal

  /** The values of the configuration; durations are in nanoseconds. */
  datatype Settings = Settings(
    port: string, metricsPort: string,
    workers: int, queueDepth: int, maxConns: int,
    readTimeout: int, processDelay: int,
    sinkType: string, postgresURL: string, natsURL: string)

  const DEFAULTS := Settings(":9000", ":2112", 100, 100000, 1000, 30_000_000_000, 0, "stdout", "", "")

  datatype LoadError =
    | Invalid(variable: string, value: string)
    | WorkersNotPositive | QueueDepthNotPositive | MaxConnsNegative | ReadTimeoutNegative
    | PostgresURLMissing | NATSURLMissing | UnknownSink(sinkType: string)

  type Env = map<string, string>

  /** time.ParseDuration is not part of this model: any partial function will do. */
  type DurationParser = string -> Option<int>

  // ------------------------------------------------------------ specification

  /** The first of validate's checks that the settings fail. */
  function Fault(s: Settings): Option<LoadError>
  {
    if s.workers <= 0 then Some(WorkersNotPositive)
    else if s.queueDepth <= 0 then Some(QueueDepthNotPositive)
    else if s.maxConns < 0 then Some(MaxConnsNegative)
    else if s.readTimeout < 0 then Some(ReadTimeoutNegative)
    else if s.sinkType == "postgres" then (if s.postgresURL == "" then Some(PostgresURLMissing) else None)
    else if s.sinkType == "nats" then (if s.natsURL == "" then Some(NATSURLMissing) else None)
    else if s.sinkType != "stdout" then Some(UnknownSink(s.sinkType))
    else None
  }

  function Text(env: Env, name: string, flag: string): string
  {
    if name in env then env[name] else flag
  }

  function Parsed(env: Env, name: string, flag: int, parse: string -> Option<int>): Option<int>
  {
    if name in env then parse(env[name]) else Some(flag)
  }

  predicate Unparsable(env: Env, name: string, parse: string -> Option<int>)
  {
    name in env && parse(env[name]).None?
  }

  function CountFault(env: Env): Option<LoadError>
  {
    if Unparsable(env, "AEGIS_WORKERS", Atoi) then Some(Invalid("AEGIS_WORKERS", env["AEGIS_WORKERS"]))
    else if Unparsable(env, "AEGIS_QUEUE_DEPTH", Atoi) then Some(Invalid("AEGIS_QUEUE_DEPTH", env["AEGIS_QUEUE_DEPTH"]))
    else if Unparsable(env, "AEGIS_MAX_CONNS", Atoi) then Some(Invalid("AEGIS_MAX_CONNS", env["AEGIS_MAX_CONNS"]))
    else None
  }

  function DurationFault(env: Env, durations: DurationParser): Option<LoadError>
  {
    if Unparsable(env, "AEGIS_READ_TIMEOUT", durations)
    then Some(Invalid("AEGIS_READ_TIMEOUT", env["AEGIS_READ_TIMEOUT"]))
    else if Unparsable(env, "AEGIS_PROCESS_DELAY", durations)
    then Some(Invalid("AEGIS_PROCESS_DELAY", env["AEGIS_PROCESS_DELAY"]))
    else None
  }

  /** The first variable, in the program's order, that is set to something unparsable. */
  function ParseFault(env: Env, durations: DurationParser): Option<LoadError>
  {
    match CountFault(env)
    case Some(e) => Some(e)
    case None => DurationFault(env, durations)
  }

  /** The variables that have to parse, in the order in which the program reads them. */
  const PARSED := ["AEGIS_WORKERS", "AEGIS_QUEUE_DEPTH", "AEGIS_MAX_CONNS", "AEGIS_READ_TIMEOUT", "AEGIS_PROCESS_DELAY"]

  /** The i-th of these variables is set to something that does not parse: the first three are counts. */
  predicate BadVariable(env: Env, durations: DurationParser, i: nat)
    requires i < |PARSED|
  {
    && PARSED[i] in env
    && (if i < 3 then Atoi(env[PARSED[i]]) else durations(env[PARSED[i]])).None?
  }

  ghost predicate FirstUnparsable(env: Env, durations: DurationParser, name: string, value: string)
  {
    exists i | 0 <= i < |PARSED| ::
      && PARSED[i] == name && BadVariable(env, durations, i) && env[name] == value
      && forall j | 0 <= j < i :: !BadVariable(env, durations, j)
  }

  /** A parse error names the first variable that does not parse, and its value; there is one if any does not. */
  lemma ParseFaultIsFirst(env: Env, durations: DurationParser)
    ensures ParseFault(env, durations).Some? <==> exists i | 0 <= i < |PARSED| :: BadVariable(env, durations, i)
    ensures match ParseFault(env, durations)
            case None => true
            case Some(e) => e.Invalid? && FirstUnparsable(env, durations, e.variable, e.value)
  {
    assert forall i: nat | i < |PARSED| :: BadVariable(env, durations, i) <==> BadNamed(env, durations, i);
    if ParseFault(env, durations).Some? {
      var i := if BadVariable(env, durations, 0) then 0 else if BadVariable(env, durations, 1) then 1
               else if BadVariable(env, durations, 2) then 2 else if BadVariable(env, durations, 3) then 3 else 4;
      assert BadVariable(env, durations, i) && forall j | 0 <= j < i :: !BadVariable(env, durations, j);
    }
  }

  /** The same, variable by variable. */
  predicate BadNamed(env: Env, durations: DurationParser, i: nat)
  {
    if i == 0 then Unparsable(env, "AEGIS_WORKERS", Atoi)
    else if i == 1 then Unparsable(env, "AEGIS_QUEUE_DEPTH", Atoi)
    else if i == 2 then Unparsable(env, "AEGIS_MAX_CONNS", Atoi)
    else if i == 3 then Unparsable(env, "AEGIS_READ_TIMEOUT", durations)
    else Unparsable(env, "AEGIS_PROCESS_DELAY", durations)
  }

  /** Every setting comes from its environment variable if that is set, else from its flag. */
  function Layered(flags: Settings, env: Env, durations: DurationParser): Settings
    requires ParseFault(env, durations).None?
  {
    Settings(
      Text(env, "AEGIS_PORT", flags.port),
      Text(env, "AEGIS_METRICS_PORT", flags.metricsPort),
      Parsed(env, "AEGIS_WORKERS", flags.workers, Atoi).value,
      Parsed(env, "AEGIS_QUEUE_DEPTH", flags.queueDepth, Atoi).value,
      Parsed(env, "AEGIS_MAX_CONNS", flags.maxConns, Atoi).value,
      Parsed(env, "AEGIS_READ_TIMEOUT", flags.readTimeout, durations).value,
      Parsed(env, "AEGIS_PROCESS_DELAY", flags.processDelay, durations).value,
      Text(env, "AEGIS_SINK", flags.sinkType),
      Text(env, "AEGIS_POSTGRES_URL", flags.postgresURL),
      Text(env, "AEGIS_NATS_URL", flags.natsURL))
  }

  /** What loading yields: a parse error before any validation error. */
  function Loaded(flags: Settings, env: Env, durations: DurationParser): Result<Settings, LoadError>
  {
    match ParseFault(env, durations)
    case Some(e) => Err(e)
    case None =>
      var s := Layered(flags, env, durations);
      match Fault(s)
      case Some(e) => Err(e)
      case None => Ok(s)
  }

  /** Settings the server can run with. */
  predicate Valid(s: Settings)
  {
    && s.workers > 0 && s.queueDepth > 0 && s.maxConns >= 0 && s.readTimeout >= 0
    && s.sinkType in {"stdout", "postgres", "nats"}
    && (s.sinkType == "postgres" ==> s.postgresURL != "")
    && (s.sinkType == "nats" ==> s.natsURL != "")
  }

  /** What the error says is wrong with the settings. */
  predicate Violates(s: Settings, e: LoadError)
  {
    match e
    case Invalid(_, _) => false
    case WorkersNotPositive => s.workers <= 0
    case QueueDepthNotPositive => s.queueDepth <= 0
    case MaxConnsNegative => s.maxConns < 0
    case ReadTimeoutNegative => s.readTimeout < 0
    case PostgresURLMissing => s.sinkType == "postgres" && s.postgresURL == ""
    case NATSURLMissing => s.sinkType == "nats" && s.natsURL == ""
    case UnknownSink(t) => s.sinkType == t && t !in {"stdout", "postgres", "nats"}
  }

  /** The place of a check in the order in which the program makes them. */
  function Place(e: LoadError): nat
  {
    match e
    case Invalid(_, _) => 0
    case WorkersNotPositive => 1
    case QueueDepthNotPositive => 2
    case MaxConnsNegative => 3
    case ReadTimeoutNegative => 4
    case _ => 5
  }

  /** The error is one the settings deserve, and no check made before it fails. */
  ghost predicate FirstViolation(s: Settings, e: LoadError)
  {
    Violates(s, e) && forall other | Violates(s, other) :: other == e || Place(e) < Place(other)
  }

  /** Settings that pass all checks are the valid ones; for others the error is the first violation, and no other. */
  lemma FaultIsFirst(s: Settings)
    ensures Fault(s).None? <==> Valid(s)
    ensures forall e :: Fault(s) == Some(e) <==> FirstViolation(s, e)
  {
    if Fault(s).Some? {
      assert FirstViolation(s, Fault(s).value);
      forall e | FirstViolation(s, e) ensures Fault(s) == Some(e) {
        assert Violates(s, Fault(s).value) && Violates(s, e);
      }
    }
  }

  const NUMERIC := ["AEGIS_WORKERS", "AEGIS_QUEUE_DEPTH", "AEGIS_MAX_CONNS"]

  const TIMED := ["AEGIS_READ_TIMEOUT", "AEGIS_PROCESS_DELAY"]

  /** Loading succeeds exactly when every variable that is set parses and the layered settings are valid. */
  lemma LoadedIff(flags: Settings, env: Env, durations: DurationParser)
    ensures Loaded(flags, env, durations).Ok? <==>
            && (forall name <- NUMERIC :: !Unparsable(env, name, Atoi))
            && (forall name <- TIMED :: !Unparsable(env, name, durations))
            && ParseFault(env, durations).None? && Valid(Layered(flags, env, durations))
    ensures Loaded(flags, env, durations).Ok? ==> Valid(Loaded(flags, env, durations).value)
  {
    assert NUMERIC[0] in NUMERIC && NUMERIC[1] in NUMERIC && NUMERIC[2] in NUMERIC;
    assert TIMED[0] in TIMED && TIMED[1] in TIMED;
  }

  /** With no flag given and no variable set, the server listens on :9000 and :2112 and writes to stdout. */
  lemma NothingSet(durations: DurationParser)
    ensures Loaded(DEFAULTS, map[], durations) ==
            Ok(Settings(":9000", ":2112", 100, 100_000, 1000, 30_000_000_000, 0, "stdout", "", ""))
  {
  }

  // ------------------------------------------------------------- the object

  class Config {
    var port: string
    var metricsPort: string
    var workers: int
    var queueDepth: int
    var maxConns: int
    var readTimeout: int
    var processDelay: int
    var sinkType: string
    var postgresURL: string
    var natsURL: string

    constructor (flags: Settings)
      ensures Values() == flags
    {
      port, metricsPort := flags.port, flags.metricsPort;
      workers, queueDepth, maxConns := flags.workers, flags.queueDepth, flags.maxConns;
      readTimeout, processDelay := flags.readTimeout, flags.processDelay;
      sinkType, postgresURL, natsURL := flags.sinkType, flags.postgresURL, flags.natsURL;
    }

    function Values(): Settings
      reads this
    {
      Settings(port, metricsPort, workers, queueDepth, maxConns, readTimeout, processDelay,
               sinkType, postgresURL, natsURL)
    }

    method ApplyAddresses(env: Env)
      modifies this
      ensures Values() == old(Values()).(port := Text(env, "AEGIS_PORT", old(port)),
                                         metricsPort := Text(env, "AEGIS_METRICS_PORT", old(metricsPort)))
    {
      if "AEGIS_PORT" in env { port := env["AEGIS_PORT"]; }
      if "AEGIS_METRICS_PORT" in env { metricsPort := env["AEGIS_METRICS_PORT"]; }
    }

    method ApplyCounts(env: Env) returns (error: Option<LoadError>)
      modifies this
      ensures error == CountFault(env)
      ensures error.None? ==>
                Values() == old(Values()).(workers := Parsed(env, "AEGIS_WORKERS", old(workers), Atoi).value,
                                           queueDepth := Parsed(env, "AEGIS_QUEUE_DEPTH", old(queueDepth), Atoi).value,
                                           maxConns := Parsed(env, "AEGIS_MAX_CONNS", old(maxConns), Atoi).value)
    {
      if "AEGIS_WORKERS" in env {
        var n := Atoi(env["AEGIS_WORKERS"]);
        if n.None? { return Some(Invalid("AEGIS_WORKERS", env["AEGIS_WORKERS"])); }
        workers := n.value;
      }
      if "AEGIS_QUEUE_DEPTH" in env {
        var n := Atoi(env["AEGIS_QUEUE_DEPTH"]);
        if n.None? { return Some(Invalid("AEGIS_QUEUE_DEPTH", env["AEGIS_QUEUE_DEPTH"])); }
        queueDepth := n.value;
      }
      if "AEGIS_MAX_CONNS" in env {
        var n := Atoi(env["AEGIS_MAX_CONNS"]);
        if n.None? { return Some(Invalid("AEGIS_MAX_CONNS", env["AEGIS_MAX_CONNS"])); }
        maxConns := n.value;
      }
      return None;
    }

    method ApplyDurations(env: Env, durations: DurationParser) returns (error: Option<LoadError>)
      modifies this
      ensures error == DurationFault(env, durations)
      ensures error.None? ==>
                Values() == old(Values()).(
                  readTimeout := Parsed(env, "AEGIS_READ_TIMEOUT", old(readTimeout), durations).value,
                  processDelay := Parsed(env, "AEGIS_PROCESS_DELAY", old(processDelay), durations).value)
    {
      if "AEGIS_READ_TIMEOUT" in env {
        var d := durations(env["AEGIS_READ_TIMEOUT"]);
        if d.None? { return Some(Invalid("AEGIS_READ_TIMEOUT", env["AEGIS_READ_TIMEOUT"])); }
        readTimeout := d.value;
      }
      if "AEGIS_PROCESS_DELAY" in env {
        var d := durations(env["AEGIS_PROCESS_DELAY"]);
        if d.None? { return Some(Invalid("AEGIS_PROCESS_DELAY", env["AEGIS_PROCESS_DELAY"])); }
        processDelay := d.value;
      }
      return None;
    }

    method ApplySink(env: Env)
      modifies this
      ensures Values() == old(Values()).(sinkType := Text(env, "AEGIS_SINK", old(sinkType)),
                                         postgresURL := Text(env, "AEGIS_POSTGRES_URL", old(postgresURL)),
                                         natsURL := Text(env, "AEGIS_NATS_URL", old(natsURL)))
    {
      if "AEGIS_SINK" in env { sinkType := env["AEGIS_SINK"]; }
      if "AEGIS_POSTGRES_URL" in env { postgresURL := env["AEGIS_POSTGRES_URL"]; }
      if "AEGIS_NATS_URL" in env { natsURL := env["AEGIS_NATS_URL"]; }
    }

    /** None exactly for valid settings, otherwise the first of the program's checks that fails. */
    method Validate() returns (error: Option<LoadError>)
      ensures error.None? <==> Valid(Values())
      ensures error.Some? ==> FirstViolation(Values(), error.value)
      ensures error == Fault(Values())
    {
      FaultIsFirst(Values());
      if workers <= 0 { return Some(WorkersNotPositive); }
      if queueDepth <= 0 { return Some(QueueDepthNotPositive); }
      if maxConns < 0 { return Some(MaxConnsNegative); }
      if readTimeout < 0 { return Some(ReadTimeoutNegative); }
      if sinkType == "stdout" {
      } else if sinkType == "postgres" {
        if postgresURL == "" { return Some(PostgresURLMissing); }
      } else if sinkType == "nats" {
        if natsURL == "" { return Some(NATSURLMissing); }
      } else {
        return Some(UnknownSink(sinkType));
      }
      return None;
    }
  }

  /** Start from the flags, let each variable that is set overwrite its field, then validate. */
  method Load(flags: Settings, env: Env, durations: DurationParser) returns (cfg: Config?, error: Option<LoadError>)
    ensures match Loaded(flags, env, durations)
            case Ok(s) => error == None && cfg != null && fresh(cfg) && cfg.Values() == s
            case Err(e) => error == Some(e) && cfg == null
    ensures cfg == null <==> error.Some?
    ensures cfg != null ==>
              && Valid(cfg.Values())
              && cfg.port == (if "AEGIS_PORT" in env then env["AEGIS_PORT"] else flags.port)
              && cfg.metricsPort ==
                 (if "AEGIS_METRICS_PORT" in env then env["AEGIS_METRICS_PORT"] else flags.metricsPort)
              && Some(cfg.workers) ==
                 (if "AEGIS_WORKERS" in env then Atoi(env["AEGIS_WORKERS"]) else Some(flags.workers))
              && Some(cfg.queueDepth) ==
                 (if "AEGIS_QUEUE_DEPTH" in env then Atoi(env["AEGIS_QUEUE_DEPTH"]) else Some(flags.queueDepth))
              && Some(cfg.maxConns) ==
                 (if "AEGIS_MAX_CONNS" in env then Atoi(env["AEGIS_MAX_CONNS"]) else Some(flags.maxConns))
              && Some(cfg.readTimeout) ==
                 (if "AEGIS_READ_TIMEOUT" in env then durations(env["AEGIS_READ_TIMEOUT"]) else Some(flags.readTimeout))
              && Some(cfg.processDelay) ==
                 (if "AEGIS_PROCESS_DELAY" in env then durations(env["AEGIS_PROCESS_DELAY"])
                  else Some(flags.processDelay))
              && cfg.sinkType == (if "AEGIS_SINK" in env then env["AEGIS_SINK"] else flags.sinkType)
              && cfg.postgresURL ==
                 (if "AEGIS_POSTGRES_URL" in env then env["AEGIS_POSTGRES_URL"] else flags.postgresURL)
              && cfg.natsURL == (if "AEGIS_NATS_URL" in env then env["AEGIS_NATS_URL"] else flags.natsURL)
    ensures error.Some? && error.value.Invalid? ==>
              FirstUnparsable(env, durations, error.value.variable, error.value.value)
  {
    ParseFaultIsFirst(env, durations);
    LoadedIff(flags, env, durations);
    var c := new Config(flags);
    c.ApplyAddresses(env);
    error := c.ApplyCounts(env);
    if error.Some? { return null, error; }
    error := c.ApplyDurations(env, durations);
    if error.Some? { return null, error; }
    c.ApplySink(env);
    error := c.Validate();
    cfg := if error.None? then c else null;
  }
}
