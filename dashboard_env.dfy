/**
 * The dashboard's environment check (dashboard/src/dashboard/env.py): five
 * variables are validated in turn, every failure is collected, and the
 * process exits with status 1 when any was found.
 *
 * The environment (after `load_dotenv`) is a parameter, `None` for an unset
 * variable; so is the program name. What the filesystem says about DATA_DIR
 * (absent, a directory, something else, and whether creating it failed) is
 * an input, `PathState`.
 */
module DashboardEnv {
  import opened Wrappers
  import opened Seqs
  import opened Strings
  import AgentEnv

  const PortMin := 1
  const PortMax := 65535

  /** Why a variable was refused; `val` is the raw text the message quotes. */
  datatype EnvError =
    | NotSet(name: string)
    | NotInteger(name: string, val: string)
    | OutOfRange(name: string, val: string)
    | NoLeadingSlash(name: string, val: string)
    | TrailingSlash(name: string, val: string)
    | NotDirectory(name: string, val: string)
    | CannotCreate(name: string, reason: string)

  /** `\x1b[96m{name}\x1b[0m`: the variable's name in bright cyan. */
  function Cyan(name: string): string {
    "\U{1B}[96m" + name + "\U{1B}[0m"
  }

  /** The text of the raised `ValueError`. */
  function ErrorText(e: EnvError): string {
    match e
    case NotSet(n) => Cyan(n) + " is not set"
    case NotInteger(n, v) => Cyan(n) + " is not an integer: " + v
    case OutOfRange(n, v) => Cyan(n) + " is out of range: " + v
    case NoLeadingSlash(n, v) => Cyan(n) + " must start with '/': " + v
    case TrailingSlash(n, v) => Cyan(n) + " must not end with '/': " + v
    case NotDirectory(n, v) => Cyan(n) + " is not a directory: " + v
    case CannotCreate(n, reason) => Cyan(n) + " cannot be created: " + reason
  }

  /**
   * `_validate_port`: unset or blank is "not set", text `int` refuses is
   * "not an integer", a number outside 1..65535 is "out of range".
   */
  function ValidatePort(name: string, val: Option<string>): (r: Result<int, EnvError>)
    ensures r.Ok? ==> PortMin <= r.value <= PortMax && val.Some? && ParseInt(val.value) == Some(r.value)
    ensures r.Err? ==> r.error.name == name
  {
    if val.None? || IsBlank(val.value) then Err(NotSet(name))
    else
      match ParseInt(val.value)
      case None => Err(NotInteger(name, val.value))
      case Some(p) => if PortMin <= p <= PortMax then Ok(p) else Err(OutOfRange(name, val.value))
  }

  /** Each verdict of `_validate_port`, with the condition that gives it. */
  lemma PortVerdicts(name: string, val: Option<string>)
    ensures ValidatePort(name, val) == Err(NotSet(name)) <==> val.None? || IsBlank(val.value)
    ensures val.Some? ==>
      (ValidatePort(name, val) == Err(NotInteger(name, val.value)) <==> !IsBlank(val.value) && ParseInt(val.value).None?)
    ensures val.Some? ==>
      (ValidatePort(name, val) == Err(OutOfRange(name, val.value)) <==>
        ParseInt(val.value).Some? && !(PortMin <= ParseInt(val.value).value <= PortMax))
    ensures forall p ::
      (ValidatePort(name, val) == Ok(p) <==> val.Some? && ParseInt(val.value) == Some(p) && PortMin <= p <= PortMax)
  {
    if val.Some? && ParseInt(val.value).Some? {
      if IsBlank(val.value) {
        ParseIntBlank(val.value);
      }
    }
  }

  /**
   * The dashboard accepts and refuses ports and brokers exactly as the
   * bridge does, with the same kind of error; only the message markup differs.
   */
  lemma SameChecksAsBridge(name: string, val: Option<string>)
    ensures ValidatePort(name, val).Ok? <==> AgentEnv.EnsureValidPort(name, val).Ok?
    ensures ValidatePort(name, val).Ok? ==> ValidatePort(name, val).value == AgentEnv.EnsureValidPort(name, val).value
    ensures ValidatePort(name, val).Err? ==>
      (ValidatePort(name, val).error.NotSet? <==> AgentEnv.EnsureValidPort(name, val).error.NotSet?)
      && (ValidatePort(name, val).error.NotInteger? <==> AgentEnv.EnsureValidPort(name, val).error.NotInteger?)
    ensures ValidateBroker(name, val).Ok? <==> AgentEnv.EnsureValidBroker(name, val).Ok?
  {
    var d := ValidatePort(name, val);
    var a := AgentEnv.EnsureValidPort(name, val);
    if val.None? || IsBlank(val.value) {
      assert d == Err(NotSet(name)) && a == Err(AgentEnv.NotSet(name));
    } else if ParseInt(val.value).None? {
      assert d == Err(NotInteger(name, val.value)) && a == Err(AgentEnv.NotInteger(name, val.value));
    } else {
      var p := ParseInt(val.value).value;
      assert d.Ok? <==> PortMin <= p <= PortMax;
      assert a.Ok? <==> PortMin <= p <= PortMax;
      assert d.Ok? ==> d.value == p && a.value == p;
    }
  }

  /** `_validate_broker`: unset or blank is "not set"; otherwise the value unchanged. */
  function ValidateBroker(name: string, val: Option<string>): (r: Result<string, EnvError>)
    ensures r.Ok? <==> val.Some? && !IsBlank(val.value)
    ensures r.Ok? ==> r.value == val.value
    ensures r.Err? ==> r.error == NotSet(name)
  {
    if val.None? || IsBlank(val.value) then Err(NotSet(name)) else Ok(val.value)
  }

  /**
   * `_validate_root_path`: unset or empty means no prefix (""); otherwise the
   * value must start with '/' and must not end with '/'.
   */
  function ValidateRootPath(name: string, val: Option<string>): (r: Result<string, EnvError>)
    ensures r.Ok? ==> r.value == [] || (StartsWith(r.value, "/") && !EndsWith(r.value, "/"))
    ensures r.Ok? ==> r.value == (if val.None? then "" else val.value)
    ensures r.Ok? <==> val.None? || val.value == [] || (val.value[0] == '/' && val.value[|val.value| - 1] != '/')
    ensures r.Err? ==> r.error.name == name
  {
    var v := if val.None? then "" else val.value;
    if v == [] then Ok("")
    else if !StartsWith(v, "/") then Err(NoLeadingSlash(name, v))
    else if EndsWith(v, "/") then Err(TrailingSlash(name, v))
    else Ok(v)
  }

  /** A bare "/" is refused: the root is written as the empty prefix. */
  lemma RootSlashRefused(name: string)
    ensures ValidateRootPath(name, Some("/")) == Err(TrailingSlash(name, "/"))
  {
    assert StartsWith("/", "/");
  }

  /**
   * Whatever the root path, `prefix + route` for a route starting with '/'
   * never holds a doubled slash at the join.
   */
  lemma RootPathJoins(name: string, val: Option<string>, route: string)
    requires ValidateRootPath(name, val).Ok?
    requires StartsWith(route, "/")
    ensures var p := ValidateRootPath(name, val).value;
      StartsWith(p + route, "/") && (p != [] ==> (p + route)[|p| - 1] != '/')
  {
    var p := ValidateRootPath(name, val).value;
    assert (p + route)[0] == (if p == [] then route[0] else p[0]);
    assert route[0] == '/';
  }

  /** What the filesystem holds at the data directory's path. */
  datatype PathState =
    | Directory
    | OtherFile
    /** Absent; `mkdir(parents=True)` then either succeeds or fails with the given OSError text. */
    | Absent(mkdirError: Option<string>)

  /**
   * `_validate_data_dir`: the path defaults to "."; an existing non-directory
   * is refused, an absent directory is created, and a failed creation is
   * refused. An empty value names the current directory, as `Path("")` does.
   */
  function ValidateDataDir(name: string, val: Option<string>, fs: PathState): (r: Result<string, EnvError>)
    ensures r.Ok? <==> fs.Directory? || fs == Absent(None)
    ensures r.Ok? ==> r.value == (if val.None? || val.value == "" then "." else val.value)
    ensures fs.OtherFile? ==> r.Err? && r.error.NotDirectory?
    ensures fs.Absent? && fs.mkdirError.Some? ==> r == Err(CannotCreate(name, fs.mkdirError.value))
    ensures r.Err? ==> r.error.name == name
  {
    var v := if val.None? then "." else val.value;
    var path := if v == "" then "." else v;
    match fs
    case OtherFile => Err(NotDirectory(name, v))
    case Directory => Ok(path)
    case Absent(None) => Ok(path)
    case Absent(Some(e)) => Err(CannotCreate(name, e))
  }

  /** The environment the dashboard reads. */
  datatype Env = Env(
    mqttBroker: Option<string>, mqttPort: Option<string>, appPort: Option<string>,
    appRootPath: Option<string>, dataDir: Option<string>, dataDirState: PathState)

  /** `_EnvConf`. */
  datatype EnvConf = EnvConf(mqttBroker: string, mqttPort: int, appPort: int, appRootPath: string, dataDir: string)

  /** How `_load_env` ends: the configuration, or exit with a status and what went to stderr. */
  datatype Outcome = Loaded(conf: EnvConf) | Exited(status: int, stderr: string)

  /** `f"\x1b[1;91m{prog}: env-error:\x1b[0m {e}\n"`. */
  function ReportLine(prog: string, e: EnvError): string {
    "\U{1B}[1;91m" + prog + ": env-error:\U{1B}[0m " + ErrorText(e) + "\n"
  }

  function Report(prog: string, errs: seq<EnvError>): (r: string)
    ensures errs == [] <==> r == []
  {
    if errs == [] then "" else ReportLine(prog, errs[0]) + Report(prog, errs[1..])
  }

  /** The error of a refused result, as a list of zero or one errors. */
  function ErrorOf<T>(r: Result<T, EnvError>): (e: seq<EnvError>)
    ensures |e| == Failed(r) && (r.Err? ==> e == [r.error])
  {
    if r.Err? then [r.error] else []
  }

  /** 1 for a refused result, 0 for an accepted one. */
  function Failed<T>(r: Result<T, EnvError>): nat {
    if r.Err? then 1 else 0
  }

  /** A variable's place in the order `_load_env` validates them; 5 for any other name. */
  function VarRank(name: string): nat {
    if name == "MQTT_BROKER" then 0
    else if name == "MQTT_PORT" then 1
    else if name == "APP_PORT" then 2
    else if name == "APP_ROOT_PATH" then 3
    else if name == "DATA_DIR" then 4
    else 5
  }

  /**
   * The errors `_load_env` collects: none exactly when every variable is
   * accepted; otherwise each refused variable's error exactly once, in the
   * order the variables are validated (MQTT_BROKER, MQTT_PORT, APP_PORT,
   * APP_ROOT_PATH, DATA_DIR), and nothing else.
   */
  function Collected(env: Env): (errs: seq<EnvError>)
    ensures errs == [] <==>
      && ValidateBroker("MQTT_BROKER", env.mqttBroker).Ok? && ValidatePort("MQTT_PORT", env.mqttPort).Ok?
      && ValidatePort("APP_PORT", env.appPort).Ok? && ValidateRootPath("APP_ROOT_PATH", env.appRootPath).Ok?
      && ValidateDataDir("DATA_DIR", env.dataDir, env.dataDirState).Ok?
    ensures |errs| ==
      Failed(ValidateBroker("MQTT_BROKER", env.mqttBroker)) + Failed(ValidatePort("MQTT_PORT", env.mqttPort))
      + Failed(ValidatePort("APP_PORT", env.appPort)) + Failed(ValidateRootPath("APP_ROOT_PATH", env.appRootPath))
      + Failed(ValidateDataDir("DATA_DIR", env.dataDir, env.dataDirState))
    ensures ValidateBroker("MQTT_BROKER", env.mqttBroker).Err? ==> ValidateBroker("MQTT_BROKER", env.mqttBroker).error in errs
    ensures ValidatePort("MQTT_PORT", env.mqttPort).Err? ==> ValidatePort("MQTT_PORT", env.mqttPort).error in errs
    ensures ValidatePort("APP_PORT", env.appPort).Err? ==> ValidatePort("APP_PORT", env.appPort).error in errs
    ensures ValidateRootPath("APP_ROOT_PATH", env.appRootPath).Err? ==>
      ValidateRootPath("APP_ROOT_PATH", env.appRootPath).error in errs
    ensures ValidateDataDir("DATA_DIR", env.dataDir, env.dataDirState).Err? ==>
      ValidateDataDir("DATA_DIR", env.dataDir, env.dataDirState).error in errs
    ensures InOrder(errs)
  {
    var errs := Gathered(
      ErrorOf(ValidateBroker("MQTT_BROKER", env.mqttBroker)),
      ErrorOf(ValidatePort("MQTT_PORT", env.mqttPort)),
      ErrorOf(ValidatePort("APP_PORT", env.appPort)),
      ErrorOf(ValidateRootPath("APP_ROOT_PATH", env.appRootPath)),
      ErrorOf(ValidateDataDir("DATA_DIR", env.dataDir, env.dataDirState)));
    RankedInOrder(errs, 0);
    errs
  }

  /** `Collected` is what appending each refused variable's error, one after the other, builds. */
  lemma CollectedAppended(env: Env)
    ensures Collected(env) ==
      ErrorOf(ValidateBroker("MQTT_BROKER", env.mqttBroker)) + ErrorOf(ValidatePort("MQTT_PORT", env.mqttPort))
      + ErrorOf(ValidatePort("APP_PORT", env.appPort)) + ErrorOf(ValidateRootPath("APP_ROOT_PATH", env.appRootPath))
      + ErrorOf(ValidateDataDir("DATA_DIR", env.dataDir, env.dataDirState))
  {
    var e0 := ErrorOf(ValidateBroker("MQTT_BROKER", env.mqttBroker));
    var e1 := ErrorOf(ValidatePort("MQTT_PORT", env.mqttPort));
    var e2 := ErrorOf(ValidatePort("APP_PORT", env.appPort));
    var e3 := ErrorOf(ValidateRootPath("APP_ROOT_PATH", env.appRootPath));
    var e4 := ErrorOf(ValidateDataDir("DATA_DIR", env.dataDir, env.dataDirState));
    AppendAssoc(e0 + e1 + e2, e3, e4);
    AppendAssoc(e0 + e1, e2, e3 + e4);
    AppendAssoc(e0, e1, e2 + (e3 + e4));
  }

  /** The per-variable error lists, each empty or one error of that variable, concatenated in validation order. */
  function Gathered(e0: seq<EnvError>, e1: seq<EnvError>, e2: seq<EnvError>, e3: seq<EnvError>, e4: seq<EnvError>): (errs: seq<EnvError>)
    requires |e0| <= 1 && |e1| <= 1 && |e2| <= 1 && |e3| <= 1 && |e4| <= 1
    requires e0 != [] ==> VarRank(e0[0].name) == 0
    requires e1 != [] ==> VarRank(e1[0].name) == 1
    requires e2 != [] ==> VarRank(e2[0].name) == 2
    requires e3 != [] ==> VarRank(e3[0].name) == 3
    requires e4 != [] ==> VarRank(e4[0].name) == 4
    ensures |errs| == |e0| + |e1| + |e2| + |e3| + |e4|
    ensures forall e :: e in errs <==> e in e0 || e in e1 || e in e2 || e in e3 || e in e4
    ensures RankedFrom(errs, 0)
  {
    RankedCons(e4, [], 4);
    RankedCons(e3, e4, 3);
    RankedCons(e2, e3 + e4, 2);
    RankedCons(e1, e2 + (e3 + e4), 1);
    RankedCons(e0, e1 + (e2 + (e3 + e4)), 0);
    e0 + (e1 + (e2 + (e3 + e4)))
  }

  /**
   * The errors name validated variables in strictly increasing validation
   * order, starting no earlier than the k-th: so no variable twice.
   */
  predicate RankedFrom(errs: seq<EnvError>, k: nat)
    decreases |errs|
  {
    errs == [] || (k <= VarRank(errs[0].name) < 5 && RankedFrom(errs[1..], VarRank(errs[0].name) + 1))
  }

  /** Putting at most one error of the k-th variable in front of errors of later variables keeps the order. */
  lemma RankedCons(e: seq<EnvError>, rest: seq<EnvError>, k: nat)
    requires k < 5 && |e| <= 1 && (e != [] ==> VarRank(e[0].name) == k) && RankedFrom(rest, k + 1)
    ensures RankedFrom(e + rest, k)
  {
    if e == [] {
      assert e + rest == rest;
    } else {
      assert (e + rest)[1..] == rest;
    }
  }

  /** Errors strictly in validation order, each of a validated variable. */
  predicate InOrder(errs: seq<EnvError>) {
    && (forall i :: 0 <= i < |errs| ==> VarRank(errs[i].name) < 5)
    && (forall i, j :: 0 <= i < j < |errs| ==> VarRank(errs[i].name) < VarRank(errs[j].name))
  }

  /** The order a `RankedFrom` list keeps, pairwise: each variable at most once, earlier variables first. */
  lemma {:induction false} RankedInOrder(errs: seq<EnvError>, k: nat)
    requires RankedFrom(errs, k)
    ensures InOrder(errs) && forall i :: 0 <= i < |errs| ==> k <= VarRank(errs[i].name)
    decreases |errs|
  {
    if errs != [] {
      var rest := errs[1..];
      RankedInOrder(rest, VarRank(errs[0].name) + 1);
      forall i, j | 0 <= i < j < |errs|
        ensures VarRank(errs[i].name) < VarRank(errs[j].name)
      {
        assert errs[j] == rest[j - 1];
        if i > 0 {
          assert errs[i] == rest[i - 1];
        }
      }
      forall i | 0 <= i < |errs|
        ensures k <= VarRank(errs[i].name) < 5
      {
        if i > 0 {
          assert errs[i] == rest[i - 1];
        }
      }
    }
  }

  /**
   * `_load_env`: every validator runs and appends its failure to `errs`; with
   * any error the report goes to stderr and the process exits with status 1,
   * otherwise the five validated values are returned.
   */
  method LoadEnv(prog: string, env: Env) returns (r: Outcome)
    ensures r.Exited? <==> Collected(env) != []
    ensures r.Exited? ==> r.status == 1 && r.stderr == Report(prog, Collected(env))
    ensures r.Loaded? ==>
      && r.conf.mqttBroker == env.mqttBroker.value && !IsBlank(r.conf.mqttBroker)
      && PortMin <= r.conf.mqttPort <= PortMax && ParseInt(env.mqttPort.value) == Some(r.conf.mqttPort)
      && PortMin <= r.conf.appPort <= PortMax && ParseInt(env.appPort.value) == Some(r.conf.appPort)
      && r.conf.appRootPath == ValidateRootPath("APP_ROOT_PATH", env.appRootPath).value
      && r.conf.dataDir == ValidateDataDir("DATA_DIR", env.dataDir, env.dataDirState).value
  {
    var errs: seq<EnvError> := [];
    var mbroker, mport, aport, rootPath, dataDir := "", 0, 0, "", "";

    var b := ValidateBroker("MQTT_BROKER", env.mqttBroker);
    if b.Ok? { mbroker := b.value; } else { errs := errs + [b.error]; }
    assert errs == ErrorOf(b);
    var mp := ValidatePort("MQTT_PORT", env.mqttPort);
    if mp.Ok? { mport := mp.value; } else { errs := errs + [mp.error]; }
    assert errs == ErrorOf(b) + ErrorOf(mp);
    var ap := ValidatePort("APP_PORT", env.appPort);
    if ap.Ok? { aport := ap.value; } else { errs := errs + [ap.error]; }
    assert errs == ErrorOf(b) + ErrorOf(mp) + ErrorOf(ap);
    var rp := ValidateRootPath("APP_ROOT_PATH", env.appRootPath);
    if rp.Ok? { rootPath := rp.value; } else { errs := errs + [rp.error]; }
    assert errs == ErrorOf(b) + ErrorOf(mp) + ErrorOf(ap) + ErrorOf(rp);
    var dd := ValidateDataDir("DATA_DIR", env.dataDir, env.dataDirState);
    if dd.Ok? { dataDir := dd.value; } else { errs := errs + [dd.error]; }
    assert errs == ErrorOf(b) + ErrorOf(mp) + ErrorOf(ap) + ErrorOf(rp) + ErrorOf(dd);
    CollectedAppended(env);

    if errs != [] {
      return Exited(1, Report(prog, errs));
    }
    return Loaded(EnvConf(mbroker, mport, aport, rootPath, dataDir));
  }
}
