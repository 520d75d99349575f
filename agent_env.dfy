/**
 * The bridge's environment check (agent/src/agent/misc/env.py): MQTT_BROKER
 * and MQTT_PORT are read, validated, and either returned together or every
 * problem found is printed and the process exits with status 1.
 *
 * The environment (after `load_dotenv`) is a parameter: `None` for an unset
 * variable. The program name printed in front of each error is a parameter too.
 */
module AgentEnv {
  import opened Wrappers
  import opened Strings

  const PortMin := 1
  const PortMax := 65535

  /** Why a variable was refused; `val` is the raw text the message quotes. */
  datatype EnvError =
    | NotSet(name: string)
    | NotInteger(name: string, val: string)
    | OutOfRange(name: string, val: string)

  /** The text of the raised `ValueError`, in Rich console markup. */
  function ErrorText(e: EnvError): string {
    match e
    case NotSet(n) => "[cyan]" + n + "[/] is not set"
    case NotInteger(n, v) => "[cyan]" + n + "[/] is not an integer: " + v
    case OutOfRange(n, v) => "[cyan]" + n + "[/] is out of range: " + v
  }

  /**
   * `_ensure_valid_port`: an unset or blank value is "not set", text `int`
   * refuses is "not an integer", a number outside 1..65535 is "out of range";
   * otherwise the port number.
   */
  function EnsureValidPort(name: string, val: Option<string>): (r: Result<int, EnvError>)
    ensures r.Ok? ==> PortMin <= r.value <= PortMax && val.Some? && ParseInt(val.value) == Some(r.value)
    ensures r.Err? ==> r.error.name == name
  {
    if val.None? || IsBlank(val.value) then Err(NotSet(name))
    else
      match ParseInt(val.value)
      case None => Err(NotInteger(name, val.value))
      case Some(p) => if PortMin <= p <= PortMax then Ok(p) else Err(OutOfRange(name, val.value))
  }

  /** Each verdict of `_ensure_valid_port`, with the condition that gives it. */
  lemma PortVerdicts(name: string, val: Option<string>)
    ensures EnsureValidPort(name, val) == Err(NotSet(name)) <==> val.None? || IsBlank(val.value)
    ensures val.Some? ==>
      (EnsureValidPort(name, val) == Err(NotInteger(name, val.value)) <==> !IsBlank(val.value) && ParseInt(val.value).None?)
    ensures val.Some? ==>
      (EnsureValidPort(name, val) == Err(OutOfRange(name, val.value)) <==>
        ParseInt(val.value).Some? && !(PortMin <= ParseInt(val.value).value <= PortMax))
    ensures forall p ::
      (EnsureValidPort(name, val) == Ok(p) <==> val.Some? && ParseInt(val.value) == Some(p) && PortMin <= p <= PortMax)
  {
    if val.Some? && ParseInt(val.value).Some? {
      if IsBlank(val.value) {
        ParseIntBlank(val.value);
      }
    }
  }

  /** Every port number, written in decimal with any surrounding whitespace, is accepted as itself. */
  lemma PortRoundTrip(name: string, p: int, pad: string)
    requires PortMin <= p <= PortMax && IsBlank(pad)
    ensures EnsureValidPort(name, Some(pad + SignedDecimal(p) + pad)) == Ok(p)
  {
    var d := SignedDecimal(p);
    assert !IsSpace(d[0]) && !IsSpace(d[|d| - 1]) by {
      assert IsDigit(d[0]) && IsDigit(d[|d| - 1]);
    }
    PaddedParseInt(pad, d);
    ParseIntRoundTrip(p);
  }

  /** `_ensure_valid_broker`: an unset or blank value is "not set"; otherwise the value as given, not stripped. */
  function EnsureValidBroker(name: string, val: Option<string>): (r: Result<string, EnvError>)
    ensures r.Ok? <==> val.Some? && !IsBlank(val.value)
    ensures r.Ok? ==> r.value == val.value
    ensures r.Err? ==> r.error == NotSet(name)
  {
    if val.None? || IsBlank(val.value) then Err(NotSet(name)) else Ok(val.value)
  }

  /** `_MqttConf`. */
  datatype Conf = Conf(mqttBroker: string, mqttPort: int)

  /** How `get_env_vars` ends: the configuration, or exit with a status and what went to stderr. */
  datatype Outcome = Loaded(conf: Conf) | Exited(status: int, stderr: string)

  /** One line of the error report. */
  function ReportLine(prog: string, e: EnvError): string {
    "[bold bright_red]" + prog + ": env-error:[/] " + ErrorText(e) + "\n"
  }

  /** The joined report: one line per error, in order. */
  function Report(prog: string, errs: seq<EnvError>): (r: string)
    ensures errs == [] <==> r == []
  {
    if errs == [] then "" else ReportLine(prog, errs[0]) + Report(prog, errs[1..])
  }

  /**
   * The errors `get_env_vars` collects: none exactly when both variables are
   * accepted; otherwise each refused variable's error exactly once, the
   * broker's before the port's, and nothing else.
   */
  function Collected(broker: Option<string>, port: Option<string>): (errs: seq<EnvError>)
    ensures errs == [] <==> EnsureValidBroker("MQTT_BROKER", broker).Ok? && EnsureValidPort("MQTT_PORT", port).Ok?
    ensures |errs| == (if EnsureValidBroker("MQTT_BROKER", broker).Err? then 1 else 0)
                    + (if EnsureValidPort("MQTT_PORT", port).Err? then 1 else 0)
    ensures EnsureValidBroker("MQTT_BROKER", broker).Err? ==> errs[0] == EnsureValidBroker("MQTT_BROKER", broker).error
    ensures EnsureValidPort("MQTT_PORT", port).Err? ==> errs[|errs| - 1] == EnsureValidPort("MQTT_PORT", port).error
    ensures forall i :: 0 <= i < |errs| ==> errs[i].name in {"MQTT_BROKER", "MQTT_PORT"}
  {
    (if EnsureValidBroker("MQTT_BROKER", broker).Err? then [EnsureValidBroker("MQTT_BROKER", broker).error] else [])
    + (if EnsureValidPort("MQTT_PORT", port).Err? then [EnsureValidPort("MQTT_PORT", port).error] else [])
  }

  /**
   * `get_env_vars`: both validators run, each failure appended to `errs`;
   * the process exits with status 1 and the report when either value is
   * missing, and otherwise returns the broker and the port.
   */
  method GetEnvVars(prog: string, brokerVal: Option<string>, portVal: Option<string>) returns (r: Outcome)
    ensures r.Loaded? <==> EnsureValidBroker("MQTT_BROKER", brokerVal).Ok? && EnsureValidPort("MQTT_PORT", portVal).Ok?
    ensures r.Loaded? ==>
      r.conf == Conf(brokerVal.value, EnsureValidPort("MQTT_PORT", portVal).value)
      && 1 <= r.conf.mqttPort <= 65535 && !IsBlank(r.conf.mqttBroker)
    ensures r.Exited? <==> Collected(brokerVal, portVal) != []
    ensures r.Exited? ==> r.status == 1 && r.stderr == Report(prog, Collected(brokerVal, portVal)) && r.stderr != []
  {
    var errs: seq<EnvError> := [];
    var broker: Option<string> := None;
    var port: Option<int> := None;

    match EnsureValidBroker("MQTT_BROKER", brokerVal) {
      case Ok(b) => broker := Some(b);
      case Err(e) => errs := errs + [e];
    }
    match EnsureValidPort("MQTT_PORT", portVal) {
      case Ok(p) => port := Some(p);
      case Err(e) => errs := errs + [e];
    }
    assert errs == Collected(brokerVal, portVal);

    if broker.None? || port.None? {
      return Exited(1, Report(prog, errs));
    }
    return Loaded(Conf(broker.value, port.value));
  }
}
