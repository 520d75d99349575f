/**
 * The cloud backend's environment check (cloud/src/cloud/env.py): MQTT_BROKER
 * and MQTT_PORT must be set and non-blank, checked in that order, and the
 * port must be an integer in 1..65535; the first failure ends the process
 * with status 1 and one setup-error line.
 *
 * The environment (after `load_dotenv`) is a parameter, `None` for an unset
 * variable.
 */
module CloudEnv {
  import opened Wrappers
  import opened Strings
  import AgentEnv

  const PortMin := 1
  const PortMax := 65535

  /** The two setup errors: a missing variable, or a port that is not a valid port. */
  datatype SetupError = Missing(name: string) | InvalidPort(raw: string)

  /** What `_setup_err` prints to stderr before exiting with status 1. */
  function SetupErrorLine(e: SetupError): string {
    var msg := match e
      case Missing(name) => "\U{1B}[96m" + name + "\U{1B}[0m is missing"
      case InvalidPort(raw) => "\U{1B}[96mMQTT_PORT\U{1B}[0m is invalid: \U{1B}[91m" + raw + "\U{1B}[0m";
    "\U{1B}[1;91mcloud: setup-error:\U{1B}[0m " + msg + "\n"
  }

  /** `get_env_vars`: the broker and the port, or the first setup error. */
  function GetEnvVars(broker: Option<string>, portRaw: Option<string>): (r: Result<(string, int), SetupError>)
    ensures r.Ok? ==>
      broker.Some? && r.value.0 == broker.value && !IsBlank(broker.value)
      && portRaw.Some? && ParseInt(portRaw.value) == Some(r.value.1) && PortMin <= r.value.1 <= PortMax
  {
    if broker.None? || IsBlank(broker.value) then Err(Missing("MQTT_BROKER"))
    else if portRaw.None? || IsBlank(portRaw.value) then Err(Missing("MQTT_PORT"))
    else
      match ParseInt(portRaw.value)
      case Some(p) => if PortMin <= p <= PortMax then Ok((broker.value, p)) else Err(InvalidPort(portRaw.value))
      case None => Err(InvalidPort(portRaw.value))
  }

  /**
   * Which error `get_env_vars` stops at: the broker is checked before the
   * port, presence before validity; and every parsed port in range is accepted.
   */
  lemma SetupErrorOrder(broker: Option<string>, portRaw: Option<string>)
    ensures GetEnvVars(broker, portRaw) == Err(Missing("MQTT_BROKER")) <==> broker.None? || IsBlank(broker.value)
    ensures GetEnvVars(broker, portRaw) == Err(Missing("MQTT_PORT")) <==>
      broker.Some? && !IsBlank(broker.value) && (portRaw.None? || IsBlank(portRaw.value))
    ensures GetEnvVars(broker, portRaw).Err? && GetEnvVars(broker, portRaw).error.InvalidPort? <==>
      broker.Some? && !IsBlank(broker.value) && portRaw.Some? && !IsBlank(portRaw.value)
      && (ParseInt(portRaw.value).None? || !(PortMin <= ParseInt(portRaw.value).value <= PortMax))
  {
  }

  /**
   * The cloud accepts exactly the environments the bridge accepts, and reads
   * the same broker and port from them; only the error reporting differs
   * (first error and exit here, every error collected there).
   */
  lemma AgreesWithBridge(broker: Option<string>, portRaw: Option<string>)
    ensures GetEnvVars(broker, portRaw).Ok? <==> AgentEnv.Collected(broker, portRaw) == []
    ensures GetEnvVars(broker, portRaw).Ok? ==>
      GetEnvVars(broker, portRaw).value
      == (AgentEnv.EnsureValidBroker("MQTT_BROKER", broker).value, AgentEnv.EnsureValidPort("MQTT_PORT", portRaw).value)
  {
    AgentEnv.PortVerdicts("MQTT_PORT", portRaw);
  }
}
