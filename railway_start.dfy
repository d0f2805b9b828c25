/**
 * The deployment entry point: it reads the service type and the port from
 * the environment and starts exactly one service.
 */
module RailwayStart {
  import opened Wrappers
  import PyInt

  type Env = map<string, string>

  /** The one service an invocation starts. */
  datatype Service = FrontendServer(port: int) | VoiceAgent

  /** `int(PORT)` raised `ValueError` on this value. */
  datatype StartError = InvalidPort(value: string)

  const DefaultServiceType: string := "frontend"
  const DefaultPort: int := 8080

  /** `os.environ.get('RAILWAY_SERVICE_TYPE', 'frontend')`. */
  function ServiceType(env: Env): string {
    if "RAILWAY_SERVICE_TYPE" in env then env["RAILWAY_SERVICE_TYPE"] else DefaultServiceType
  }

  /** `int(os.environ.get('PORT', 8080))`: the default is already an integer, a set value is parsed. */
  function Port(env: Env): Result<int, StartError> {
    if "PORT" !in env then Ok(DefaultPort)
    else match PyInt.ParseInt(env["PORT"])
      case None => Err(InvalidPort(env["PORT"]))
      case Some(p) => Ok(p)
  }

  /**
   * `main`. The port is resolved before the service type is looked at, so
   * a PORT that is not an integer stops the voice agent from starting too.
   */
  function Main(env: Env): Result<Service, StartError> {
    var serviceType := ServiceType(env);
    match Port(env)
    case Err(e) => Err(e)
    case Ok(port) =>
      if serviceType == "frontend" then Ok(FrontendServer(port))
      else if serviceType == "voice_agent" then Ok(VoiceAgent)
      else Ok(FrontendServer(port))
  }

  /** With neither variable set the frontend serves on 8080. */
  lemma Defaults(env: Env)
    requires "RAILWAY_SERVICE_TYPE" !in env && "PORT" !in env
    ensures Main(env) == Ok(FrontendServer(8080))
  {
  }

  /** A PORT written as `str` writes integers is that port. */
  lemma PortFromText(env: Env, p: int)
    requires "PORT" in env && env["PORT"] == PyInt.Show(p)
    ensures Port(env) == Ok(p)
  {
    PyInt.ParseShow(p);
  }

  /** Whenever the port resolves, the voice agent starts iff the type is exactly `voice_agent`; every other value, unset included, serves the frontend on that port. */
  lemma OneService(env: Env)
    requires Port(env).Ok?
    ensures Main(env).Ok?
    ensures Main(env).value.VoiceAgent? <==> ServiceType(env) == "voice_agent"
    ensures Main(env).value.FrontendServer? ==> Main(env).value.port == Port(env).value
  {
  }

  /** An unknown service type falls back to the frontend rather than failing. */
  lemma UnknownTypeServesFrontend(env: Env, p: int)
    requires "RAILWAY_SERVICE_TYPE" in env && env["RAILWAY_SERVICE_TYPE"] !in {"frontend", "voice_agent"}
    requires "PORT" in env && env["PORT"] == PyInt.Show(p)
    ensures Main(env) == Ok(FrontendServer(p))
  {
    PortFromText(env, p);
  }

  /** The voice agent ignores the port's value, but not its validity. */
  lemma VoiceAgentNeedsValidPort(env: Env)
    requires ServiceType(env) == "voice_agent"
    ensures Main(env) == (if Port(env).Ok? then Ok(VoiceAgent) else Err(InvalidPort(env["PORT"])))
  {
  }
}
