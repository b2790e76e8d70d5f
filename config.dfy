/**
 * Resolution of the service configuration from the process environment: the
 * password is required, every other setting falls back to a default.
 */
module ConfigResolver {
  import opened Wrappers
  import opened Num

  /** An IP address: four octets (version 4) or eight 16-bit segments (version 6). */
  type Octets = s: seq<u8> | |s| == 4 witness [0, 0, 0, 0]
  type Segments = s: seq<u16> | |s| == 8 witness [0, 0, 0, 0, 0, 0, 0, 0]
  datatype IpAddr = V4(octets: Octets) | V6(segments: Segments)

  /** The environment: the variables that are set, with their values. */
  type Environment = map<string, string>

  const HOST_VAR: string := "QBITTORRENT_HOST"
  const USERNAME_VAR: string := "QBITTORRENT_USERNAME"
  const PASSWORD_VAR: string := "QBITTORRENT_PASSWORD"
  const PORT_VAR: string := "PORT"
  const ADDRESS_VAR: string := "ADDRESS"

  const DEFAULT_HOST: string := "http://localhost:8080"
  const DEFAULT_USERNAME: string := "admin"
  const DEFAULT_PORT_STR: string := "9000"
  const DEFAULT_PORT: u16 := 9000
  const DEFAULT_ADDRESS_STR: string := "0.0.0.0"
  const DEFAULT_ADDRESS: IpAddr := V4([0, 0, 0, 0])

  datatype Config = Config(host: string, username: string, password: string, port: u16, address: IpAddr)

  /** The one fatal configuration error. */
  datatype ConfigError = PasswordNotProvided

  /** The value of `variable` if it is set, otherwise `fallback`. */
  function EnvOrDefault(env: Environment, variable: string, fallback: string): (value: string)
    ensures variable in env ==> value == env[variable]
    ensures variable !in env ==> value == fallback
  {
    if variable in env then env[variable] else fallback
  }

  /** A port text the resolver accepts as it is: it parses as a u16 and is not zero. */
  predicate AcceptedPort(text: string) {
    var m := Magnitude(text);
    |m| > 0 && AllDigits(m) && 0 < DecimalValue(m) <= U16_MAX
  }

  /** The default port text denotes the default port. */
  lemma DefaultPortTextParses()
    ensures ParseU16(DEFAULT_PORT_STR) == Ok(DEFAULT_PORT)
  {
    assert FormatDecimal(9000) == DEFAULT_PORT_STR;
    ParseFormatRoundTrip(DEFAULT_PORT);
  }

  /** The listen port: PORT when it parses as a nonzero u16, otherwise 9000. */
  function ResolvePort(env: Environment): (port: u16)
    ensures 1 <= port
    ensures PORT_VAR in env && AcceptedPort(env[PORT_VAR]) ==>
      port as int == DecimalValue(Magnitude(env[PORT_VAR]))
    ensures !(PORT_VAR in env && AcceptedPort(env[PORT_VAR])) ==> port == DEFAULT_PORT
  {
    DefaultPortTextParses();
    match ParseU16(EnvOrDefault(env, PORT_VAR, DEFAULT_PORT_STR))
    case Ok(value) => if value > 0 then value else DEFAULT_PORT
    case Err(_) => DEFAULT_PORT
  }

  /**
   * The bind address: the text of ADDRESS (or "0.0.0.0" when unset) read by the IP
   * literal parser `parseIp`, and 0.0.0.0 when that parser rejects it.
   */
  function ResolveAddress(env: Environment, parseIp: string -> Option<IpAddr>): (address: IpAddr)
    ensures ADDRESS_VAR in env && parseIp(env[ADDRESS_VAR]).Some? ==>
      address == parseIp(env[ADDRESS_VAR]).value
    ensures ADDRESS_VAR in env && parseIp(env[ADDRESS_VAR]).None? ==> address == DEFAULT_ADDRESS
    ensures ADDRESS_VAR !in env && parseIp(DEFAULT_ADDRESS_STR) == Some(DEFAULT_ADDRESS) ==>
      address == DEFAULT_ADDRESS
  {
    match parseIp(EnvOrDefault(env, ADDRESS_VAR, DEFAULT_ADDRESS_STR))
    case Some(value) => value
    case None => DEFAULT_ADDRESS
  }

  /** `Config::from_env`: fails exactly when the password is not set. */
  function FromEnv(env: Environment, parseIp: string -> Option<IpAddr>): (r: Result<Config, ConfigError>)
    ensures r.Err? <==> PASSWORD_VAR !in env
    ensures r.Err? ==> r.error == PasswordNotProvided
    ensures r.Ok? ==> r.value.password == env[PASSWORD_VAR]
    ensures r.Ok? ==> r.value.host == (if HOST_VAR in env then env[HOST_VAR] else DEFAULT_HOST)
    ensures r.Ok? ==> r.value.username == (if USERNAME_VAR in env then env[USERNAME_VAR] else DEFAULT_USERNAME)
    ensures r.Ok? ==> 1 <= r.value.port && r.value.port == ResolvePort(env)
    ensures r.Ok? ==> r.value.address == ResolveAddress(env, parseIp)
  {
    var host := EnvOrDefault(env, HOST_VAR, DEFAULT_HOST);
    var username := EnvOrDefault(env, USERNAME_VAR, DEFAULT_USERNAME);
    if PASSWORD_VAR !in env then Err(PasswordNotProvided)
    else
      var password := env[PASSWORD_VAR];
      Ok(Config(host, username, password, ResolvePort(env), ResolveAddress(env, parseIp)))
  }

  /** An empty password is stored as given: only an unset one is rejected. */
  lemma EmptyPasswordAccepted(env: Environment, parseIp: string -> Option<IpAddr>)
    requires PASSWORD_VAR in env && env[PASSWORD_VAR] == ""
    ensures FromEnv(env, parseIp).Ok? && FromEnv(env, parseIp).value.password == ""
  {
  }

  /** A zero port, written with any number of zeros, falls back to 9000. */
  lemma ZeroPortFallsBack(env: Environment, zeros: nat)
    requires PORT_VAR in env && env[PORT_VAR] == seq(zeros + 1, _ => '0')
    ensures ResolvePort(env) == DEFAULT_PORT
  {
    ZerosValue(zeros + 1);
    assert Magnitude(env[PORT_VAR]) == env[PORT_VAR];
  }

  /** From the same five variables the same configuration results, whatever else is set. */
  lemma FromEnvReadsOnlyItsVariables(env: Environment, env': Environment, parseIp: string -> Option<IpAddr>)
    requires forall v :: v in {HOST_VAR, USERNAME_VAR, PASSWORD_VAR, PORT_VAR, ADDRESS_VAR} ==>
      (v in env <==> v in env') && (v in env ==> env[v] == env'[v])
    ensures FromEnv(env, parseIp) == FromEnv(env', parseIp)
  {
  }
}
