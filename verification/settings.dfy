/**
 * Configuration resolution: how the mail service turns its environment into
 * settings once, when it is constructed.
 */
module Settings {
  import opened Results
  import opened Text
  import opened Environment

  /** The resolved, immutable settings of the mail service. */
  datatype Config = Config(
    backend: string,       // lower-cased backend selector ("smtp", "console", or anything else)
    host: string,          // empty when no host variable is set
    port: nat,
    username: string,
    password: string,
    useTls: bool,          // STARTTLS after a plain connect
    useSsl: bool,          // connect over SSL from the start
    fromEmail: string,
    fromName: string,      // display name; may be empty
    frontendUrl: string,
    verifyUrl: string,     // base of e-mail verification links
    resetUrl: string       // base of password reset links
  )

  /** Construction fails only when the chosen port text is not a number (`int()` raises). */
  datatype ConfigError = BadPort(text: string)

  const BackendName := "EMAIL_BACKEND"
  const HostNames: seq<string> := ["SMTP_HOST", "SMTP_SERVER", "MAIL_SERVER"]
  const PortNames: seq<string> := ["SMTP_PORT", "MAIL_PORT"]
  const UsernameNames: seq<string> := ["SMTP_USERNAME", "MAIL_USERNAME"]
  const PasswordNames: seq<string> := ["SMTP_PASSWORD", "MAIL_PASSWORD"]
  const TlsNames: seq<string> := ["SMTP_USE_TLS", "MAIL_USE_TLS"]
  const SslNames: seq<string> := ["SMTP_USE_SSL", "MAIL_USE_SSL"]
  const FromEmailNames: seq<string> := ["FROM_EMAIL", "MAIL_DEFAULT_SENDER"]
  const FromNameName := "FROM_NAME"
  const FrontendUrlName := "FRONTEND_URL"
  const VerifyUrlName := "FRONTEND_VERIFY_URL"
  const ResetUrlName := "FRONTEND_RESET_URL"

  const DefaultBackend := "smtp"
  const DefaultPort := "587"
  const DefaultFromEmail := "noreply@reviewhub.com"
  const DefaultFromName := "ReviewHub"
  const DefaultFrontendUrl := "http://localhost:3000"
  const VerifyPath := "/verify-email"
  const ResetPath := "/reset-password"

  /** A boolean setting: the first non-empty candidate, lower-cased, must read exactly "true". */
  function Flag(env: Env, names: seq<string>, default: string): (b: bool)
    ensures b <==> SameIgnoringCase(FirstNonEmpty(env, names, default), "true")
  {
    LowerIsWordIff(FirstNonEmpty(env, names, default), "true");
    Lower(FirstNonEmpty(env, names, default)) == "true"
  }

  /** `int(text)` on the chosen port text. */
  function ParsePort(text: string): (r: Result<nat, ConfigError>)
    ensures r.Success? <==> IsDecimal(text)
    ensures r.Failure? ==> r.error == BadPort(text)
  {
    if IsDecimal(text) then Success(ParseDecimal(text)) else Failure(BadPort(text))
  }

  /** The numeral of any port number reads back as that number. */
  lemma PortRoundTrip(n: nat)
    ensures ParsePort(ShowDecimal(n)) == Success(n)
  {
    ParseShowDecimal(n);
  }

  /** The backend selector, lower-cased; an empty value is kept. */
  function SelectBackend(env: Env): string {
    Lower(GetenvOr(env, BackendName, DefaultBackend))
  }

  /** The port text: `SMTP_PORT` > `MAIL_PORT` > "587". */
  function PortText(env: Env): string {
    FirstNonEmpty(env, PortNames, DefaultPort)
  }

  /** The settings other than the port, exactly as the constructor reads them. */
  function Resolve(env: Env, port: nat): Config {
    var frontendUrl := GetenvOr(env, FrontendUrlName, DefaultFrontendUrl);
    Config(
      backend := SelectBackend(env),
      host := FirstNonEmpty(env, HostNames, ""),
      port := port,
      username := FirstNonEmpty(env, UsernameNames, ""),
      password := FirstNonEmpty(env, PasswordNames, ""),
      useTls := Flag(env, TlsNames, "true"),
      useSsl := Flag(env, SslNames, "false"),
      fromEmail := FirstNonEmpty(env, FromEmailNames, DefaultFromEmail),
      fromName := GetenvOr(env, FromNameName, DefaultFromName),
      frontendUrl := frontendUrl,
      verifyUrl := GetenvOr(env, VerifyUrlName, frontendUrl + VerifyPath),
      resetUrl := GetenvOr(env, ResetUrlName, frontendUrl + ResetPath))
  }

  /** Builds the settings from the environment; fails where `int()` would raise on the port. */
  function LoadConfig(env: Env): (r: Result<Config, ConfigError>)
    ensures r.Success? <==> IsDecimal(PortText(env))
    ensures r.Failure? ==> r.error == BadPort(PortText(env))
  {
    match ParsePort(PortText(env))
    case Failure(e) => Failure(e)
    case Success(port) => Success(Resolve(env, port))
  }

  /** A loaded configuration is the resolution of its environment at its port. */
  lemma Loaded(env: Env)
    requires LoadConfig(env).Success?
    ensures LoadConfig(env).value == Resolve(env, LoadConfig(env).value.port)
  {
  }

  /** Loading fails exactly when the port text chosen by `SMTP_PORT` > `MAIL_PORT` > "587" is not a numeral. */
  lemma LoadFailsOnlyOnPort(env: Env)
    ensures LoadConfig(env).Failure? <==>
              (IsSet(env, "SMTP_PORT") && !IsDecimal(env["SMTP_PORT"])) ||
              (!IsSet(env, "SMTP_PORT") && IsSet(env, "MAIL_PORT") && !IsDecimal(env["MAIL_PORT"]))
    ensures LoadConfig(env).Failure? ==> LoadConfig(env).error == BadPort(PortText(env))
  {
    PortChain(env);
  }

  /** The port text follows the `or` chain `SMTP_PORT` > `MAIL_PORT` > "587". */
  lemma PortChain(env: Env)
    ensures IsSet(env, "SMTP_PORT") ==> PortText(env) == env["SMTP_PORT"]
    ensures !IsSet(env, "SMTP_PORT") && IsSet(env, "MAIL_PORT") ==> PortText(env) == env["MAIL_PORT"]
    ensures !IsSet(env, "SMTP_PORT") && !IsSet(env, "MAIL_PORT") ==> PortText(env) == DefaultPort
  {
    FirstNonEmptyRule(env, PortNames, DefaultPort);
    assert PortNames[0] == "SMTP_PORT" && PortNames[1] == "MAIL_PORT";
  }

  /** With neither port variable set (or both empty) the port is 587. */
  lemma DefaultPortIs587(env: Env)
    requires !IsSet(env, "SMTP_PORT") && !IsSet(env, "MAIL_PORT")
    ensures LoadConfig(env).Success? && LoadConfig(env).value.port == 587
  {
    PortChain(env);
    assert ShowDecimal(587) == DefaultPort;
    PortRoundTrip(587);
  }

  /** Any decimal numeral in `SMTP_PORT`, leading zeros allowed, is read as the configured port. */
  lemma PortFromDigits(env: Env)
    requires "SMTP_PORT" in env && IsDecimal(env["SMTP_PORT"])
    ensures LoadConfig(env).Success? && LoadConfig(env).value.port == ParseDecimal(env["SMTP_PORT"])
  {
  }

  /** The shortest numeral of `n` in `SMTP_PORT` gives port `n`. */
  lemma PortFromEnvironment(env: Env, n: nat)
    requires "SMTP_PORT" in env && env["SMTP_PORT"] == ShowDecimal(n)
    ensures LoadConfig(env).Success? && LoadConfig(env).value.port == n
  {
    PortChain(env);
    PortRoundTrip(n);
  }

  /** Host precedence: `SMTP_HOST` > `SMTP_SERVER` > `MAIL_SERVER` > "", empty values skipped. */
  lemma HostPrecedence(env: Env)
    requires LoadConfig(env).Success?
    ensures var host := LoadConfig(env).value.host;
      && (IsSet(env, "SMTP_HOST") ==> host == env["SMTP_HOST"])
      && (!IsSet(env, "SMTP_HOST") && IsSet(env, "SMTP_SERVER") ==> host == env["SMTP_SERVER"])
      && (!IsSet(env, "SMTP_HOST") && !IsSet(env, "SMTP_SERVER") && IsSet(env, "MAIL_SERVER") ==>
            host == env["MAIL_SERVER"])
      && (!IsSet(env, "SMTP_HOST") && !IsSet(env, "SMTP_SERVER") && !IsSet(env, "MAIL_SERVER") ==>
            host == "")
  {
    Loaded(env);
    FirstNonEmptyRule(env, HostNames, "");
    assert HostNames[0] == "SMTP_HOST" && HostNames[1] == "SMTP_SERVER" && HostNames[2] == "MAIL_SERVER";
  }

  /** Credentials: `SMTP_*` wins over `MAIL_*`, an empty value falls through, and the last resort is "". */
  lemma CredentialPrecedence(env: Env)
    requires LoadConfig(env).Success?
    ensures var c := LoadConfig(env).value;
      && (IsSet(env, "SMTP_USERNAME") ==> c.username == env["SMTP_USERNAME"])
      && (!IsSet(env, "SMTP_USERNAME") && IsSet(env, "MAIL_USERNAME") ==> c.username == env["MAIL_USERNAME"])
      && (!IsSet(env, "SMTP_USERNAME") && !IsSet(env, "MAIL_USERNAME") ==> c.username == "")
      && (IsSet(env, "SMTP_PASSWORD") ==> c.password == env["SMTP_PASSWORD"])
      && (!IsSet(env, "SMTP_PASSWORD") && IsSet(env, "MAIL_PASSWORD") ==> c.password == env["MAIL_PASSWORD"])
      && (!IsSet(env, "SMTP_PASSWORD") && !IsSet(env, "MAIL_PASSWORD") ==> c.password == "")
  {
    Loaded(env);
    FirstNonEmptyRule(env, UsernameNames, "");
    FirstNonEmptyRule(env, PasswordNames, "");
    assert UsernameNames[0] == "SMTP_USERNAME" && UsernameNames[1] == "MAIL_USERNAME";
    assert PasswordNames[0] == "SMTP_PASSWORD" && PasswordNames[1] == "MAIL_PASSWORD";
  }

  /** Sender address: `FROM_EMAIL` > `MAIL_DEFAULT_SENDER` > "noreply@reviewhub.com". */
  lemma FromEmailPrecedence(env: Env)
    requires LoadConfig(env).Success?
    ensures var from := LoadConfig(env).value.fromEmail;
      && (IsSet(env, "FROM_EMAIL") ==> from == env["FROM_EMAIL"])
      && (!IsSet(env, "FROM_EMAIL") && IsSet(env, "MAIL_DEFAULT_SENDER") ==> from == env["MAIL_DEFAULT_SENDER"])
      && (!IsSet(env, "FROM_EMAIL") && !IsSet(env, "MAIL_DEFAULT_SENDER") ==> from == "noreply@reviewhub.com")
  {
    Loaded(env);
    FirstNonEmptyRule(env, FromEmailNames, DefaultFromEmail);
    assert FromEmailNames[0] == "FROM_EMAIL" && FromEmailNames[1] == "MAIL_DEFAULT_SENDER";
  }

  /**
   * STARTTLS is on exactly when the first non-empty of `SMTP_USE_TLS`, `MAIL_USE_TLS`
   * reads "true" in any letter case, and is on when neither is set.
   */
  lemma TlsFlagRule(env: Env)
    requires LoadConfig(env).Success?
    ensures var tls := LoadConfig(env).value.useTls;
      && (IsSet(env, "SMTP_USE_TLS") ==> (tls <==> SameIgnoringCase(env["SMTP_USE_TLS"], "true")))
      && (!IsSet(env, "SMTP_USE_TLS") && IsSet(env, "MAIL_USE_TLS") ==>
            (tls <==> SameIgnoringCase(env["MAIL_USE_TLS"], "true")))
      && (!IsSet(env, "SMTP_USE_TLS") && !IsSet(env, "MAIL_USE_TLS") ==> tls)
  {
    Loaded(env);
    FirstNonEmptyRule(env, TlsNames, "true");
    assert TlsNames[0] == "SMTP_USE_TLS" && TlsNames[1] == "MAIL_USE_TLS";
  }

  /**
   * SSL is on exactly when the first non-empty of `SMTP_USE_SSL`, `MAIL_USE_SSL`
   * reads "true" in any letter case, and is off when neither is set.
   */
  lemma SslFlagRule(env: Env)
    requires LoadConfig(env).Success?
    ensures var ssl := LoadConfig(env).value.useSsl;
      && (IsSet(env, "SMTP_USE_SSL") ==> (ssl <==> SameIgnoringCase(env["SMTP_USE_SSL"], "true")))
      && (!IsSet(env, "SMTP_USE_SSL") && IsSet(env, "MAIL_USE_SSL") ==>
            (ssl <==> SameIgnoringCase(env["MAIL_USE_SSL"], "true")))
      && (!IsSet(env, "SMTP_USE_SSL") && !IsSet(env, "MAIL_USE_SSL") ==> !ssl)
  {
    Loaded(env);
    FirstNonEmptyRule(env, SslNames, "false");
    assert SslNames[0] == "SMTP_USE_SSL" && SslNames[1] == "MAIL_USE_SSL";
    assert LowerChar('f') != LowerChar('t');
  }

  /**
   * The settings read with a getenv default keep an empty value; the default
   * replaces only an unset variable. The link bases default from the frontend URL.
   */
  lemma GetenvDefaults(env: Env)
    requires LoadConfig(env).Success?
    ensures var c := LoadConfig(env).value;
      && (FromNameName in env ==> c.fromName == env[FromNameName])
      && (FromNameName !in env ==> c.fromName == "ReviewHub")
      && (FrontendUrlName in env ==> c.frontendUrl == env[FrontendUrlName])
      && (FrontendUrlName !in env ==> c.frontendUrl == "http://localhost:3000")
      && (VerifyUrlName in env ==> c.verifyUrl == env[VerifyUrlName])
      && (VerifyUrlName !in env ==> c.verifyUrl == c.frontendUrl + "/verify-email")
      && (ResetUrlName in env ==> c.resetUrl == env[ResetUrlName])
      && (ResetUrlName !in env ==> c.resetUrl == c.frontendUrl + "/reset-password")
  {
  }

  /** The backend selector is lower-cased: any spelling of "console" selects the console backend. */
  lemma BackendSelector(env: Env)
    requires LoadConfig(env).Success?
    ensures var b := LoadConfig(env).value.backend;
      && (BackendName !in env ==> b == "smtp")
      && (BackendName in env ==> (b == "console" <==> SameIgnoringCase(env[BackendName], "console")))
      && (BackendName in env && env[BackendName] == "" ==> b == "")
  {
  }
}
