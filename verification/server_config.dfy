/** The server configuration read once from the process environment at
    start-up: the listening port, the allow-all flag and the CORS mode built
    from the frontend origins. */
module ServerConfig {
  import opened JsValues
  import opened CorsPolicy

  /** The environment variables the core reads; `None` is an unset variable.
      `MONGO_URI` only feeds the database connection, which is not modelled. */
  datatype Env = Env(
    port: Option<string>,
    allowAllOrigins: Option<string>,
    frontendOrigin: Option<string>,
    frontendProdOrigin: Option<string>)

  const DefaultPort: int := 5000

  /** `process.env.PORT || 5000` is either the PORT string, untouched, or the
      number 5000. */
  datatype Port = EnvPort(text: string) | NumericPort(number: int)

  /** Configuration as it stands once start-up has read the environment. */
  datatype Config = Config(port: Port, mode: Mode)

  /** `process.env.PORT || 5000`: the default applies exactly when PORT is
      unset or empty; otherwise the string is kept verbatim, with no parsing. */
  function ResolvePort(v: Option<string>): (p: Port)
    ensures p.NumericPort? <==> v == None || v == Some("")
    ensures p.NumericPort? ==> p.number == DefaultPort
    ensures p.EnvPort? ==> v == Some(p.text) && p.text != ""
  {
    if Truthy(v) then EnvPort(v.value) else NumericPort(DefaultPort)
  }

  /** `s` is "true" in any mix of upper- and lower-case ASCII letters. */
  predicate SpellsTrue(s: string) {
    && |s| == 4
    && (s[0] == 't' || s[0] == 'T')
    && (s[1] == 'r' || s[1] == 'R')
    && (s[2] == 'u' || s[2] == 'U')
    && (s[3] == 'e' || s[3] == 'E')
  }

  /** Lower-casing gives "true" exactly for the four letters t, r, u, e, each
      in either case: no trimming, no other spelling. */
  lemma AsciiLowerIsTrue(s: string)
    ensures AsciiLower(s) == "true" <==> SpellsTrue(s)
  {
    if |s| == 4 {
      var low := AsciiLower(s);
      assert low == "true" <==> low[0] == 't' && low[1] == 'r' && low[2] == 'u' && low[3] == 'e';
    }
  }

  /** `String(ALLOW_ALL_ORIGINS || '').toLowerCase() === 'true'`: the flag is
      set exactly when the variable is present and spells "true" ignoring
      ASCII case; unset, empty, padded or other truthy spellings leave it off. */
  function ParseAllowAll(v: Option<string>): (on: bool)
    ensures on <==> v.Some? && SpellsTrue(v.value)
  {
    AsciiLowerIsTrue(OrElse(v, ""));
    AsciiLower(OrElse(v, "")) == "true"
  }

  /** The spellings the flag accepts and refuses. */
  lemma ParseAllowAllExamples()
    ensures ParseAllowAll(Some("true")) && ParseAllowAll(Some("TRUE")) && ParseAllowAll(Some("True"))
    ensures !ParseAllowAll(None) && !ParseAllowAll(Some("")) && !ParseAllowAll(Some(" true"))
    ensures !ParseAllowAll(Some("1")) && !ParseAllowAll(Some("yes"))
  {
  }

  /** Start-up: resolve the port, read the allow-all flag and install the CORS
      mode it selects. */
  function LoadConfig(env: Env): (c: Config)
    ensures c.port.NumericPort? <==> !Truthy(env.port)
    ensures c.port.NumericPort? ==> c.port.number == DefaultPort
    ensures c.port.EnvPort? ==> env.port == Some(c.port.text)
    ensures c.mode.AllowAll? <==> env.allowAllOrigins.Some? && SpellsTrue(env.allowAllOrigins.value)
    ensures c.mode.Allowlist? ==> c.mode.credentials
    ensures c.mode.Allowlist? ==> c.mode.origins == BuildAllowlist(env.frontendOrigin, env.frontendProdOrigin)
  {
    Config(
      ResolvePort(env.port),
      SelectMode(ParseAllowAll(env.allowAllOrigins), env.frontendOrigin, env.frontendProdOrigin))
  }

  /** In allow-all mode the frontend origins are never consulted: every origin,
      present or absent, is admitted, and changing the configured origins
      changes nothing about the installed mode. */
  lemma AllowAllIgnoresAllowlist(env: Env, dev: Option<string>, prod: Option<string>, origin: Option<string>)
    requires env.allowAllOrigins.Some? && SpellsTrue(env.allowAllOrigins.value)
    ensures Admit(LoadConfig(env).mode, origin) == Allow
    ensures LoadConfig(env.(frontendOrigin := dev, frontendProdOrigin := prod)).mode == LoadConfig(env).mode
    ensures !Credentials(LoadConfig(env).mode)
  {
  }

  /** With allow-all off, a non-empty origin is admitted exactly when it equals
      one of the two configured frontend origins. */
  lemma AllowlistAdmitsConfiguredOrigins(env: Env, origin: string)
    requires !(env.allowAllOrigins.Some? && SpellsTrue(env.allowAllOrigins.value))
    requires origin != ""
    ensures Credentials(LoadConfig(env).mode)
    ensures Admit(LoadConfig(env).mode, Some(origin)) == Allow
            <==> env.frontendOrigin == Some(origin) || env.frontendProdOrigin == Some(origin)
    ensures Admit(LoadConfig(env).mode, Some(origin)) != Allow
            ==> Admit(LoadConfig(env).mode, Some(origin)) == Reject(RejectMessage)
  {
    var origins := LoadConfig(env).mode.origins;
    assert origin in origins <==> env.frontendOrigin == Some(origin) || env.frontendProdOrigin == Some(origin);
  }

  /** A development and a production origin configured, allow-all off: the
      development origin is admitted, a foreign one refused, a request without
      an origin admitted; with PORT unset the server listens on 5000. */
  lemma ConfiguredScenario()
    ensures
      var env := Env(None, None, Some("http://localhost:3000"), Some("https://app.example.com"));
      var c := LoadConfig(env);
      && c.port == NumericPort(5000)
      && c.mode == Allowlist(["http://localhost:3000", "https://app.example.com"], true)
      && Admit(c.mode, Some("http://localhost:3000")) == Allow
      && Admit(c.mode, Some("http://evil.com")) == Reject("Not allowed by CORS")
      && Admit(c.mode, None) == Allow
  {
    var env := Env(None, None, Some("http://localhost:3000"), Some("https://app.example.com"));
    var c := LoadConfig(env);
    assert "http://evil.com" !in c.mode.origins;
  }
}
