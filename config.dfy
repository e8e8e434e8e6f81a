/** The settings of config.py: the secret key chosen from the environment,
    the database URL with its scheme rewrite and sqlite fallback, the upload
    limits, and the per-environment configurations. The environment is
    given as parameters (None for an unset variable). */
module Config {
  import opened Wrappers
  import opened PyText

  const LegacyScheme := "postgres://"
  const SqlAlchemyScheme := "postgresql://"

  /** `url.replace("postgres://", "postgresql://", 1)` when the URL starts
      with the legacy scheme; any other URL is kept. */
  function NormaliseDbUrl(url: string): (r: string)
    ensures StartsWith(url, LegacyScheme) ==> r == SqlAlchemyScheme + url[|LegacyScheme|..]
    ensures !StartsWith(url, LegacyScheme) ==> r == url
    ensures !StartsWith(r, LegacyScheme)
  {
    if StartsWith(url, LegacyScheme) then
      var r := SqlAlchemyScheme + url[|LegacyScheme|..];
      assert r[8] == 'q' && LegacyScheme[8] == ':';
      r
    else url
  }

  /** Rewriting twice is rewriting once. */
  lemma NormaliseIdempotent(url: string)
    ensures NormaliseDbUrl(NormaliseDbUrl(url)) == NormaliseDbUrl(url)
  {
  }

  /** A URL already in the SQLAlchemy scheme is left alone. */
  lemma NormaliseKeepsPostgresql(rest: string)
    ensures NormaliseDbUrl(SqlAlchemyScheme + rest) == SqlAlchemyScheme + rest
  {
    var u := SqlAlchemyScheme + rest;
    assert u[8] == 'q';
  }

  /** `os.path.join(dir, name)` for a relative `name`: an empty `dir`
      contributes nothing, and a separator is added only when `dir` does not
      already end in one. */
  function PathJoin(dir: string, name: string): string {
    if dir == [] then name
    else if dir[|dir| - 1] == '/' then dir + name
    else dir + "/" + name
  }

  /** SQLALCHEMY_DATABASE_URI: the (rewritten) DATABASE_URL when it is set
      and non-empty, otherwise the sqlite file next to the application. */
  function DatabaseUri(databaseUrl: Option<string>, baseDir: string): (r: string)
    ensures databaseUrl.GetOr("") != "" ==> r == NormaliseDbUrl(databaseUrl.value)
    ensures databaseUrl.GetOr("") == "" ==> r == "sqlite:///" + PathJoin(baseDir, "lung_disease.db")
    ensures r != ""
    ensures !StartsWith(r, LegacyScheme)
  {
    var url := if databaseUrl.Some? && databaseUrl.value != "" then NormaliseDbUrl(databaseUrl.value) else "";
    if url != "" then url
    else
      var r := "sqlite:///" + PathJoin(baseDir, "lung_disease.db");
      assert r[0] == 's';
      r
  }

  const DevSecretKey := "lung-ai-dev-key"

  /** SECRET_KEY: the environment's value when set and non-empty; otherwise
      an error under FLASK_ENV=production and the development key elsewhere. */
  function SecretKey(envKey: Option<string>, flaskEnv: Option<string>): (r: Result<string, string>)
    ensures r.Err? <==> envKey.GetOr("") == "" && flaskEnv == Some("production")
    ensures r.Ok? ==> r.value != ""
    ensures envKey.GetOr("") != "" ==> r == Ok(envKey.value)
    ensures r.Ok? && envKey.GetOr("") == "" ==> r.value == DevSecretKey
  {
    if envKey.Some? && envKey.value != "" then Ok(envKey.value)
    else if flaskEnv == Some("production") then Err("No SECRET_KEY set for production environment")
    else Ok(DevSecretKey)
  }

  /** MAX_CONTENT_LENGTH: 16 MB. */
  const MaxContentLength: nat := 16 * 1024 * 1024

  /** ALLOWED_EXTENSIONS. */
  const AllowedExtensions: set<string> := {"png", "jpg", "jpeg", "bmp", "webp"}

  /** IOT_ALERT_SPO2_THRESHOLD. */
  const IotAlertSpO2Threshold: int := 90

  /** The settings that differ between environments; None is a setting the
      class leaves at Flask's default. */
  datatype Settings = Settings(
    debug: bool,
    sessionCookieSecure: Option<bool>,
    rememberCookieSecure: Option<bool>,
    sessionCookieHttpOnly: Option<bool>)

  const Development := Settings(true, None, None, None)
  const Production := Settings(false, Some(true), Some(true), Some(true))

  /** The `config` map. */
  const ConfigMap: map<string, Settings> := map["development" := Development, "production" := Production, "default" := Development]

  /** `config[name]`: None is the KeyError of an unknown name. */
  function ConfigFor(name: string): (r: Option<Settings>)
    ensures r.Some? <==> name in {"development", "production", "default"}
    ensures r.Some? ==> (r.value.debug <==> name != "production")
    ensures name == "production" ==> r == Some(Production)
  {
    if name in ConfigMap then Some(ConfigMap[name]) else None
  }

  /** "default" is the development configuration, and only production turns
      debugging off and the secure, http-only cookie flags on. */
  lemma ConfigChoices()
    ensures ConfigFor("default") == ConfigFor("development")
    ensures ConfigFor("production").value.sessionCookieSecure == Some(true)
    ensures ConfigFor("production").value.rememberCookieSecure == Some(true)
    ensures ConfigFor("production").value.sessionCookieHttpOnly == Some(true)
    ensures !ConfigFor("production").value.debug && ConfigFor("development").value.debug
  {
  }
}
