/**
 * The settings layer: each setting is a `get` of a two-part key with a
 * default; the page URLs derive from the base URL; the shared folder falls
 * back to `<cwd>/data/shared`; the browser and analysis settings are also
 * offered as nested dictionaries.
 */
module Settings {
  import opened Wrappers
  import opened Text
  import opened ConfigLoader

  /** A setting read as `config.get("<section>.<name>", default)`. */
  datatype Key = Key(section: string, name: string, default: Json)

  predicate WellFormed(k: Key) {
    '.' !in k.section && '.' !in k.name
  }

  /** `c[section][name]` exists. */
  predicate Stored(c: Json, section: string, name: string) {
    c.JObject? && section in c.fields && c.fields[section].JObject? && name in c.fields[section].fields
  }

  /** The value of a setting in configuration `c`: the stored value, or the key's default. */
  function Prop(c: Json, k: Key): Json {
    if Stored(c, k.section, k.name) then c.fields[k.section].fields[k.name] else k.default
  }

  /** Every setting is what the loader's dotted `get` returns for its key. */
  lemma PropIsGet(c: Json, k: Key)
    requires WellFormed(k)
    ensures Prop(c, k) == GetOr(c, k.section + "." + k.name, k.default)
  {
    GetTwoLevels(c, k.section, k.name, k.default);
  }

  const Environment := Key("app", "environment", JStr("development"))
  const DefaultParametro := Key("analisis", "default_parametro", JStr("1"))
  const DefaultServicio := Key("analisis", "default_servicio", JStr("1"))
  const AllowedFileExtensions := Key("analisis", "allowed_file_extensions", JList([JStr(".xlsx"), JStr(".xls")]))
  const MaxFileSizeMb := Key("analisis", "max_file_size_mb", JInt(50))
  const WaitAfterUploadMs := Key("analisis", "wait_after_upload_ms", JInt(2000))
  const WaitAfterSubmitMs := Key("analisis", "wait_after_submit_ms", JInt(10000))
  const BrowserHeadless := Key("browser", "headless", JBool(false))
  const BrowserSlowMo := Key("browser", "slow_mo", JInt(100))
  const BrowserViewportWidth := Key("browser", "viewport_width", JInt(1280))
  const BrowserViewportHeight := Key("browser", "viewport_height", JInt(720))
  const BrowserTimeout := Key("browser", "timeout", JInt(30000))
  const MonitoringInterval := Key("monitoring", "check_interval_seconds", JInt(60))
  const MonitoringExtensions := Key("monitoring", "allowed_extensions", JList([JStr(".xlsx"), JStr(".xls"), JStr(".csv")]))
  const DeleteAfterProcessing := Key("monitoring", "delete_after_processing", JBool(false))
  const MoveProcessedFiles := Key("monitoring", "move_processed_files", JBool(true))
  const ProcessedFolder := Key("monitoring", "processed_folder", JStr("./data/processed"))
  const RetryDelayMs := Key("retry", "delay_between_attempts_ms", JInt(2000))

  // ---------- URLs ----------

  /** `config.get('urls.base_url')`, `None` when absent. */
  function BaseUrl(c: Json): Json {
    Prop(c, Key("urls", "base_url", JNull))
  }

  /** `str(v)` for a scalar; `None` stands for a list or dictionary, whose rendering is not modelled. */
  function Render(v: Json): (r: Option<string>)
    ensures v.JStr? ==> r == Some(v.s)
    ensures r.None? <==> v.JList? || v.JObject?
  {
    match v
    case JNull => Some("None")
    case JBool(b) => Some(if b then "True" else "False")
    case JInt(i) => Some(IntToString(i))
    case JStr(s) => Some(s)
    case _ => None
  }

  /** `home_url`: the stored value, or the base URL itself. */
  function HomeUrl(c: Json): Json {
    Prop(c, Key("urls", "home_url", BaseUrl(c)))
  }

  /** A page URL: the stored `urls.<name>`, or `f"{base_url}{path}"`. */
  function PageUrl(c: Json, name: string, path: string): (r: Option<Json>)
    ensures Stored(c, "urls", name) ==> r == Some(c.fields["urls"].fields[name])
    ensures !Stored(c, "urls", name) && BaseUrl(c).JStr? ==> r == Some(JStr(BaseUrl(c).s + path))
    ensures r.None? <==> !Stored(c, "urls", name) && (BaseUrl(c).JList? || BaseUrl(c).JObject?)
  {
    if Stored(c, "urls", name) then Some(c.fields["urls"].fields[name])
    else match Render(BaseUrl(c))
      case Some(b) => Some(JStr(b + path))
      case None => None
  }

  /** Whenever the base URL renders, a page URL is the loader's `get` of its key with the rendered default. */
  lemma PageUrlIsGet(c: Json, name: string, path: string)
    requires '.' !in name && Render(BaseUrl(c)).Some?
    ensures PageUrl(c, name, path) == Some(GetOr(c, "urls" + "." + name, JStr(Render(BaseUrl(c)).value + path)))
  {
    PropIsGet(c, Key("urls", name, JStr(Render(BaseUrl(c)).value + path)));
  }

  function LoginUrl(c: Json): Option<Json> { PageUrl(c, "login_url", "/login") }
  function AnalisisUrl(c: Json): Option<Json> { PageUrl(c, "analisis_url", "/iniciar-analisis") }
  function ConfiguracionUrl(c: Json): Option<Json> { PageUrl(c, "configuracion_url", "/configuracion") }

  /** With only a string base URL configured, every page URL is the base URL followed by the page's path. */
  lemma DerivedUrls(c: Json)
    requires BaseUrl(c).JStr?
    requires !Stored(c, "urls", "home_url") && !Stored(c, "urls", "login_url")
    requires !Stored(c, "urls", "analisis_url") && !Stored(c, "urls", "configuracion_url")
    ensures HomeUrl(c) == BaseUrl(c)
    ensures LoginUrl(c) == Some(JStr(BaseUrl(c).s + "/login"))
    ensures AnalisisUrl(c) == Some(JStr(BaseUrl(c).s + "/iniciar-analisis"))
    ensures ConfiguracionUrl(c) == Some(JStr(BaseUrl(c).s + "/configuracion"))
  {
  }

  /** After validation passed, every required setting is stored and is not `null`. */
  lemma RequiredSettingPresent(c: Json, k: Key)
    requires MissingFrom(c, RequiredKeys) == []
    requires WellFormed(k) && k.section + "." + k.name in RequiredKeys
    ensures Stored(c, k.section, k.name) && Prop(c, k) != JNull
  {
    var key := k.section + "." + k.name;
    assert key !in MissingFrom(c, RequiredKeys);
    PropIsGet(c, Key(k.section, k.name, JNull));
  }

  // ---------- folders ----------

  /** Python truthiness of a configuration value. */
  predicate Truthy(v: Json) {
    match v
    case JNull => false
    case JBool(b) => b
    case JInt(i) => i != 0
    case JStr(s) => s != ""
    case JList(items) => items != []
    case JObject(fields) => fields != map[]
  }

  /** `Path(x)` of something other than a string raises `TypeError`. */
  datatype SettingError = NotAPath

  /**
   * `shared_folder`: the configured path when it is truthy, else
   * `<cwd>/data/shared`; a truthy value that is not a string cannot be a path.
   */
  function SharedFolder(c: Json, cwd: string): (r: Result<string, SettingError>)
    ensures !Stored(c, "paths", "shared_folder") ==> r == Success(cwd + "/data/shared")
    ensures Stored(c, "paths", "shared_folder") && c.fields["paths"].fields["shared_folder"] == JStr("") ==>
      r == Success(cwd + "/data/shared")
    ensures Stored(c, "paths", "shared_folder") && c.fields["paths"].fields["shared_folder"].JStr? ==>
      r == Success(if c.fields["paths"].fields["shared_folder"].s == "" then cwd + "/data/shared"
                   else c.fields["paths"].fields["shared_folder"].s)
    ensures r.Failure? <==> (Stored(c, "paths", "shared_folder") && Truthy(c.fields["paths"].fields["shared_folder"]) &&
      !c.fields["paths"].fields["shared_folder"].JStr?)
  {
    var folder := Prop(c, Key("paths", "shared_folder", JNull));
    if !Truthy(folder) then Success(cwd + "/data/shared")
    else if folder.JStr? then Success(folder.s)
    else Failure(NotAPath)
  }

  // ---------- environment ----------

  /** `environment.lower() == 'production'`; `None` where `.lower()` raises on a non-string. */
  function IsProduction(c: Json): (r: Option<bool>)
    ensures r.Some? <==> Prop(c, Environment).JStr?
    ensures Prop(c, Environment) == JStr("production") ==> r == Some(true)
    ensures r == Some(true) <==> Prop(c, Environment).JStr? && Lower(Prop(c, Environment).s) == "production"
  {
    var e := Prop(c, Environment);
    if e.JStr? then Some(Lower(e.s) == "production") else None
  }

  /** `environment.lower() == 'development'`; `None` where `.lower()` raises on a non-string. */
  function IsDevelopment(c: Json): (r: Option<bool>)
    ensures r.Some? <==> Prop(c, Environment).JStr?
    ensures Prop(c, Environment) == JStr("development") ==> r == Some(true)
    ensures r == Some(true) <==> Prop(c, Environment).JStr? && Lower(Prop(c, Environment).s) == "development"
  {
    var e := Prop(c, Environment);
    if e.JStr? then Some(Lower(e.s) == "development") else None
  }

  /** The environment name is compared without regard to case: two spellings that lower-case alike get the same answers. */
  lemma EnvironmentIgnoresCase(c1: Json, c2: Json)
    requires Prop(c1, Environment).JStr? && Prop(c2, Environment).JStr?
    requires Lower(Prop(c1, Environment).s) == Lower(Prop(c2, Environment).s)
    ensures IsProduction(c1) == IsProduction(c2) && IsDevelopment(c1) == IsDevelopment(c2)
  {
  }

  /** `PRODUCTION` written in capitals still selects production. */
  lemma CapitalProduction(c: Json)
    requires Prop(c, Environment) == JStr("PRODUCTION")
    ensures IsProduction(c) == Some(true) && IsDevelopment(c) == Some(false)
  {
    assert Lower("PRODUCTION") == "production";
    assert Lower("PRODUCTION")[0] != "development"[0];
  }

  /** An environment is never both production and development. */
  lemma NeverBoth(c: Json)
    ensures !(IsProduction(c) == Some(true) && IsDevelopment(c) == Some(true))
  {
    assert "production"[0] != "development"[0];
  }

  /** Without an environment setting the application runs as development. */
  lemma DevelopmentByDefault(c: Json)
    requires !Stored(c, "app", "environment")
    ensures IsDevelopment(c) == Some(true) && IsProduction(c) == Some(false)
  {
    assert Lower("development") == "development";
    assert Lower("development") != "production" by {
      assert Lower("development")[0] == 'd';
    }
  }

  // ---------- grouped settings ----------

  /** `get_browser_config()`: headless, slow motion, the viewport pair and the timeout. */
  function BrowserConfig(c: Json): (r: Json)
    ensures r.JObject? && r.fields.Keys == {"headless", "slow_mo", "viewport", "timeout"}
    ensures Lookup(r, ["headless"]) == Some(Prop(c, BrowserHeadless))
    ensures Lookup(r, ["slow_mo"]) == Some(Prop(c, BrowserSlowMo))
    ensures Lookup(r, ["viewport", "width"]) == Some(Prop(c, BrowserViewportWidth))
    ensures Lookup(r, ["viewport", "height"]) == Some(Prop(c, BrowserViewportHeight))
    ensures Lookup(r, ["timeout"]) == Some(Prop(c, BrowserTimeout))
  {
    var viewport := JObject(map["width" := Prop(c, BrowserViewportWidth), "height" := Prop(c, BrowserViewportHeight)]);
    var r := JObject(map[
      "headless" := Prop(c, BrowserHeadless),
      "slow_mo" := Prop(c, BrowserSlowMo),
      "viewport" := viewport,
      "timeout" := Prop(c, BrowserTimeout)]);
    assert ["viewport", "width"][1..] == ["width"];
    assert ["viewport", "height"][1..] == ["height"];
    r
  }

  /** `get_analisis_config()`: the analysis defaults, with both waits under `wait_times`. */
  function AnalisisConfig(c: Json): (r: Json)
    ensures r.JObject? && r.fields.Keys == {"default_parametro", "default_servicio", "allowed_extensions", "max_file_size", "wait_times"}
    ensures Lookup(r, ["default_parametro"]) == Some(Prop(c, DefaultParametro))
    ensures Lookup(r, ["default_servicio"]) == Some(Prop(c, DefaultServicio))
    ensures Lookup(r, ["allowed_extensions"]) == Some(Prop(c, AllowedFileExtensions))
    ensures Lookup(r, ["max_file_size"]) == Some(Prop(c, MaxFileSizeMb))
    ensures Lookup(r, ["wait_times", "after_upload"]) == Some(Prop(c, WaitAfterUploadMs))
    ensures Lookup(r, ["wait_times", "after_submit"]) == Some(Prop(c, WaitAfterSubmitMs))
  {
    var waits := JObject(map["after_upload" := Prop(c, WaitAfterUploadMs), "after_submit" := Prop(c, WaitAfterSubmitMs)]);
    var r := JObject(map[
      "default_parametro" := Prop(c, DefaultParametro),
      "default_servicio" := Prop(c, DefaultServicio),
      "allowed_extensions" := Prop(c, AllowedFileExtensions),
      "max_file_size" := Prop(c, MaxFileSizeMb),
      "wait_times" := waits]);
    assert ["wait_times", "after_upload"][1..] == ["after_upload"];
    assert ["wait_times", "after_submit"][1..] == ["after_submit"];
    r
  }
}
