/**
 * The login helpers: placeholder detection, the search for the first
 * selector that exists, the logged-in heuristic, the login flow and the
 * navigation to the configuration page. The page is an oracle (module
 * Browser); the settings the flow reads are inputs.
 */
module Auth {
  import opened Wrappers
  import opened Text
  import opened Browser
  import opened ConfigLoader
  import Settings
  import Analisis

  // ---------- placeholders ----------

  /** `_has_placeholder`: a string holding `{{` or `}}`. */
  predicate HasPlaceholder(v: Json) {
    v.JStr? && (Contains(v.s, "{{") || Contains(v.s, "}}"))
  }

  /** A value has a placeholder exactly when it is a string and `{{` or `}}` starts at one of its positions. */
  lemma HasPlaceholderAt(v: Json)
    ensures HasPlaceholder(v) <==> v.JStr? && exists i :: OccursAt(v.s, "{{", i) || OccursAt(v.s, "}}", i)
  {
    if v.JStr? {
      ContainsAt(v.s, "{{");
      ContainsAt(v.s, "}}");
    }
  }

  // ---------- selector candidates ----------

  /** `[c.strip() for c in candidates.split(",")]`. */
  function Pieces(candidates: string): seq<string> {
    var parts := Split(candidates, ',');
    seq(|parts|, i requires 0 <= i < |parts| => Strip(parts[i]))
  }

  /** Index of the first selector whose query finds an element; a query that raises counts as absent. */
  function FirstFound(sels: seq<string>, query: string -> Query): (r: Option<nat>)
    ensures r.Some? ==> r.value < |sels| && query(sels[r.value]) == Found
    ensures r.Some? ==> forall j :: 0 <= j < r.value ==> query(sels[j]) != Found
    ensures r.None? <==> forall j :: 0 <= j < |sels| ==> query(sels[j]) != Found
  {
    if sels == [] then None
    else if query(sels[0]) == Found then Some(0)
    else match FirstFound(sels[1..], query)
      case Some(k) => Some(k + 1)
      case None => None
  }

  /**
   * `_first_selector_that_exists`: nothing for an empty candidate list,
   * otherwise the first stripped candidate whose query finds an element.
   */
  function FirstSelectorThatExists(candidates: string, query: string -> Query): (r: Option<string>)
    ensures candidates == "" ==> r == None
    ensures r.Some? ==> exists i :: (0 <= i < |Pieces(candidates)| && Pieces(candidates)[i] == r.value &&
      query(r.value) == Found && forall j :: 0 <= j < i ==> query(Pieces(candidates)[j]) != Found)
    ensures r.None? <==> candidates == "" || forall x :: x in Pieces(candidates) ==> query(x) != Found
  {
    if candidates == "" then None
    else match FirstFound(Pieces(candidates), query)
      case Some(i) => Some(Pieces(candidates)[i])
      case None => None
  }

  /** A selector as the source writes one inside a candidate list: non-empty, no comma, no surrounding blanks. */
  predicate Clean(p: string) {
    p != [] && ',' !in p && !IsSpace(p[0]) && !IsSpace(p[|p| - 1])
  }

  /** Splitting `lead + ", ".join(parts)` on commas gives the parts, each after the first preceded by a blank. */
  lemma {:induction false} SplitCommaJoin(lead: string, parts: seq<string>)
    requires |parts| >= 1 && ',' !in lead
    requires forall i :: 0 <= i < |parts| ==> ',' !in parts[i]
    ensures |Split(lead + Join(parts, ", "), ',')| == |parts|
    ensures Split(lead + Join(parts, ", "), ',')[0] == lead + parts[0]
    ensures forall i :: 1 <= i < |parts| ==> Split(lead + Join(parts, ", "), ',')[i] == " " + parts[i]
    decreases |parts|
  {
    if |parts| == 1 {
      SplitNoSeparator(lead + parts[0], ',');
    } else {
      var rest := Join(parts[1..], ", ");
      assert lead + Join(parts, ", ") == (lead + parts[0]) + [','] + (" " + rest);
      SplitPrefix(lead + parts[0], " " + rest, ',');
      SplitCommaJoin(" ", parts[1..]);
      forall i | 1 <= i < |parts|
        ensures Split(lead + Join(parts, ", "), ',')[i] == " " + parts[i]
      {
        assert parts[1..][i - 1] == parts[i];
      }
    }
  }

  /** Stripping a clean selector, with or without one leading blank, gives it back. */
  lemma StripPadded(p: string)
    requires Clean(p)
    ensures Strip(p) == p && Strip(" " + p) == p
  {
    assert (" " + p)[1..] == p;
    assert TrimStart(p) == p;
    assert TrimStart(" " + p) == p;
    assert TrimEnd(p) == p;
  }

  /** Pieces that are clean selectors, all but the first preceded by one blank, strip back to the selectors. */
  lemma StripPaddedPieces(split: seq<string>, parts: seq<string>)
    requires |split| == |parts| >= 1 && forall i :: 0 <= i < |parts| ==> Clean(parts[i])
    requires split[0] == parts[0] && forall i :: 1 <= i < |parts| ==> split[i] == " " + parts[i]
    ensures forall i :: 0 <= i < |parts| ==> Strip(split[i]) == parts[i]
  {
    forall i | 0 <= i < |parts|
      ensures Strip(split[i]) == parts[i]
    {
      StripPadded(parts[i]);
      if i > 0 {
        assert split[i] == " " + parts[i];
      }
    }
  }

  /** The stripped pieces of a candidate list, one per comma-separated part. */
  lemma PiecesAreStrippedParts(candidates: string)
    ensures |Pieces(candidates)| == |Split(candidates, ',')|
    ensures forall i :: 0 <= i < |Pieces(candidates)| ==> Pieces(candidates)[i] == Strip(Split(candidates, ',')[i])
  {
  }

  /** Candidates written as `", ".join(parts)` of clean selectors are read back as exactly those selectors. */
  lemma PiecesOfJoin(parts: seq<string>)
    requires |parts| >= 1 && forall i :: 0 <= i < |parts| ==> Clean(parts[i])
    ensures Join(parts, ", ") != "" && Pieces(Join(parts, ", ")) == parts
  {
    var joined := Join(parts, ", ");
    var split := Split(joined, ',');
    assert |split| == |parts| && split[0] == parts[0] && forall i :: 1 <= i < |parts| ==> split[i] == " " + parts[i] by {
      assert "" + joined == joined;
      SplitCommaJoin("", parts);
    }
    assert joined != "" by {
      if joined == "" {
        assert false;
      }
    }
    StripPaddedPieces(split, parts);
    PiecesAreStrippedParts(joined);
  }

  /** So the search over such candidates is the search over the selectors themselves. */
  lemma FirstSelectorOfJoin(parts: seq<string>, query: string -> Query)
    requires |parts| >= 1 && forall i :: 0 <= i < |parts| ==> Clean(parts[i])
    ensures FirstSelectorThatExists(Join(parts, ", "), query) == FirstOf(parts, query)
  {
    PiecesOfJoin(parts);
  }

  // ---------- the logged-in heuristic ----------

  /** What `_looks_logged_in` sees: the page URL (`None` where reading it raises), the probe queries and the wait for the probe found. */
  datatype ProbeEnv = ProbeEnv(url: Option<string>, query: string -> Query, wait: Call)

  /** The generic probes (navbar, dashboard, configuration link), tried in this order. */
  const Probes: seq<string> := ["a[href='configuracion']", "a.nav-link.active", ".navbar", "header", ".dashboard", "[data-test='dashboard']"]

  /** The page has left the login page: its lower-cased URL lacks `/login`. */
  predicate LeftLoginPage(url: Option<string>) {
    url.Some? && !Contains(Lower(url.value), "/login")
  }

  /** The first of a list of selectors whose query finds an element. */
  function FirstOf(sels: seq<string>, query: string -> Query): Option<string> {
    match FirstFound(sels, query)
    case Some(i) => Some(sels[i])
    case None => None
  }

  /** The probe `_looks_logged_in` settles on. */
  function ProbeSelector(query: string -> Query): Option<string> {
    FirstOf(Probes, query)
  }

  /**
   * `_looks_logged_in`: true without probing once the URL lacks `/login`;
   * otherwise true only when a probe exists and the wait for it succeeds.
   * A wait that times out gives false; any other exception propagates.
   */
  function LooksLoggedIn(env: ProbeEnv): (r: Result<bool, Exc>)
    ensures LeftLoginPage(env.url) ==> r == Success(true)
    ensures r == Success(true) <==> LeftLoginPage(env.url) || (ProbeSelector(env.query).Some? && env.wait == Done)
    ensures r.Failure? <==> !LeftLoginPage(env.url) && ProbeSelector(env.query).Some? && env.wait == Raise(Other)
  {
    if LeftLoginPage(env.url) then Success(true)
    else if ProbeSelector(env.query).None? then Success(false)
    else match env.wait
      case Done => Success(true)
      case Raise(Timeout) => Success(false)
      case Raise(Other) => Failure(Other)
  }

  /** The probe chosen is what `_first_selector_that_exists` returns for `", ".join(probes)`. */
  lemma ProbeSelectorIsSearch(query: string -> Query)
    ensures ProbeSelector(query) == FirstSelectorThatExists(Join(Probes, ", "), query)
  {
    forall i | 0 <= i < |Probes|
      ensures Clean(Probes[i])
    {
    }
    FirstSelectorOfJoin(Probes, query);
  }

  // ---------- the login flow ----------

  /** `ensure_login`'s login URL check: a string, no placeholder, an `http://` or `https://` scheme. */
  predicate ValidLoginUrl(v: Json) {
    v.JStr? && !HasPlaceholder(v) && (StartsWith(v.s, "http://") || StartsWith(v.s, "https://"))
  }

  /** No brace character occurs in `s`. */
  predicate BraceFree(s: string) {
    forall j :: 0 <= j < |s| ==> s[j] != '{' && s[j] != '}'
  }

  /** Appending a brace-free tail to a valid URL keeps it valid. */
  lemma AppendKeepsValid(base: string, tail: string)
    requires ValidLoginUrl(JStr(base)) && BraceFree(tail)
    ensures ValidLoginUrl(JStr(base + tail))
  {
    var url := base + tail;
    HasPlaceholderAt(JStr(base));
    HasPlaceholderAt(JStr(url));
    forall i | 0 <= i <= |url| - 2
      ensures !OccursAt(url, "{{", i) && !OccursAt(url, "}}", i)
    {
      if i + 2 <= |base| {
        assert url[i..i + 2] == base[i..i + 2];
        assert !OccursAt(base, "{{", i) && !OccursAt(base, "}}", i);
      } else {
        assert url[i + 1] == tail[i + 1 - |base|];
        assert url[i..i + 2][1] == url[i + 1];
        assert "{{"[1] == '{' && "}}"[1] == '}';
      }
    }
    if StartsWith(base, "http://") {
      assert url[..7] == base[..7];
    } else {
      assert url[..8] == base[..8];
    }
  }

  /** A login URL derived from a valid base URL is valid: appending `/login` cannot create a placeholder. */
  lemma DerivedLoginUrlValid(c: Json)
    requires ValidLoginUrl(Settings.BaseUrl(c)) && !Settings.Stored(c, "urls", "login_url")
    ensures Settings.LoginUrl(c).Some? && ValidLoginUrl(Settings.LoginUrl(c).value)
  {
    var base := Settings.BaseUrl(c).s;
    assert Settings.LoginUrl(c) == Some(JStr(base + "/login"));
    AppendKeepsValid(base, "/login");
  }

  /** `force_relogin`: an explicit `force` argument overrides the setting. */
  function ForceRelogin(forceSetting: bool, force: Option<bool>): bool {
    if force.None? then forceSetting else force.value
  }

  /** The stored session state is handed to the new context exactly when the file exists and relogin is not forced. */
  predicate ReusesSession(storageExists: bool, forceSetting: bool, force: Option<bool>) {
    storageExists && !ForceRelogin(forceSetting, force)
  }

  /** The settings the login flow reads. `force_relogin` and `post_login_url` are not defined by the settings layer, so they are inputs. */
  datatype LoginSettings = LoginSettings(forceRelogin: bool, postLoginUrl: Json, loginUrl: Json)

  /**
   * The outcomes of the page calls of one login: the storage file check,
   * browser/context/page creation, the post-login shortcut (goto, settle,
   * heuristic), the login page and form, the submit candidates and click
   * (retried once on a timeout), the settle wait, the confirming heuristic
   * and saving the storage state.
   */
  datatype LoginEnv = LoginEnv(
    storageExists: bool,
    setup: Call,
    postGoto: Call, postSettle: Call, postProbe: ProbeEnv,
    loginGoto: Call, fillUser: Call, fillPassword: Call,
    submitQuery: string -> Query, submitClick: Call, submitRetry: Call,
    settle: Call,
    confirm: ProbeEnv,
    save: Call)

  /** How a session was obtained. */
  datatype Entry = AlreadyLoggedIn | LoggedIn

  /** A session, and whether its context was created from the stored state. */
  datatype Session = Session(storedState: bool, entry: Entry)

  datatype AuthError =
    | Crashed(exc: Exc)          // a browser exception propagated unchanged
    | InvalidLoginUrl            // "URL de login inválida"
    | NoSubmitButton             // "No se encontró el botón de submit"
    | NotConfirmed               // "Login no confirmado"
    | NoConfiguracionRoute       // "No se pudo navegar a Configuración"

  /** The submit button candidates, `"button[type='submit'], button.custom-button"`. */
  const SubmitSelectors: seq<string> := ["button[type='submit']", "button.custom-button"]

  function SubmitSelector(env: LoginEnv): Option<string> {
    FirstOf(SubmitSelectors, env.submitQuery)
  }

  /** The submit button chosen is what `_first_selector_that_exists` returns for the candidate string. */
  lemma SubmitSelectorIsSearch(env: LoginEnv)
    ensures SubmitSelector(env) == FirstSelectorThatExists(Join(SubmitSelectors, ", "), env.submitQuery)
  {
    assert Clean(SubmitSelectors[0]) && Clean(SubmitSelectors[1]);
    FirstSelectorOfJoin(SubmitSelectors, env.submitQuery);
  }

  /** The post-login URL already shows a logged-in page; every failure of this attempt is swallowed. */
  predicate SkipsLogin(s: LoginSettings, env: LoginEnv) {
    env.setup == Done && Settings.Truthy(s.postLoginUrl) && env.postGoto == Done && env.postSettle == Done &&
    LooksLoggedIn(env.postProbe) == Success(true)
  }

  /** The login form was opened and filled in. */
  predicate FillsForm(s: LoginSettings, env: LoginEnv) {
    env.setup == Done && !SkipsLogin(s, env) && ValidLoginUrl(s.loginUrl) &&
    env.loginGoto == Done && env.fillUser == Done && env.fillPassword == Done
  }

  /** The click on the submit button, retried once when the navigation wait times out. */
  function SubmitOutcome(env: LoginEnv): Call {
    if env.submitClick == Raise(Timeout) then env.submitRetry else env.submitClick
  }

  /** A settle wait that finished or timed out; the timeout is swallowed. */
  predicate SettleTolerated(c: Call) {
    c == Done || c == Raise(Timeout)
  }

  /** The form was submitted and the page settled (a settle timeout is tolerated). */
  predicate Submits(s: LoginSettings, env: LoginEnv) {
    FillsForm(s, env) && SubmitSelector(env).Some? && SubmitOutcome(env) == Done && SettleTolerated(env.settle)
  }

  /** Submitting the filled-in form, confirming the login and saving the state. */
  method SubmitAndConfirm(env: LoginEnv, stored: bool) returns (r: Result<Session, AuthError>, clicks: nat, screenshot: bool)
    ensures r == Failure(NoSubmitButton) <==> SubmitSelector(env).None?
    ensures clicks == 0 <==> SubmitSelector(env).None?
    ensures clicks == 2 <==> SubmitSelector(env).Some? && env.submitClick == Raise(Timeout)
    ensures clicks <= 2
    ensures r == Failure(NotConfirmed) <==>
      SubmitSelector(env).Some? && SubmitOutcome(env) == Done && SettleTolerated(env.settle) && LooksLoggedIn(env.confirm) == Success(false)
    ensures screenshot <==> r == Failure(NotConfirmed)
    ensures r.Success? <==>
      SubmitSelector(env).Some? && SubmitOutcome(env) == Done && SettleTolerated(env.settle) &&
      LooksLoggedIn(env.confirm) == Success(true) && env.save == Done
    ensures r.Success? ==> r.value == Session(stored, LoggedIn)
    ensures r.Failure? ==> r.error.Crashed? || r.error == NoSubmitButton || r.error == NotConfirmed
  {
    clicks, screenshot := 0, false;
    if SubmitSelector(env).None? {
      r := Failure(NoSubmitButton);
    } else {
      clicks := if env.submitClick == Raise(Timeout) then 2 else 1;
      var submitted := Analisis.Then(SubmitOutcome(env), if env.settle == Raise(Timeout) then Done else env.settle);
      if submitted.Raise? {
        r := Failure(Crashed(submitted.exc));
      } else {
        match LooksLoggedIn(env.confirm) {
          case Failure(e) =>
            r := Failure(Crashed(e));
          case Success(false) =>
            screenshot := true;
            r := Failure(NotConfirmed);
          case Success(true) =>
            r := if env.save == Done then Success(Session(stored, LoggedIn)) else Failure(Crashed(env.save.exc));
        }
      }
    }
  }

  /**
   * `ensure_login`: reuse the stored state unless relogin is forced, take
   * the post-login shortcut when it shows a logged-in page, otherwise check
   * the login URL, fill the form, submit, confirm, and save the state.
   * Besides the outcome it reports the submit clicks and whether a failure
   * screenshot was attempted.
   */
  method EnsureLogin(force: Option<bool>, s: LoginSettings, env: LoginEnv) returns (r: Result<Session, AuthError>, clicks: nat, screenshot: bool)
    ensures r.Success? ==> r.value.storedState == ReusesSession(env.storageExists, s.forceRelogin, force)
    ensures r.Success? && r.value.entry == AlreadyLoggedIn <==> SkipsLogin(s, env)
    ensures r == Failure(InvalidLoginUrl) <==> env.setup == Done && !SkipsLogin(s, env) && !ValidLoginUrl(s.loginUrl)
    ensures r == Failure(NoSubmitButton) <==> FillsForm(s, env) && SubmitSelector(env).None?
    ensures clicks == 0 <==> !(FillsForm(s, env) && SubmitSelector(env).Some?)
    ensures clicks == 2 <==> FillsForm(s, env) && SubmitSelector(env).Some? && env.submitClick == Raise(Timeout)
    ensures clicks <= 2
    ensures r == Failure(NotConfirmed) <==> Submits(s, env) && LooksLoggedIn(env.confirm) == Success(false)
    ensures screenshot <==> r == Failure(NotConfirmed)
    ensures r.Success? && r.value.entry == LoggedIn <==>
      (Submits(s, env) && LooksLoggedIn(env.confirm) == Success(true) && env.save == Done)
  {
    clicks, screenshot := 0, false;
    var stored := ReusesSession(env.storageExists, s.forceRelogin, force);
    if env.setup.Raise? {
      r := Failure(Crashed(env.setup.exc));
    } else if SkipsLogin(s, env) {
      r := Success(Session(stored, AlreadyLoggedIn));
    } else if !ValidLoginUrl(s.loginUrl) {
      r := Failure(InvalidLoginUrl);
    } else {
      var onForm := Analisis.Then(env.loginGoto, Analisis.Then(env.fillUser, env.fillPassword));
      if onForm.Raise? {
        r := Failure(Crashed(onForm.exc));
      } else {
        r, clicks, screenshot := SubmitAndConfirm(env, stored);
      }
    }
  }

  // ---------- navigation to the configuration page ----------

  /** What `go_to_configuracion` sees: the link attempt, the URL fallback, and the configured URL. */
  datatype ConfigNavEnv = ConfigNavEnv(nav: Analisis.NavEnv, url: Json)

  /** The link attempt succeeds: the link exists and neither its click nor the settle wait raises. */
  predicate LinkWorks(nav: Analisis.NavEnv) {
    nav.linkQuery == Found && nav.linkClick == Done && nav.linkSettle == Done
  }

  /**
   * `go_to_configuracion`: the link click first (any exception there is
   * swallowed), then the configured URL, whose failures propagate, and a
   * `RuntimeError` when no URL is configured.
   */
  function GoToConfiguracion(env: ConfigNavEnv): (r: Result<Analisis.Route, AuthError>)
    ensures r == Success(Analisis.ByLink) <==> LinkWorks(env.nav)
    ensures r == Success(Analisis.ByUrl) <==>
      !LinkWorks(env.nav) && Settings.Truthy(env.url) && env.nav.gotoUrl == Done && env.nav.gotoSettle == Done
    ensures r == Failure(NoConfiguracionRoute) <==> !LinkWorks(env.nav) && !Settings.Truthy(env.url)
    ensures r.Failure? ==> r.error.Crashed? || r.error == NoConfiguracionRoute
  {
    if LinkWorks(env.nav) then Success(Analisis.ByLink)
    else if !Settings.Truthy(env.url) then Failure(NoConfiguracionRoute)
    else match Analisis.Then(env.nav.gotoUrl, env.nav.gotoSettle)
      case Done => Success(Analisis.ByUrl)
      case Raise(e) => Failure(Crashed(e))
  }

  /** With a URL configured, reaching the configuration page behaves exactly like reaching the analysis page. */
  lemma ConfiguracionLikeAnalisis(env: ConfigNavEnv)
    requires Settings.Truthy(env.url)
    ensures GoToConfiguracion(env).Success? <==> Analisis.GoToAnalisis(env.nav).Success?
    ensures GoToConfiguracion(env).Success? ==> GoToConfiguracion(env).value == Analisis.GoToAnalisis(env.nav).value
    ensures GoToConfiguracion(env).Failure? ==>
      GoToConfiguracion(env).error == Crashed(Analisis.GoToAnalisis(env.nav).error.exc)
  {
  }
}
