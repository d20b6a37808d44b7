/**
 * The automation of the "Iniciar análisis" page: navigate to the form,
 * choose the parameter and service options, attach the file through a
 * chain of three tactics, wait for the power-icon start button to be
 * enabled and press it. Every browser call is an oracle outcome.
 */
module Analisis {
  import opened Wrappers
  import opened Text
  import opened Browser

  // ---------- choosing a <select> option ----------

  /** One `<option>` as read from the page: `{value, label, disabled}` (`label` is the field `text` here, a reserved word in Dafny). */
  datatype SelectOption = SelectOption(value: string, text: string, disabled: bool)

  /** Why an option was chosen. */
  datatype Reason = NoOptions | ValueMatch | LabelMatch | FirstNonEmpty | OnlyEmptyOrDisabled

  /** The tag the source logs for each reason. */
  function ReasonTag(r: Reason): string {
    match r
    case NoOptions => "sin-opciones"
    case ValueMatch => "value-match"
    case LabelMatch => "label-match"
    case FirstNonEmpty => "first-nonempty"
    case OnlyEmptyOrDisabled => "solo-vacias/disabled"
  }

  /** The `(value, label, reason)` triple returned by the resolver. */
  datatype Choice = Choice(value: Option<string>, text: Option<string>, reason: Reason)

  /** Python truthiness of an optional preference: `None` and `""` both mean "no preference". */
  predicate Given(p: Option<string>) {
    p.Some? && p.value != ""
  }

  /** `o.get("label") or o["value"]`: the label, or the value when the label is empty. */
  function DisplayLabel(o: SelectOption): string {
    if o.text != "" then o.text else o.value
  }

  /** `s.casefold()`, modelled as ASCII lower-casing. */
  function CaseFold(s: string): string {
    Lower(s)
  }

  /** The three tests the resolver searches with, in priority order. */
  datatype Criterion = ValueIs(v: string) | LabelFolds(folded: string) | Usable

  predicate Meets(o: SelectOption, c: Criterion) {
    match c
    case ValueIs(v) => o.value == v
    case LabelFolds(f) => CaseFold(o.text) == f
    case Usable => !o.disabled && o.value != ""
  }

  /** The first index at or after `from` whose option meets `c`. */
  function FindFirst(options: seq<SelectOption>, c: Criterion, from: nat): (r: Option<nat>)
    requires from <= |options|
    ensures r.Some? ==> from <= r.value < |options| && Meets(options[r.value], c)
    ensures r.Some? ==> forall j :: from <= j < r.value ==> !Meets(options[j], c)
    ensures r.None? ==> forall j :: from <= j < |options| ==> !Meets(options[j], c)
    decreases |options| - from
  {
    if from == |options| then None
    else if Meets(options[from], c) then Some(from)
    else FindFirst(options, c, from + 1)
  }

  predicate HasMatch(options: seq<SelectOption>, c: Criterion) {
    exists i :: 0 <= i < |options| && Meets(options[i], c)
  }

  /** `options[k]` is the first option meeting `c`. */
  predicate FirstMatchAt(options: seq<SelectOption>, c: Criterion, k: nat) {
    k < |options| && Meets(options[k], c) && forall j :: 0 <= j < k ==> !Meets(options[j], c)
  }

  function Picked(o: SelectOption, reason: Reason): Choice {
    Choice(Some(o.value), Some(DisplayLabel(o)), reason)
  }

  /** The value test applies only to a given preference. */
  predicate ValueHit(options: seq<SelectOption>, preferred: Option<string>) {
    Given(preferred) && HasMatch(options, ValueIs(preferred.value))
  }

  /** The label test applies only to a given preference, compared case-insensitively. */
  predicate LabelHit(options: seq<SelectOption>, preferredLabel: Option<string>) {
    Given(preferredLabel) && HasMatch(options, LabelFolds(CaseFold(preferredLabel.value)))
  }

  /** `_choose_option`: value match, else case-insensitive label match, else the first usable option. */
  function ChooseOption(options: seq<SelectOption>, preferred: Option<string>, preferredLabel: Option<string>): (r: Choice)
    ensures r.reason == NoOptions <==> options == []
    ensures r.value.Some? <==> r.reason in {ValueMatch, LabelMatch, FirstNonEmpty}
    ensures r.value.Some? <==> r.text.Some?
    ensures r.value.Some? ==>
      exists i :: 0 <= i < |options| && r.value.value == options[i].value && r.text.value == DisplayLabel(options[i])
  {
    if options == [] then Choice(None, None, NoOptions)
    else
      var byValue := if Given(preferred) then FindFirst(options, ValueIs(preferred.value), 0) else None;
      if byValue.Some? then Picked(options[byValue.value], ValueMatch)
      else
        var byLabel := if Given(preferredLabel) then FindFirst(options, LabelFolds(CaseFold(preferredLabel.value)), 0) else None;
        if byLabel.Some? then Picked(options[byLabel.value], LabelMatch)
        else match FindFirst(options, Usable, 0)
          case Some(i) => Picked(options[i], FirstNonEmpty)
          case None => Choice(None, None, OnlyEmptyOrDisabled)
  }

  /** A given preferred value present among the options wins, whether or not that option is disabled. */
  lemma ValueMatchWins(options: seq<SelectOption>, preferred: Option<string>, preferredLabel: Option<string>, k: nat)
    requires Given(preferred) && FirstMatchAt(options, ValueIs(preferred.value), k)
    ensures ChooseOption(options, preferred, preferredLabel) == Picked(options[k], ValueMatch)
  {
    var r := FindFirst(options, ValueIs(preferred.value), 0);
    assert r.Some? by { assert Meets(options[k], ValueIs(preferred.value)); }
    assert r.value == k;
  }

  /** Without a value match, the first option whose label equals the preferred label, ignoring case, wins. */
  lemma LabelMatchSecond(options: seq<SelectOption>, preferred: Option<string>, preferredLabel: Option<string>, k: nat)
    requires !ValueHit(options, preferred)
    requires Given(preferredLabel) && FirstMatchAt(options, LabelFolds(CaseFold(preferredLabel.value)), k)
    ensures ChooseOption(options, preferred, preferredLabel) == Picked(options[k], LabelMatch)
  {
    var r := FindFirst(options, LabelFolds(CaseFold(preferredLabel.value)), 0);
    assert r.Some? by { assert Meets(options[k], LabelFolds(CaseFold(preferredLabel.value))); }
    assert r.value == k;
  }

  /** Without value or label match, the first enabled option with a non-empty value wins. */
  lemma FirstUsableThird(options: seq<SelectOption>, preferred: Option<string>, preferredLabel: Option<string>, k: nat)
    requires !ValueHit(options, preferred) && !LabelHit(options, preferredLabel)
    requires FirstMatchAt(options, Usable, k)
    ensures ChooseOption(options, preferred, preferredLabel) == Picked(options[k], FirstNonEmpty)
  {
    NoHitsFallThrough(options, preferred, preferredLabel);
    var r := FindFirst(options, Usable, 0);
    assert r.Some? by { assert Meets(options[k], Usable); }
    assert r.value == k;
  }

  /** Options that are all empty-valued or disabled, with no preference hit, yield no choice. */
  lemma NothingUsable(options: seq<SelectOption>, preferred: Option<string>, preferredLabel: Option<string>)
    requires options != []
    requires !ValueHit(options, preferred) && !LabelHit(options, preferredLabel)
    requires !HasMatch(options, Usable)
    ensures ChooseOption(options, preferred, preferredLabel) == Choice(None, None, OnlyEmptyOrDisabled)
  {
    NoHitsFallThrough(options, preferred, preferredLabel);
  }

  lemma NoHitsFallThrough(options: seq<SelectOption>, preferred: Option<string>, preferredLabel: Option<string>)
    requires !ValueHit(options, preferred) && !LabelHit(options, preferredLabel)
    ensures Given(preferred) ==> FindFirst(options, ValueIs(preferred.value), 0).None?
    ensures Given(preferredLabel) ==> FindFirst(options, LabelFolds(CaseFold(preferredLabel.value)), 0).None?
  {
  }

  /** The parameter control of the form: value "30" is "Escuchar Reclamos". */
  function ParameterOptions(): seq<SelectOption> {
    [SelectOption("10", "A", false), SelectOption("30", "Escuchar Reclamos", false)]
  }

  /** Preferring value "30" picks it by value. */
  lemma ExamplePreferredValue()
    ensures ChooseOption(ParameterOptions(), Some("30"), None) == Choice(Some("30"), Some("Escuchar Reclamos"), ValueMatch)
  {
    ValueMatchWins(ParameterOptions(), Some("30"), None, 1);
  }

  /** An absent value "99" falls back to the label, compared ignoring case. */
  lemma ExamplePreferredLabel()
    ensures ChooseOption(ParameterOptions(), Some("99"), Some("ESCUCHAR RECLAMOS")) == Choice(Some("30"), Some("Escuchar Reclamos"), LabelMatch)
  {
    ExampleLabelFacts();
    LabelMatchSecond(ParameterOptions(), Some("99"), Some("ESCUCHAR RECLAMOS"), 1);
  }

  lemma ExampleLabelFacts()
    ensures !ValueHit(ParameterOptions(), Some("99"))
    ensures FirstMatchAt(ParameterOptions(), LabelFolds(CaseFold("ESCUCHAR RECLAMOS")), 1)
  {
    ExampleNoValue();
    ExampleLabelFolds();
    var opts, f := ParameterOptions(), CaseFold("ESCUCHAR RECLAMOS");
    assert !Meets(opts[0], LabelFolds(f));
    assert Meets(opts[1], LabelFolds(f));
  }

  lemma ExampleNoValue()
    ensures !ValueHit(ParameterOptions(), Some("99"))
  {
  }

  lemma ExampleLabelFolds()
    ensures CaseFold("A") != CaseFold("ESCUCHAR RECLAMOS")
    ensures CaseFold("Escuchar Reclamos") == CaseFold("ESCUCHAR RECLAMOS")
  {
    FoldEqual("Escuchar Reclamos", "ESCUCHAR RECLAMOS");
  }

  /** Two strings that agree up to ASCII case fold to the same string. */
  lemma FoldEqual(s: string, t: string)
    requires |s| == |t| && forall i :: 0 <= i < |s| ==> LowerChar(s[i]) == LowerChar(t[i])
    ensures CaseFold(s) == CaseFold(t)
  {
  }

  /** With no preference hit, the empty-valued placeholder is skipped for the first usable option. */
  lemma ExampleFirstUsable()
    ensures ChooseOption([SelectOption("", "-", false), SelectOption("5", "X", false)], None, None)
         == Choice(Some("5"), Some("X"), FirstNonEmpty)
  {
    FirstUsableThird([SelectOption("", "-", false), SelectOption("5", "X", false)], None, None, 1);
  }

  // ---------- applying a choice to a <select> ----------

  /** What the automation can fail with. */
  datatype Fault =
    | Raised(exc: Exc)                                        // a browser exception propagated unchanged
    | NoValidOption(control: string)                          // "no se encontró una opción válida"
    | AttachExhausted(direct: Exc, viaLabel: Exc, viaChooser: Exc)  // all three attach tactics failed
    | StartStillDisabled                                      // the power button exists but is disabled
    | StartNotFound                                           // no suitable power button

  /** Only a browser `TimeoutError` is caught by the `except PWTimeoutError` clauses. */
  predicate IsTimeout(f: Fault) {
    f == Raised(Timeout)
  }

  /** The page as `_set_select_exact` sees it: the visibility wait, the options read, and the two ways of selecting. */
  datatype SelectEnv = SelectEnv(visible: Call, read: Call, options: seq<SelectOption>, byValue: Call, byLabel: Call)

  /** What was selected: the chosen value and label, the reason, and whether selecting by value failed so the label was used. */
  datatype Selection = Selection(value: string, text: string, reason: Reason, byLabel: bool)

  /** The options yield a choice with a non-empty value. */
  predicate Chosen(options: seq<SelectOption>, preferred: Option<string>, preferredLabel: Option<string>) {
    var c := ChooseOption(options, preferred, preferredLabel); c.value.Some? && c.value.value != ""
  }

  /** `_set_select_exact`: wait, read, choose; refuse a missing or empty choice; select by value, else by label. */
  function SetSelectExact(env: SelectEnv, preferred: Option<string>, preferredLabel: Option<string>, control: string): (r: Result<Selection, Fault>)
    ensures r.Success? ==> r.value.value != "" && HasMatch(env.options, ValueIs(r.value.value))
    ensures r == Failure(NoValidOption(control)) <==>
      env.visible.Done? && env.read.Done? && !Chosen(env.options, preferred, preferredLabel)
    ensures r.Success? && ValueHit(env.options, preferred) ==> r.value.value == preferred.value && r.value.reason == ValueMatch
    ensures r.Success? && r.value.byLabel ==> env.byValue.Raise? && env.byLabel.Done?
    ensures r.Success? ==> env.visible.Done? && env.read.Done?
    ensures r.Success? ==>
      var c := ChooseOption(env.options, preferred, preferredLabel);
      r.value.value == c.value.value && r.value.text == c.text.value && r.value.reason == c.reason
    ensures r.Success? <==>
      env.visible.Done? && env.read.Done? &&
      Chosen(env.options, preferred, preferredLabel) && (env.byValue.Done? || env.byLabel.Done?)
    ensures env.visible.Raise? ==> r == Failure(Raised(env.visible.exc))
    ensures env.visible.Done? && env.read.Raise? ==> r == Failure(Raised(env.read.exc))
    ensures (env.visible.Done? && env.read.Done? && Chosen(env.options, preferred, preferredLabel) &&
             env.byValue.Raise? && env.byLabel.Raise?) ==> r == Failure(Raised(env.byLabel.exc))
  {
    if env.visible.Raise? then Failure(Raised(env.visible.exc))
    else if env.read.Raise? then Failure(Raised(env.read.exc))
    else
      var c := ChooseOption(env.options, preferred, preferredLabel);
      if c.value.None? || c.value.value == "" then Failure(NoValidOption(control))
      else
        var sel := Selection(c.value.value, c.text.value, c.reason, env.byValue.Raise?);
        if env.byValue.Done? || env.byLabel.Done? then
          ChoiceFacts(env.options, preferred, preferredLabel);
          Success(sel)
        else Failure(Raised(env.byLabel.exc))
  }

  lemma ChoiceFacts(options: seq<SelectOption>, preferred: Option<string>, preferredLabel: Option<string>)
    ensures var c := ChooseOption(options, preferred, preferredLabel);
      c.value.Some? ==> HasMatch(options, ValueIs(c.value.value))
    ensures ValueHit(options, preferred) ==>
      ChooseOption(options, preferred, preferredLabel).value == Some(preferred.value) &&
      ChooseOption(options, preferred, preferredLabel).reason == ValueMatch
  {
    var c := ChooseOption(options, preferred, preferredLabel);
    if c.value.Some? {
      var i :| 0 <= i < |options| && c.value.value == options[i].value && c.text.value == DisplayLabel(options[i]);
      assert Meets(options[i], ValueIs(c.value.value));
    }
  }

  // ---------- attaching the file ----------

  /** Tactic 1: wait for the file input to be attached, then set the file on it. */
  datatype DirectEnv = DirectEnv(waitAttached: Call, setFiles: Call)

  /** Tactic 2: click the styled label if there is one, wait (4 s) for the input, set the file. */
  datatype LabelEnv = LabelEnv(labelQuery: Query, labelClick: Call, waitAttached: Call, setFiles: Call)

  /**
   * Tactic 3: inside `expect_file_chooser` (4 s), click the label, or else the
   * input if there is one; then take the intercepted chooser and set the file on it.
   */
  datatype ChooserEnv = ChooserEnv(labelQuery: Query, labelClick: Call, inputQuery: Query, inputClick: Call, chooser: Call, setFiles: Call)

  /** One evaluation of the `#file-name` display: a string, something else, or an exception. */
  datatype Reading = Shown(s: string) | NotText | ReadRaise

  /** Everything `_attach_file_robusto` asks the page; `reading(k)` is the k-th poll of the file-name display. */
  datatype AttachEnv = AttachEnv(direct: DirectEnv, viaLabel: LabelEnv, viaChooser: ChooserEnv, nameQuery: Query, reading: nat -> Reading)

  datatype Tactic = Direct | ViaLabel | ViaChooser

  /** The tactics in the order they are tried. */
  const TacticOrder: seq<Tactic> := [Direct, ViaLabel, ViaChooser]

  /** Run `b` only if `a` did not raise. */
  function Then(a: Call, b: Call): (r: Call)
    ensures r.Done? <==> a.Done? && b.Done?
  {
    if a.Raise? then a else b
  }

  function QueryCall(q: Query): Call {
    if q.QueryRaise? then Raise(q.exc) else Done
  }

  function DirectOutcome(d: DirectEnv): Call {
    Then(d.waitAttached, d.setFiles)
  }

  function LabelOutcome(l: LabelEnv): Call {
    var click := if l.labelQuery == Found then l.labelClick else QueryCall(l.labelQuery);
    Then(click, Then(l.waitAttached, l.setFiles))
  }

  function ChooserOutcome(c: ChooserEnv): Call {
    var trigger :=
      match c.labelQuery
      case Found => c.labelClick
      case QueryRaise(e) => Raise(e)
      case Absent => if c.inputQuery == Found then c.inputClick else QueryCall(c.inputQuery);
    Then(trigger, Then(c.chooser, c.setFiles))
  }

  function TacticOutcome(env: AttachEnv, t: Tactic): Call {
    match t
    case Direct => DirectOutcome(env.direct)
    case ViaLabel => LabelOutcome(env.viaLabel)
    case ViaChooser => ChooserOutcome(env.viaChooser)
  }

  predicate SomeTacticWorks(env: AttachEnv) {
    TacticOutcome(env, Direct).Done? || TacticOutcome(env, ViaLabel).Done? || TacticOutcome(env, ViaChooser).Done?
  }

  /** A poll of the display that neither confirms the file name nor raises, so polling goes on. */
  predicate KeepsPolling(r: Reading, fileName: string) {
    match r
    case Shown(s) => !Contains(s, fileName)
    case NotText => true
    case ReadRaise => false
  }

  /**
   * `_attach_file_robusto`: the three tactics in order, each only after the
   * previous one failed; all three failing gives one error carrying the three
   * causes. After an attach, the file-name display is polled at most 8 times,
   * stopping at the first poll that shows the name; polling never fails the attach.
   */
  method AttachFile(fileName: string, env: AttachEnv) returns (r: Result<Tactic, Fault>, tried: seq<Tactic>, polls: nat)
    ensures 1 <= |tried| <= 3 && tried == TacticOrder[..|tried|]
    ensures forall k :: 0 <= k < |tried| - 1 ==> TacticOutcome(env, tried[k]).Raise?
    ensures r.Success? <==> SomeTacticWorks(env)
    ensures r.Success? ==> r.value == tried[|tried| - 1] && TacticOutcome(env, r.value).Done?
    ensures r.Failure? ==> |tried| == 3 && r.error == AttachExhausted(
      TacticOutcome(env, Direct).exc, TacticOutcome(env, ViaLabel).exc, TacticOutcome(env, ViaChooser).exc)
    ensures polls <= 8
    ensures polls > 0 <==> r.Success? && env.nameQuery == Found
    ensures forall k :: 0 <= k < polls - 1 ==> KeepsPolling(env.reading(k), fileName)
    ensures 0 < polls < 8 ==> !KeepsPolling(env.reading(polls - 1), fileName)
  {
    polls := 0;
    var e1 := DirectOutcome(env.direct);
    tried := [Direct];
    if e1.Done? {
      r := Success(Direct);
    } else {
      var e2 := LabelOutcome(env.viaLabel);
      tried := tried + [ViaLabel];
      if e2.Done? {
        r := Success(ViaLabel);
      } else {
        var e3 := ChooserOutcome(env.viaChooser);
        tried := tried + [ViaChooser];
        if e3.Done? {
          r := Success(ViaChooser);
        } else {
          r := Failure(AttachExhausted(e1.exc, e2.exc, e3.exc));
          return;
        }
      }
    }
    // Best-effort confirmation: any exception here is swallowed.
    if env.nameQuery == Found {
      while polls < 8
        invariant polls <= 8
        invariant forall k :: 0 <= k < polls ==> KeepsPolling(env.reading(k), fileName)
      {
        var reading := env.reading(polls);
        polls := polls + 1;
        if !KeepsPolling(reading, fileName) {
          break;
        }
      }
    }
  }

  // ---------- pressing the start button ----------

  /** The timeout of the enable wait: `max(800, min(wait_after_upload_ms, 4000))`. */
  function EnableWaitMs(waitAfterUploadMs: int): (t: int)
    ensures 800 <= t <= 4000
    ensures 800 <= waitAfterUploadMs <= 4000 ==> t == waitAfterUploadMs
    ensures waitAfterUploadMs < 800 ==> t == 800
    ensures waitAfterUploadMs > 4000 ==> t == 4000
  {
    if waitAfterUploadMs > 4000 then 4000 else if waitAfterUploadMs < 800 then 800 else waitAfterUploadMs
  }

  /** The timeout of the settle wait after the click: `max(1200, min(wait_after_submit_ms, 5000))`. */
  function SettleWaitMs(waitAfterSubmitMs: int): (t: int)
    ensures 1200 <= t <= 5000
    ensures 1200 <= waitAfterSubmitMs <= 5000 ==> t == waitAfterSubmitMs
    ensures waitAfterSubmitMs < 1200 ==> t == 1200
    ensures waitAfterSubmitMs > 5000 ==> t == 5000
  {
    if waitAfterSubmitMs > 5000 then 5000 else if waitAfterSubmitMs < 1200 then 1200 else waitAfterSubmitMs
  }

  /**
   * The page as `_click_iniciar` sees it: the active wait for an enabled
   * power button, the query for the enabled button, the query for any power
   * button and its `disabled` attribute, the click and its one retry, and
   * the settle wait.
   */
  datatype StartEnv = StartEnv(gate: Call, enabledQuery: Query, anyQuery: Query, disabledAttr: Query,
                               click: Call, retryClick: Call, settle: Call)

  /** The enable wait ends normally or by timeout (a timeout is tolerated). */
  predicate GateTolerated(env: StartEnv) {
    env.gate != Raise(Other)
  }

  /** Everything `_click_iniciar` needs to return normally: a tolerated gate, an enabled button, a click (or its retry after a timeout) and a tolerated settle. */
  predicate StartWorks(env: StartEnv) {
    GateTolerated(env) && env.enabledQuery == Found &&
    (env.click.Done? || (env.click == Raise(Timeout) && env.retryClick.Done?)) &&
    env.settle != Raise(Other)
  }

  /**
   * `_click_iniciar`: wait (bounded) for an enabled power button; without
   * one, fail with "still disabled" when a power button carrying a
   * `disabled` attribute exists and with "not found" otherwise, never
   * clicking; with one, click it, retrying once after a click timeout, then
   * wait for the page to settle, tolerating a timeout.
   */
  method ClickStart(env: StartEnv) returns (r: Result<(), Fault>, clicks: nat)
    ensures clicks <= 2
    ensures r == Failure(StartStillDisabled) <==>
      GateTolerated(env) && env.enabledQuery == Absent && env.anyQuery == Found && env.disabledAttr == Found
    ensures r == Failure(StartNotFound) <==>
      GateTolerated(env) && env.enabledQuery == Absent &&
      (env.anyQuery == Absent || (env.anyQuery == Found && env.disabledAttr == Absent))
    ensures env.enabledQuery != Found ==> clicks == 0
    ensures clicks == 2 <==> GateTolerated(env) && env.enabledQuery == Found && env.click == Raise(Timeout)
    ensures r.Success? <==> StartWorks(env)
  {
    clicks := 0;
    if !GateTolerated(env) {
      r := Failure(Raised(Other));
      return;
    }
    if env.enabledQuery.QueryRaise? {
      r := Failure(Raised(env.enabledQuery.exc));
      return;
    }
    if env.enabledQuery == Absent {
      match env.anyQuery {
        case QueryRaise(e) =>
          r := Failure(Raised(e));
        case Absent =>
          r := Failure(StartNotFound);
        case Found =>
          match env.disabledAttr {
            case QueryRaise(e) => r := Failure(Raised(e));
            case Found => r := Failure(StartStillDisabled);
            case Absent => r := Failure(StartNotFound);
          }
      }
      return;
    }
    clicks := 1;
    if env.click == Raise(Timeout) {
      clicks := 2;
      if env.retryClick.Raise? {
        r := Failure(Raised(env.retryClick.exc));
        return;
      }
    } else if env.click.Raise? {
      r := Failure(Raised(env.click.exc));
      return;
    }
    if env.settle == Raise(Other) {
      r := Failure(Raised(Other));
      return;
    }
    r := Success(());
  }

  // ---------- navigation ----------

  /** The page as `go_to_analisis` sees it: the navbar link and its click and settle, then the direct URL fallback. */
  datatype NavEnv = NavEnv(linkQuery: Query, linkClick: Call, linkSettle: Call, gotoUrl: Call, gotoSettle: Call)

  datatype Route = ByLink | ByUrl

  /**
   * `go_to_analisis`: follow the navbar link when it exists and nothing in
   * that attempt raises; otherwise (any exception is swallowed) go to the
   * analysis URL, whose failures propagate.
   */
  function GoToAnalisis(env: NavEnv): (r: Result<Route, Fault>)
    ensures r == Success(ByLink) <==> env.linkQuery == Found && env.linkClick.Done? && env.linkSettle.Done?
    ensures r == Success(ByUrl) <==>
      !(env.linkQuery == Found && env.linkClick.Done? && env.linkSettle.Done?) && env.gotoUrl.Done? && env.gotoSettle.Done?
    ensures r.Failure? ==> r.error.Raised?
  {
    if env.linkQuery == Found && Then(env.linkClick, env.linkSettle).Done? then Success(ByLink)
    else match Then(env.gotoUrl, env.gotoSettle)
      case Done => Success(ByUrl)
      case Raise(e) => Failure(Raised(e))
  }

  // ---------- the whole upload ----------

  /** Everything `perform_upload` asks the page, one outcome per call. */
  datatype UploadEnv = UploadEnv(
    nav: NavEnv,
    parameterQuery: Query, parameterFirst: SelectEnv, parameterRetry: SelectEnv,
    serviceQuery: Query, service: SelectEnv,
    attach: AttachEnv,
    start: StartEnv)

  /** The steps of one upload, as they are entered. */
  datatype Step =
    | Navigate
    | ChooseParameter(preferred: Option<string>, preferredLabel: Option<string>)
    | ChooseService(servicio: string)
    | Attach
    | PressStart

  /** The preferred parameter: value "30", label "Escuchar Reclamos". */
  const ParameterValue: string := "30"
  const ParameterLabel: string := "Escuchar Reclamos"

  /** The position of each step in the fixed sequence. */
  function Rank(s: Step): nat {
    match s
    case Navigate => 0
    case ChooseParameter(p, _) => if p.Some? then 1 else 2
    case ChooseService(_) => 3
    case Attach => 4
    case PressStart => 5
  }

  /** Steps strictly follow the fixed sequence: each step ranks above the one before it. */
  predicate InOrder(steps: seq<Step>)
    decreases |steps|
  {
    |steps| <= 1 || (Rank(steps[0]) < Rank(steps[1]) && InOrder(steps[1..]))
  }

  /** In an ordered run every later step ranks above every earlier one, so no step is entered twice. */
  lemma {:induction false} InOrderRanksIncrease(steps: seq<Step>)
    requires InOrder(steps)
    ensures forall i, j :: 0 <= i < j < |steps| ==> Rank(steps[i]) < Rank(steps[j])
    decreases |steps|
  {
    if |steps| > 1 {
      InOrderRanksIncrease(steps[1..]);
      forall i, j | 0 <= i < j < |steps|
        ensures Rank(steps[i]) < Rank(steps[j])
      {
        assert steps[j] == steps[1..][j - 1];
        if i > 0 {
          assert steps[i] == steps[1..][i - 1];
        } else if j > 1 {
          assert Rank(steps[1]) < Rank(steps[j]) by { assert steps[1] == steps[1..][0]; }
        }
      }
    }
  }

  /** Joining two ordered runs keeps the order when the seam is ordered. */
  lemma {:induction false} AppendInOrder(a: seq<Step>, b: seq<Step>)
    requires InOrder(a) && InOrder(b) && |a| > 0
    requires |b| > 0 ==> Rank(a[|a| - 1]) < Rank(b[0])
    ensures InOrder(a + b)
    ensures |a + b| > 0 && (a + b)[|a + b| - 1] == if |b| > 0 then b[|b| - 1] else a[|a| - 1]
    decreases |a|
  {
    if |b| == 0 {
      assert a + b == a;
    } else if |a| == 1 {
      assert (a + b)[1..] == b;
    } else {
      AppendInOrder(a[1..], b);
      assert (a + b)[1..] == a[1..] + b;
    }
  }

  function FirstParameterAttempt(env: UploadEnv): Result<Selection, Fault> {
    SetSelectExact(env.parameterFirst, Some(ParameterValue), Some(ParameterLabel), "Parámetro")
  }

  /** The conditions under which the parameter select is retried with no preference. */
  predicate RetriesParameter(env: UploadEnv) {
    GoToAnalisis(env.nav).Success? && env.parameterQuery == Found && FirstParameterAttempt(env).Failure?
  }

  function RetryParameterAttempt(env: UploadEnv): Result<Selection, Fault> {
    SetSelectExact(env.parameterRetry, None, None, "Parámetro")
  }

  /** A failure that `perform_upload` lets through: anything but a `TimeoutError`. */
  predicate Escapes(r: Result<Selection, Fault>) {
    r.Failure? && !IsTimeout(r.error)
  }

  /** The parameter block lets a failure through: the query raised something other than a timeout, or both attempts failed and the retry's failure is not a timeout. */
  predicate ParameterEscapes(env: UploadEnv) {
    env.parameterQuery == QueryRaise(Other) ||
    (env.parameterQuery == Found && FirstParameterAttempt(env).Failure? && Escapes(RetryParameterAttempt(env)))
  }

  /**
   * The parameter block of `perform_upload`: when the control exists, try
   * the preferred option; after any failure retry once with no preference.
   * Only a non-timeout failure of the retry (or of the query) escapes.
   */
  method SelectParameter(env: UploadEnv) returns (fault: Option<Fault>, steps: seq<Step>)
    ensures env.parameterQuery != Found ==> steps == []
    ensures env.parameterQuery == Found && FirstParameterAttempt(env).Success? ==>
      steps == [ChooseParameter(Some(ParameterValue), Some(ParameterLabel))]
    ensures env.parameterQuery == Found && FirstParameterAttempt(env).Failure? ==>
      steps == [ChooseParameter(Some(ParameterValue), Some(ParameterLabel)), ChooseParameter(None, None)]
    ensures fault.Some? <==> ParameterEscapes(env)
    ensures fault.Some? && env.parameterQuery == Found ==> fault.value == RetryParameterAttempt(env).error
    ensures env.parameterQuery == QueryRaise(Other) ==> fault == Some(Raised(Other))
    ensures InOrder(steps) && (|steps| > 0 ==> Rank(steps[0]) == 1 && Rank(steps[|steps| - 1]) <= 2)
  {
    fault := None;
    steps := [];
    match env.parameterQuery {
      case QueryRaise(e) =>
        if e == Other {
          fault := Some(Raised(Other));
        }
      case Absent =>
      case Found =>
        steps := [ChooseParameter(Some(ParameterValue), Some(ParameterLabel))];
        var first := FirstParameterAttempt(env);
        if first.Failure? {
          steps := steps + [ChooseParameter(None, None)];
          var second := RetryParameterAttempt(env);
          if Escapes(second) {
            fault := Some(second.error);
          }
        }
    }
  }

  function ServiceAttempt(env: UploadEnv, defaultServicio: string): Result<Selection, Fault> {
    SetSelectExact(env.service, Some(defaultServicio), Some(defaultServicio), "Servicio")
  }

  /** The service block lets a failure through: the query raised something other than a timeout, or the selection failed with something other than a timeout. */
  predicate ServiceEscapes(env: UploadEnv, defaultServicio: string) {
    env.serviceQuery == QueryRaise(Other) ||
    (env.serviceQuery == Found && Escapes(ServiceAttempt(env, defaultServicio)))
  }

  /** The service block of `perform_upload`: select the configured service when the control exists. */
  method SelectService(env: UploadEnv, defaultServicio: string) returns (fault: Option<Fault>, steps: seq<Step>)
    ensures env.serviceQuery != Found ==> steps == []
    ensures env.serviceQuery == Found ==> steps == [ChooseService(defaultServicio)]
    ensures fault.Some? <==> ServiceEscapes(env, defaultServicio)
    ensures fault.Some? && env.serviceQuery == Found ==> fault.value == ServiceAttempt(env, defaultServicio).error
    ensures InOrder(steps) && (|steps| > 0 ==> Rank(steps[0]) == 3 && Rank(steps[|steps| - 1]) == 3)
  {
    fault := None;
    steps := [];
    match env.serviceQuery {
      case QueryRaise(e) =>
        if e == Other {
          fault := Some(Raised(Other));
        }
      case Absent =>
      case Found =>
        steps := [ChooseService(defaultServicio)];
        var chosen := ServiceAttempt(env, defaultServicio);
        if Escapes(chosen) {
          fault := Some(chosen.error);
        }
    }
  }

  /**
   * The two select blocks of `perform_upload`, in order; the service block
   * runs only when the parameter block let nothing escape.
   */
  method SelectControls(env: UploadEnv, defaultServicio: string) returns (fault: Option<Fault>, steps: seq<Step>)
    ensures InOrder(steps) && (|steps| > 0 ==> 1 <= Rank(steps[0]) && Rank(steps[|steps| - 1]) <= 3)
    ensures env.parameterQuery == Found && FirstParameterAttempt(env).Failure? <==>
      |steps| > 1 && steps[1] == ChooseParameter(None, None)
    ensures env.parameterQuery == Found && FirstParameterAttempt(env).Failure? && RetryParameterAttempt(env) == Failure(NoValidOption("Parámetro"))
      ==> fault == Some(NoValidOption("Parámetro")) && |steps| == 2
    ensures fault.None? <==> !ParameterEscapes(env) && !ServiceEscapes(env, defaultServicio)
    ensures ParameterEscapes(env) ==> fault.Some? && fault.value == (if env.parameterQuery == Found then RetryParameterAttempt(env).error else Raised(Other))
    ensures (|steps| > 0 && steps[|steps| - 1] == ChooseService(defaultServicio)) <==>
      !ParameterEscapes(env) && env.serviceQuery == Found
  {
    var parameterSteps, serviceSteps;
    fault, parameterSteps := SelectParameter(env);
    if fault.Some? {
      steps := parameterSteps;
    } else {
      fault, serviceSteps := SelectService(env, defaultServicio);
      steps := parameterSteps + serviceSteps;
    }
  }

  /** The tail of `perform_upload`: attach the file, then press start; both failures propagate. */
  method AttachAndStart(fileName: string, env: UploadEnv) returns (r: Result<(), Fault>, steps: seq<Step>)
    ensures steps == [Attach] || steps == [Attach, PressStart]
    ensures steps == [Attach, PressStart] <==> SomeTacticWorks(env.attach)
    ensures !SomeTacticWorks(env.attach) ==> r.Failure? && r.error.AttachExhausted?
    ensures r.Success? <==> SomeTacticWorks(env.attach) && StartWorks(env.start)
  {
    steps := [Attach];
    var attached, _, _ := AttachFile(fileName, env.attach);
    if attached.Failure? {
      r := Failure(attached.error);
      return;
    }
    steps := steps + [PressStart];
    var started, _ := ClickStart(env.start);
    if started.Failure? {
      r := Failure(started.error);
      return;
    }
    r := Success(());
  }

  /** Once navigation is recorded, the third step comes from the controls when there are two of them, and is never a parameter choice when it comes from the tail. */
  lemma ThirdStepIsControl(controls: seq<Step>, tail: seq<Step>)
    requires tail == [Attach] || tail == [Attach, PressStart]
    ensures (|[Navigate] + controls + tail| > 2 && ([Navigate] + controls + tail)[2] == ChooseParameter(None, None)) <==>
      (|controls| > 1 && controls[1] == ChooseParameter(None, None))
  {
    var all := [Navigate] + controls + tail;
    if |controls| > 1 {
      assert all[2] == controls[1];
    } else if |all| > 2 {
      assert all[2] == tail[1 - |controls|];
    }
  }

  /**
   * The conditions for `perform_upload` to return normally: navigation works,
   * neither select block lets a failure through, a tactic attaches the file
   * and the start button is clicked.
   */
  predicate UploadSucceeds(env: UploadEnv, defaultServicio: string) {
    GoToAnalisis(env.nav).Success? && !ParameterEscapes(env) && !ServiceEscapes(env, defaultServicio) &&
    SomeTacticWorks(env.attach) && StartWorks(env.start)
  }

  /**
   * `perform_upload`: navigate; select the parameter (with its one retry);
   * select the service; attach the file; press start. A `TimeoutError` from
   * the parameter or service block is tolerated; every other failure ends
   * the upload and propagates.
   */
  method PerformUpload(fileName: string, defaultServicio: string, env: UploadEnv) returns (r: Result<(), Fault>, steps: seq<Step>)
    ensures |steps| >= 1 && steps[0] == Navigate && InOrder(steps)
    ensures GoToAnalisis(env.nav).Failure? ==> steps == [Navigate] && r == Failure(GoToAnalisis(env.nav).error)
    ensures RetriesParameter(env) <==> |steps| > 2 && steps[2] == ChooseParameter(None, None)
    ensures RetriesParameter(env) && RetryParameterAttempt(env) == Failure(NoValidOption("Parámetro"))
      ==> r == Failure(NoValidOption("Parámetro")) && |steps| == 3
    ensures r.Success? ==> |steps| >= 3 && steps[|steps| - 2] == Attach && steps[|steps| - 1] == PressStart && SomeTacticWorks(env.attach)
    ensures (steps[|steps| - 1] == Attach || steps[|steps| - 1] == PressStart) && !SomeTacticWorks(env.attach)
      ==> steps[|steps| - 1] == Attach && r.Failure? && r.error.AttachExhausted?
    ensures r.Success? <==> UploadSucceeds(env, defaultServicio)
  {
    steps := [Navigate];
    var nav := GoToAnalisis(env.nav);
    if nav.Failure? {
      r := Failure(nav.error);
    } else {
      var controlsFault, controlsSteps := SelectControls(env, defaultServicio);
      AppendInOrder(steps, controlsSteps);
      steps := steps + controlsSteps;
      if controlsFault.Some? {
        r := Failure(controlsFault.value);
      } else {
        var tailSteps;
        r, tailSteps := AttachAndStart(fileName, env);
        AppendInOrder(steps, tailSteps);
        ThirdStepIsControl(controlsSteps, tailSteps);
        steps := steps + tailSteps;
      }
    }
  }
}
