# NOVALYTICS-BOT, modelled in Dafny

NOVALYTICS-BOT watches a shared folder for spreadsheets. Each file that
arrives is uploaded through a web application driven by a headless browser:

- it logs in, or reuses a saved session;
- it opens the "Iniciar análisis" page;
- it picks the "Parámetro" and "Servicio" options;
- it attaches the file and presses "Iniciar";
- it then archives or deletes the file.

This project models the decision logic of that pipeline and proves what it
promises. It is split into one module per source file:

| module | source | form |
|---|---|---|
| `ConfigLoader` | `src/core/config_loader.py` | JSON values as a datatype; placeholder substitution, typed environment values and dotted lookup as functions. The singleton loader is a `class Loader` whose `Get` walks the key with a loop and whose `Validate` collects missing keys with the loop in `CollectMissing`. |
| `Settings` | `src/core/settings.py` | Every property is a two-level lookup with a default, proved equal to the loader's dotted `get`. Derived URLs, `shared_folder`, the environment tests and the two configuration dictionaries are functions. |
| `Analisis` | `src/robot/analisis.py` | Option choice, exact select, the three attach tactics with the name-polling loop, the "Iniciar" click, navigation and the whole `perform_upload` sequence. |
| `Auth` | `src/robot/auth.py` | Placeholder test, selector search, the logged-in heuristic, `ensure_login` and `go_to_configuracion`. |
| `FileMonitor` | `src/event/file_monitor.py` | The stability test, the event screening, the debounce map, the initial sweep, start/stop and the archive name. `FileHandler` and `FileMonitor` are classes whose methods update their fields. |
| `Handoff` | `main.py` | The work queue filled by `on_file_detected` and drained by the main loop, as a class. |
| `MainLoop` | `main.py` | The consumer loop, the post-upload policy and the two shutdown paths. |

Helpers: `Wrappers` (Option, Result), `Browser` (outcomes of browser calls),
`Text` (ASCII lower-casing, strip, split/join, digits) and `Paths` (file
name, stem and suffix).

Every browser call is an input to the model. A call either returns (`Done`)
or raises, and a raise is either a Playwright timeout (`Raise(Timeout)`) or
any other exception (`Raise(Other)`). The distinction matters: several
`try` blocks in the source catch only the timeout. A selector query returns
`Found`, `Absent` or raises. The disk and the clock are inputs in the same
way:

- the outcomes of `exists`, `stat`, `mkdir`, `move` and `unlink`;
- the folder listing;
- the current time, in integer milliseconds;
- the formatted timestamp.

## Model

| member | source | states |
|---|---|---|
| ConfigLoader.Lookup | src/core/config_loader.py:175-187 | An empty key path gives the value itself. A first segment that is not a key of an object gives no value. |
| ConfigLoader.LookupAppend | src/core/config_loader.py:179-185 | Walking a path in two parts is the same as walking it whole; a missing prefix makes the whole lookup missing. |
| ConfigLoader.GetTwoLevels | src/core/config_loader.py:176-185 | `get("section.name", d)` for dot-free names is the field of the section object when both exist, otherwise `d`. |
| ConfigLoader.StrippedPieces | src/core/config_loader.py:131 | One piece per comma-separated part, in order. Each piece is a string with no comma and no blank at either end. |
| ConfigLoader.EnvValue | src/core/config_loader.py:101-133 | An unset variable gives null. "true"/"false" in any case give booleans, and only they do. A digit string gives the integer it spells in base ten. A non-digit value with a comma gives a list of at least two stripped pieces. Anything else is the string itself. An object never comes out. |
| ConfigLoader.CommaSplitsInTwo | src/core/config_loader.py:130-131 | A value containing a comma splits into at least two pieces. |
| ConfigLoader.EnvIntRoundTrip | src/core/config_loader.py:124-125 | The decimal text of a natural number reads back as that number. |
| ConfigLoader.EnvListLosesOnlySpace | src/core/config_loader.py:131 | Joining the raw pieces of a list value with commas gives back the variable's text, so only the stripped spaces are lost. |
| ConfigLoader.ProcessConfig | src/core/config_loader.py:82-99 | Objects keep their key set and lists their length. A `{{NAME}}` string becomes the typed environment value of the stripped name. Every other value is unchanged. |
| ConfigLoader.ProcessAtPath | src/core/config_loader.py:82-99 | Substitution commutes with dotted lookup. A path reaches the processed tree exactly where it reaches the original, and finds there the processed value. |
| ConfigLoader.ProcessAtWalk | src/core/config_loader.py:82-99 | Substitution keeps every object field and every list element in place. Wherever a path of field names and list indices reaches a node of the original, it reaches that node processed in the result. |
| ConfigLoader.PlaceholderAtWalk | src/core/config_loader.py:82-99 | A `{{NAME}}` string at any depth, inside objects and lists alike, is replaced at the same place by the typed value of `NAME`. |
| ConfigLoader.LeafAtWalk | src/core/config_loader.py:82-99 | A scalar that is not a placeholder stays unchanged at its place, at any depth, inside objects and lists alike. |
| ConfigLoader.ListElementsInOrder | src/core/config_loader.py:94-95 | Lists are processed element by element, in order. Element `i` of the result is element `i` processed: the variable's value for a placeholder, and the element itself for a plain scalar. |
| ConfigLoader.ProcessKeepsShape | src/core/config_loader.py:92-95 | Substitution keeps the whole nested shape: the same keys and lengths at every depth. |
| ConfigLoader.ProcessFixesPlaceholderFree | src/core/config_loader.py:92-99 | A configuration without placeholders is returned unchanged. |
| ConfigLoader.MissingFrom | src/core/config_loader.py:145-156 | A key is reported exactly when it is required and its lookup is absent or null. |
| ConfigLoader.Loader.constructor | src/core/config_loader.py:24-28 | A fresh instance is not initialised and holds an empty configuration. |
| ConfigLoader.Loader.Get | src/core/config_loader.py:164-187 | The loop returns the value at the dotted path, or the default when a segment is missing or a non-object is met. |
| ConfigLoader.Loader.Validate | src/core/config_loader.py:143-162 | The loop collects exactly the missing required keys, in the order they are required. |
| ConfigLoader.Loader.CollectMissing | src/core/config_loader.py:143-162 | The loop over the keys reads each with `get` and keeps exactly the missing ones, in order. |
| ConfigLoader.Loader.Init | src/core/config_loader.py:30-40 | An initialised loader is left alone. A missing file fails and leaves the loader uninitialised. Otherwise the configuration is the processed file, and the loader becomes initialised exactly when no required key is missing; a missing key is reported with the list of keys. |
| ConfigLoader.Loader.Reload | src/core/config_loader.py:198-202 | Clears the flag and loads again: the same outcomes as a first initialisation. |
| Settings.PropIsGet | src/core/settings.py:33-229 | Each property read is the loader's `get("section.name", default)`. |
| Settings.Render | src/core/settings.py:67 | A string renders as itself; exactly lists and objects have no rendering in this model. |
| Settings.PageUrl | src/core/settings.py:64-77 | A stored URL is returned as stored. Otherwise the URL is the base URL followed by the page path. |
| Settings.PageUrlIsGet | src/core/settings.py:64-77 | The page URL equals `get("urls.<name>", f"{base_url}<path>")`. |
| Settings.DerivedUrls | src/core/settings.py:59-77 | With only a base URL configured, the home URL is the base URL and the login, analysis and configuration URLs are the base URL plus `/login`, `/iniciar-analisis` and `/configuracion`. |
| Settings.RequiredSettingPresent | src/core/config_loader.py:145-160 | After a successful validation, every required setting is stored and not null. |
| Settings.SharedFolder | src/core/settings.py:85-89 | An unset or falsy `paths.shared_folder` gives `<cwd>/data/shared`. A non-empty string gives itself. A truthy non-string is rejected. |
| Settings.IsProduction | src/core/settings.py:247-249 | An answer exists exactly when the environment is a string; any other value makes `.lower()` raise. It answers true exactly when the value lower-cases to "production", whatever its capitalisation. |
| Settings.IsDevelopment | src/core/settings.py:251-253 | An answer exists exactly when the environment is a string; any other value makes `.lower()` raise. It answers true exactly when the value lower-cases to "development", whatever its capitalisation. |
| Settings.EnvironmentIgnoresCase | src/core/settings.py:247-253 | Two environment names that lower-case alike get the same production and development answers. |
| Settings.CapitalProduction | src/core/settings.py:247-253 | "PRODUCTION" in capitals is production and not development. |
| Settings.NeverBoth | src/core/settings.py:247-253 | No configuration is both production and development. |
| Settings.DevelopmentByDefault | src/core/settings.py:43-46 | Without `app.environment` the application is in development, not production. |
| Settings.BrowserConfig | src/core/settings.py:255-265 | The dictionary has exactly the keys headless, slow_mo, viewport and timeout, and each holds the corresponding property, the viewport's width and height included. |
| Settings.AnalisisConfig | src/core/settings.py:267-278 | The dictionary has exactly its five keys, and each holds the corresponding property, both wait times included. |
| Analisis.FindFirst | src/robot/analisis.py:80-92 | The index of the first option at or after a position that meets a criterion, or none meets it. |
| Analisis.ChooseOption | src/robot/analisis.py:69-94 | "No options" exactly for an empty list. A value comes back exactly for the three match reasons, with a display text. That value is some option's value, and the text is that option's label or else its value. |
| Analisis.ValueMatchWins | src/robot/analisis.py:79-82 | The first option whose value equals a non-empty preferred value is chosen, whatever the label preference. |
| Analisis.LabelMatchSecond | src/robot/analisis.py:84-88 | Without a value hit, the first option whose label case-folds to the preferred label is chosen. |
| Analisis.FirstUsableThird | src/robot/analisis.py:90-92 | Without either hit, the first enabled option with a non-empty value is chosen. |
| Analisis.NothingUsable | src/robot/analisis.py:94 | Options that are all disabled or empty give no value. |
| Analisis.NoHitsFallThrough | src/robot/analisis.py:79-88 | Without hits, both preference searches find nothing. |
| Analisis.ExamplePreferredValue | src/robot/analisis.py:253 | On the parameter select, value "30" picks "Escuchar Reclamos" by value. |
| Analisis.ExamplePreferredLabel | src/robot/analisis.py:84-88 | An absent value with the label in capitals still picks option "30" by label. |
| Analisis.ExampleLabelFacts | src/robot/analisis.py:84-88 | In that example the value misses and the label first matches at position 1. |
| Analisis.ExampleNoValue | src/robot/analisis.py:79-82 | Value "99" matches no option of the example. |
| Analisis.ExampleLabelFolds | src/robot/analisis.py:85-87 | Labels that differ only in letter case fold to the same text; different labels do not. |
| Analisis.FoldEqual | src/robot/analisis.py:85-87 | Strings equal letter by letter after lower-casing fold equal. |
| Analisis.ExampleFirstUsable | src/robot/analisis.py:90-92 | With no preferences, an empty placeholder option is skipped for the first real one. |
| Analisis.SetSelectExact | src/robot/analisis.py:96-127 | Success happens exactly when the wait and the read work, the choice is non-empty, and selecting by value or by label works. A success selects the chosen option's value, text and reason, and that value is non-empty and present among the options. The refusal happens exactly when the wait and the read succeed but the choice is missing or empty. The preferred value wins when present. Selecting by label happens only after selecting by value raised. A raising wait fails with the wait's exception. A raising read fails with the read's exception. When a non-empty choice cannot be selected either way, the label attempt's exception propagates. |
| Analisis.ChoiceFacts | src/robot/analisis.py:103-111 | A chosen value is the value of some option; a value hit yields the preferred value. |
| Analisis.Then | src/robot/analisis.py:143-145 | Two calls in one `try` succeed together exactly when both do. |
| Analisis.AttachFile | src/robot/analisis.py:131-193 | The tactics are tried in order direct, label, file chooser, and the next is tried only after one raised. Success happens exactly when some tactic works, and the last one tried is the one that worked. Failure carries all three errors. The name field is polled only after a success with the field present, at most 8 times, and stops early exactly on a reading that contains the file name. |
| Analisis.EnableWaitMs | src/robot/analisis.py:210 | `wait_after_upload_ms` clamped to [800, 4000]. |
| Analisis.SettleWaitMs | src/robot/analisis.py:229 | `wait_after_submit_ms` clamped to [1200, 5000]. |
| Analisis.ClickStart | src/robot/analisis.py:197-233 | A gate timeout is tolerated. A missing enabled button fails as "still disabled" exactly when a disabled button is present, and as "not found" otherwise. A click that times out is repeated once. Success happens exactly on a tolerated gate, a found button, a click that works and a tolerated settle. |
| Analisis.GoToAnalisis | src/robot/analisis.py:42-54 | The route is by link exactly when the link is found and click and settle work. It is by URL exactly when that fails but `goto` and settle work. Otherwise the exception propagates. |
| Analisis.AppendInOrder | src/robot/analisis.py:237-274 | Step logs concatenated at a rank boundary stay in the flow's order. |
| Analisis.InOrderRanksIncrease | src/robot/analisis.py:237-274 | In an ordered step log every later step ranks above every earlier one, so no step is entered twice. |
| Analisis.SelectParameter | src/robot/analisis.py:250-258 | With the select present, the first attempt prefers "30"/"Escuchar Reclamos"; any failure leads to one retry without preferences. Only a non-timeout error escapes: the query's own error, or the retry's error. |
| Analisis.SelectService | src/robot/analisis.py:261-265 | With the select present, one attempt uses the default service as value and label. A timeout is swallowed; other errors escape. |
| Analisis.SelectControls | src/robot/analisis.py:249-265 | Nothing escapes exactly when neither the parameter block nor the service block lets an error through. When the parameter block lets one through, that error is the fault. The service step is taken exactly when the parameter block passed and the service select is present. The parameter step runs before the service step. A retry happens exactly when the first parameter attempt fails. A retry that finds nothing usable fails with "Parámetro". |
| Analisis.AttachAndStart | src/robot/analisis.py:267-274 | Success happens exactly when an attach tactic works and the start button is clicked. "Iniciar" is pressed exactly when attaching works. Attaching that fails ends the upload with the exhausted error. |
| Analisis.PerformUpload | src/robot/analisis.py:237-274 | The upload returns normally exactly when navigation works, neither select block lets an error through, an attach tactic works and the start button is clicked. Navigation always comes first, and a navigation failure ends the upload. Steps stay in the flow's order. The parameter retry shows as the third step. A success ends with attach then start. |
| Auth.HasPlaceholderAt | src/robot/auth.py:10-12 | A value has a placeholder exactly when it is a string with "{{" or "}}" at some position. |
| Auth.FirstFound | src/robot/auth.py:18-23 | The index of the first selector whose query finds an element, or none finds one; a raising query counts as not found. |
| Auth.FirstSelectorThatExists | src/robot/auth.py:14-24 | An empty candidate list gives nothing. A result is a stripped candidate whose query found an element, and no earlier candidate's query did. The result is nothing exactly when no candidate is found. |
| Auth.SplitCommaJoin | src/robot/auth.py:18 | Splitting a ", "-joined list on commas gives each part, every part after the first with its leading space. |
| Auth.StripPadded | src/robot/auth.py:18 | Stripping a clean selector, with or without the leading space, gives the selector. |
| Auth.PiecesOfJoin | src/robot/auth.py:18 | Splitting and stripping a ", "-joined list of clean selectors gives the list back. |
| Auth.FirstSelectorOfJoin | src/robot/auth.py:47 | Searching a ", "-joined list is the same as trying its selectors in order. |
| Auth.LooksLoggedIn | src/robot/auth.py:26-54 | A URL without "/login" (in any case) means logged in. Otherwise the answer is true exactly when a probe selector exists and its wait works. A non-timeout exception from that wait propagates. |
| Auth.ProbeSelectorIsSearch | src/robot/auth.py:39-47 | The probe found is the first of the six probes, joined and searched as the source does. |
| Auth.AppendKeepsValid | src/robot/auth.py:89-91 | Appending brace-free text to a valid login URL keeps it valid. |
| Auth.DerivedLoginUrlValid | src/robot/auth.py:89-91 | With a valid base URL and no stored login URL, the derived login URL passes the check. |
| Auth.SubmitSelectorIsSearch | src/robot/auth.py:97-102 | The submit button is the first existing of its two candidates. |
| Auth.SubmitAndConfirm | src/robot/auth.py:102-133 | No submit button fails exactly when none is found, with no click. A click that times out is repeated once. Not confirmed happens exactly when the heuristic says false, and then a screenshot is attempted. Success happens exactly when the heuristic confirms and the session state is saved. |
| Auth.EnsureLogin | src/robot/auth.py:56-133 | A saved session is reused exactly when it exists and relogin is not forced. The login is skipped exactly when the post-login page already looks logged in. An invalid login URL is refused before navigating. The submit, confirmation and screenshot outcomes are as in `SubmitAndConfirm`, reached only after the form was filled. |
| Auth.GoToConfiguracion | src/robot/auth.py:135-156 | The route is by link exactly when the link works. It is by URL exactly when that fails, the URL is truthy and `goto` and settle work. Without a link or a URL the dedicated error is raised. |
| Auth.ConfiguracionLikeAnalisis | src/robot/auth.py:135-156 | With a configured URL, navigation to the configuration page behaves like navigation to the analysis page on the same browser outcomes. |
| FileMonitor.IsFileStable | src/event/file_monitor.py:25-33 | True exactly when both samples are the same positive size. A vanished file gives false. Any other stat error propagates. |
| FileMonitor.StabilityWaitMs | src/event/file_monitor.py:84 | The wait is `max(800, retry_delay_ms)`. |
| FileMonitor.RetryPauseMs | src/event/file_monitor.py:85 | The pause is `max(200 ms, retry_delay_ms)`. |
| FileMonitor.Screen | src/event/file_monitor.py:68-91 | A file is delivered exactly when it exists, has a positive size, an allowed extension, is within the size limit and is stable on the first check or, after a clean failure, on the second. Stability is checked only after the other tests pass, and a second time only after a clean failure. |
| FileMonitor.DebounceWindow | src/event/file_monitor.py:62-66 | After an event at time t, an event for the same path is dropped exactly when it comes before t plus the window. |
| FileMonitor.DebounceIsPerPath | src/event/file_monitor.py:62-66 | Recording one path does not change whether another path is dropped. |
| FileMonitor.LowerAll | src/event/file_monitor.py:41 | The allow-list keeps its length, and each extension is stored lower-cased. |
| FileMonitor.LowerAllIsLowerCase | src/event/file_monitor.py:41 | The stored allow-list holds no capital letter, and lower-casing it again changes nothing. |
| FileMonitor.ExtensionTestIgnoresCase | src/event/file_monitor.py:75 | Two names whose suffixes lower-case alike are treated alike. |
| FileMonitor.AllowListCaseInsensitive | src/event/file_monitor.py:41-75 | An extension in the allow-list in any case admits its suffix in any case. |
| FileMonitor.DebounceWindowMs | src/event/file_monitor.py:42 | The window is `max(100 ms, debounce)`. |
| FileMonitor.FileHandler.constructor | src/event/file_monitor.py:39-44 | The handler keeps the lower-cased allow-list, the clamped window and an empty history. |
| FileMonitor.FileHandler.Process | src/event/file_monitor.py:58-94 | An event inside the window is dropped with no change. Otherwise the time is recorded first and the screening decides. The file is queued exactly when it is delivered, and the queue is otherwise unchanged. |
| FileMonitor.Picks | src/event/file_monitor.py:121-132 | Every path handed over comes from an eligible entry of the listing. |
| FileMonitor.FirstRaise | src/event/file_monitor.py:119-138 | The first listed entry whose handling raises, with none before it. |
| FileMonitor.PicksMember | src/event/file_monitor.py:121-132 | Every eligible entry is handed over. |
| FileMonitor.SweepSelectsEligible | src/event/file_monitor.py:117-138 | When nothing raises, a path is handed over exactly when it comes from an eligible entry. |
| FileMonitor.PicksSnoc | src/event/file_monitor.py:121-132 | Handing over is decided entry by entry in listing order. |
| FileMonitor.Monitor.constructor | src/event/file_monitor.py:100-110 | No observer, not monitoring, no callback, no forced polling. The interval is the one given, or one second when the given one is below one, as `max(1, ...)` makes it. |
| FileMonitor.Monitor.HandleFile | src/event/file_monitor.py:186-195 | With a callback, the file is queued once; without one, nothing changes. |
| FileMonitor.Monitor.InitialSweep | src/event/file_monitor.py:117-138 | The files queued, and their count, are exactly the eligible entries before the first one that raises, in listing order. |
| FileMonitor.Monitor.ExamineEntry | src/event/file_monitor.py:121-132 | One entry halts the sweep exactly when handling it raises, and is handed over exactly when it is eligible. |
| FileMonitor.Monitor.Start | src/event/file_monitor.py:140-172 | A failed `mkdir` changes nothing. Otherwise the callback and a fresh handler are installed. The observer is native unless polling is forced or the native observer fails, and polling otherwise. The start succeeds exactly when one of them starts, and then monitoring is on and the sweep's files are queued. A failed start queues nothing. |
| FileMonitor.Monitor.Stop | src/event/file_monitor.py:174-184 | Acts exactly when an observer exists and monitoring is on. Afterwards monitoring is off and everything else is unchanged. |
| FileMonitor.StopTwice | src/event/file_monitor.py:174-184 | A second stop does nothing. |
| FileMonitor.ArchiveKeepsSuffix | src/event/file_monitor.py:247-248 | The archived name keeps the suffix and puts the timestamp after the stem. |
| FileMonitor.ArchiveNameDistinguishesTimestamps | src/event/file_monitor.py:247-248 | Different timestamps give different archive names. |
| FileMonitor.ArchiveNameOfParts | src/event/file_monitor.py:248 | A stem plus one extension archives as stem, "_", timestamp, extension. |
| FileMonitor.ArchiveFile | src/event/file_monitor.py:224-252 | With moving disabled, success without a move. Otherwise the result is the move's outcome, into the processed folder, under the timestamped archive name, keeping the suffix. |
| FileMonitor.SameSecondArchivesCollide | src/event/file_monitor.py:247-249 | Two files of the same name archived in the same second get the same destination. |
| Handoff.WorkQueue.constructor | main.py:39 | An empty queue with no unfinished tasks. |
| Handoff.WorkQueue.Put | main.py:41-44 | Appends the file and counts one more unfinished task. |
| Handoff.WorkQueue.Get | main.py:62-67 | Removes and returns the oldest file, or nothing from an empty queue; the task count is unchanged. |
| Handoff.WorkQueue.TaskDone | main.py:82-83 | Decrements the unfinished count, and succeeds exactly when it was positive. |
| MainLoop.DefaultPolicyArchives | src/core/settings.py:199-207 | By default processed files are moved and not deleted. |
| MainLoop.PostProcess | main.py:74-78 | Archive exactly when moving is on. Delete exactly when moving is off and deleting is on. Otherwise the file is left alone. An archive goes to the processed folder under the timestamped archive name and keeps the suffix. |
| MainLoop.OnlyUploadedFilesAreTouched | main.py:69-83 | A file is archived or deleted only after its upload returned normally, and never both. |
| MainLoop.Consume | main.py:59-83 | Files are taken in arrival order, one per round, until the rounds or the queue run out. A file counts as uploaded exactly when its upload's conditions for success hold, and it is post-processed only then. Every taken file is marked done. |
| MainLoop.TryUpload | main.py:69-83 | The `try` around `perform_upload` reports a normal return exactly when the upload's conditions for success hold. |
| MainLoop.Resources.constructor | main.py:35 | The context, the browser and Playwright start open. |
| MainLoop.Resources.CloseInOneTry | main.py:50-53 | The three closes share one `try`: the first failure skips the rest. |
| MainLoop.Resources.CloseEach | main.py:87-96 | Each close has its own `try`: each one's failure affects only itself. |
| MainLoop.Run | main.py:46-96 | The bot runs exactly when the monitor starts. A failed start closes in one `try`, so each of context, browser and driver stays open exactly when an earlier close raised, and uploads nothing. A successful start uploads the sweep's files in order, each counted as uploaded exactly when its conditions for success hold. It then stops the monitor and closes each resource separately, and every queued task taken is done. |
| Text.Lower | src/core/config_loader.py:121 | Lower-casing keeps the length, maps each character through the one-character rule, and leaves no capital letter. |
| Text.LowerChar | src/core/config_loader.py:121 | A capital A-Z moves to the lower-case letter 32 code points above it; every other character is unchanged. |
| Text.Strip | src/core/config_loader.py:131 | The result is a contiguous slice of the input with only blanks before and after it. Neither of its ends is blank, and it is empty exactly when the input is all blanks. |
| Text.LowerIdempotent | src/event/file_monitor.py:41-75 | Lower-casing twice is lower-casing once. |
| Text.JoinSplit | src/core/config_loader.py:131 | Joining the pieces of a split with the separator gives back the text. |
| Text.SplitJoin | src/core/config_loader.py:176 | Splitting a join of separator-free parts gives back the parts. |
| Text.ParseNatToString | src/core/config_loader.py:124-125 | `int` of the decimal text of n is n. |
| Paths.Suffix | src/event/file_monitor.py:75 | A suffix is non-empty exactly when the name has one. It is a tail of the name: a dot followed by dot-free text. |
| Paths.Stem | src/event/file_monitor.py:248 | Stem followed by suffix is the file name. |

## Left out

- The browser, Playwright and the disk are inputs: each call is an outcome supplied to the model. Selectors, JavaScript snippets, `resolve()`, waits and sleeps only appear as these outcomes and as the computed wait lengths.
- Concurrency is not modelled: the watchdog observer thread, the thread-safe `Queue` and its blocking `get(timeout=1.0)`. `MainLoop.Run` consumes the files queued by the initial sweep; events that arrive while the loop runs are modelled only by `FileHandler.Process` on its own.
- `MainLoop.Consume` runs for a given number of rounds and takes no file once the queue is empty. The endless `while True`, its idle sleep and the `KeyboardInterrupt` that ends it are left out.
- Logging, the log messages, and the screenshot path text are left out.
- `demo_login`, `run_continuous`, `get_file_info`, `ensure_directories_exist`, `get_all`, `_read_options` and the start-up banners of `main` are not part of this model.
- Reading `.env` and `config.json` is not modelled; the parsed JSON (or its absence) and the environment map are inputs. A JSON decoding error and a missing file are the same failure here.
- ConfigLoader.EnvValue: the float branch of `_get_env_variable` is left out, so a value Python reads as a float ("1.5", "1e3", "nan", "inf") stays a string in the model.
- Text.Lower: `lower()`, `casefold()`, `strip()` and `isdigit()` are modelled on ASCII only; Unicode case mappings, Unicode spaces and non-ASCII digits are not.
- Settings.Render: `str()` of a list or dictionary inside an f-string is not modelled, so a list or object base URL gives no derived URL.
- The singletons (`__new__` of both classes) are modelled as one `Loader` object and as a configuration value passed to every `Settings` function.
- `Path` normalisation, `Path.cwd()`, `str()` of numbers and `Path()` of a non-string are not modelled; `Settings.SharedFolder` rejects a truthy non-string value instead.
- The `Settings` class does not define `force_relogin`, `storage_state_path`, `post_login_url`, `navigation_timeout` or `login_timeout_ms`, which `auth.py` and `analisis.py` read. Reading them raises `AttributeError`. The model instead takes the values they would have as inputs: `LoginSettings` and the navigation outcomes.
- Timeouts and clock values are integers in milliseconds; the floating-point seconds of the source are not modelled.
- Archive timestamps come from `datetime.now()`; the formatted timestamp is an input.
- The debounce time `0` counts as "no record", as Python's truthiness does; real clocks never return it.

Two behaviours of the code are worth knowing, and the model has them:

- Events are debounced before the existence, size and extension checks, not after them.
- Archive names carry a timestamp with one-second resolution. Two files of the same name archived in the same second therefore get the same destination (`FileMonitor.SameSecondArchivesCollide`).
