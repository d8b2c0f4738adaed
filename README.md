# ScrapeBot step interpreters, modelled in Dafny

ScrapeBot runs *recipes*: ordered lists of steps that drive a web browser
(navigate, find elements, click, type, read texts, take screenshots, …) and
store what they read as data and log entries of a *run*. This project models
the two step interpreters of the repository and proves properties of them:

- `scrapebot/emulate.py`, the Selenium emulator: the step kinds
  (`RecipeStepTypeEnum` with `choices` and `coerce`), the start of a browser
  session (`__init_browser`, with the choice of the bundled WebDriver
  executable), the per-step entry point `run`, the big dispatch `__handle`
  over the 33 step kinds, the two normalisations of a step's `temp_result`
  and `close_session`, which stores the session's cookies in the recipe's
  order.
- `scrape.js`, the legacy CasperJS interpreter: `overwriteConfig`, the order
  in which the command-line options and the JSON file's `oConfig` are merged
  into the defaults, and the loop over `aStep` that defaults and checks each
  step's properties before queueing its action and a wait.

The browser, the host and the clock are not modelled: everything the
emulator learns from them (the element a finder returns, a script's answer,
the random choice of `random_select`, the launch outcome of the WebDriver,
the host's platform) is a parameter (`Dispatch.Answers`, `Emulate.Host`),
and everything the emulator asks of the browser is recorded as a `Command`
in the emulator's `trace`.

Layout, one module per file:

| file | module | what |
|---|---|---|
| wrappers.dfy | Wrappers | `Option` |
| pytext.dfy | PyText | Python's `int()` on strings and `str()` on integers, `lower`, `startswith` |
| steptypes.dfy | StepTypes | the step kinds, their names and descriptions, `choices`, `coerce` |
| elements.dfy | Elements | a step's result and `__get_first_elem_or_none` / `__get_elem_list` |
| driverpaths.dfy | DriverPaths | the bundled driver paths and the driver a browser name selects |
| messages.dfy | Messages | the log entries the emulator writes, as a datatype |
| dispatch.dfy | Dispatch | the effect of one step, per kind: the specification `__handle` is proved against |
| dispatch_props.dfy | DispatchProperties | properties of that effect |
| emulator.dfy | Emulate | the classes `Step`, `Order`, `Run`, `Emulator` and their imperative methods |
| jsvalues.dfy | JsValues | JSON values and JavaScript's string conversion |
| configmerge.dfy | ConfigMerge | `overwriteConfig` and the configuration stage of `scrape.js` |
| scriptsteps.dfy | ScriptSteps | the step loop of `scrape.js` |

`__handle` is modelled twice, on purpose: `Dispatch.StepEffect` says what a
step does (its status, the step's and the prior step's new result, the log
entries, the data and the browser commands) as a function, and
`Emulate.Emulator.Handle` does it step by step on the objects, one method
per family of kinds, each proved to leave exactly the state
`Dispatch.StepEffect` describes. The loop of `scrape.js` likewise is
`ScriptSteps.Interpreter.RunSteps`, proved to leave the state
`ScriptSteps.Advance` gives when each step runs `ScriptSteps.StepOutcome`;
the lemmas about `Advance` hold for any step function, and
`ScriptSteps.OneWaitPerStep` applies them to the interpreter's.

## Model

| member | source | states |
|---|---|---|
| StepTypes.NameRoundTrip | scrapebot/emulate.py:16-58 | every step kind's name is recognised as that kind again, so the names of the 33 kinds are distinct |
| StepTypes.ChoicesCoverEveryKindOnce | scrapebot/emulate.py:64-66 | `choices()` offers each kind at its ordinal position, no name twice, and every offered name is recognised as the kind it stands for |
| StepTypes.Coerce | scrapebot/emulate.py:68-73 | an enum member becomes a name that is recognised as that member again; any other item is passed through unchanged; the `KeyError` fallback is never reached |
| Elements.FirstElemIsHeadOfElemList | scrapebot/emulate.py:190-204 | the first element of a result is the head of its element list, and there is none exactly when that list is empty; no result gives `[]`, a single element a one-element list, a list is kept |
| DriverPaths.DriverPathsIgnoreMachineCase | scrapebot/emulate.py:112-122 | the bundled Firefox and Chrome paths depend on the machine name only through its lower-case form |
| DriverPaths.WindowsIsTheFallback | scrapebot/emulate.py:112-122 | a driver path ends in ".exe" exactly when the system is neither Linux nor Darwin, for both browsers; on macOS and ARM Linux the Firefox path does not depend on the word size |
| DriverPaths.LowerIdempotent | scrapebot/emulate.py:115 | lowering the machine name a second time changes nothing |
| DriverPaths.BundledDriversAreInLib | scrapebot/emulate.py:112-145 | every bundled geckodriver and chromedriver path lies under `lib/` |
| DriverPaths.ConfiguredExecutableIsUsed | scrapebot/emulate.py:111-157 | a configured executable is never ignored: Firefox runs it as its binary, and any other browser name that `webdriver` provides, Chrome included, runs it as a Chrome driver, so no driver class is then chosen by name (a name `webdriver` lacks fails before, see `Emulate.LaunchOutcomes`) |
| DriverPaths.UnconfiguredUsesBundledDriver | scrapebot/emulate.py:111-157 | without a configured executable only a bundled driver under `lib/` is run, ending in ".exe" exactly off Linux and macOS, and a browser name other than Firefox and Chrome that `webdriver` provides gets its own driver class (a name it lacks fails before, see `Emulate.LaunchOutcomes`) |
| PyText.ParseIntOfIntToString | scrapebot/emulate.py:271 | `int(str(n)) == n` for every integer n, the parse the emulator relies on when it reads numbers from step values |
| Emulate.StartedBrowserHasSession | scrapebot/emulate.py:97-171 | when the browser start succeeds, a WebDriver session exists |
| Emulate.Emulator.InitBrowser | scrapebot/emulate.py:97-177 | returns whether the start succeeded and appends its log; the display is set (to the window enlarged by a fifth) only on Linux, also when it then fails to start, the session only when a driver was created, the timeout only when it was read; an unparsable width or height, or a display that does not start, fails with the traceback and without the display's log line |
| Emulate.Emulator.Launch | scrapebot/emulate.py:111-177 | a browser name `webdriver` lacks, or a driver whose construction raises anything but WebDriverException, fails with the traceback and no session; a driver that cannot be constructed fails with "Browser instance … not found"; a created driver is the one `SelectDriver` chooses, carries the user agent only for Firefox and Chrome, and logs driver, size, timeout and user agent in this order, stopping with "not found" where it refuses the window size or the user-agent script and with the traceback where the timeout does not parse, the session staying set in each case |
| Emulate.Emulator.Configure | scrapebot/emulate.py:158-172 | once the driver exists: a refused resize logs only "not found"; otherwise the size line, then an unparsable timeout fails with the traceback, else the timeout is set and logged, and a refused user-agent script fails with "not found" while a reported user agent is logged and the start succeeds |
| Emulate.LaunchOutcomes | scrapebot/emulate.py:151-177 | the driver comes up exactly for a name `webdriver` provides whose every call answers and whose timeout parses; an unknown name fails with only the traceback and no session; a refused resize or user-agent script leaves the session set and ends the log with "not found", and the timeout is set exactly when the driver was created, got past the resize and the timeout parsed |
| Emulate.Emulator.Start | scrapebot/emulate.py:84-89 | the first step starts the browser: the log, the display, the session and the timeout are what `StartBrowser` leaves, also after a failed start; on success the screenshot directory comes from the configuration, "screenshots/" by default, and on failure it is unchanged |
| Emulate.Emulator.Wait | scrapebot/emulate.py:90-94 | a later step logs a wait exactly when the session's timeout is positive |
| Emulate.Emulator.RunStep | scrapebot/emulate.py:82-95 | a first step leaves the emulator as `Start` does; when its browser fails to start it returns error, logs the startup, and leaves the step's result, the data and the commands unchanged; otherwise the step's status, results, log, data and browser commands are those of `Dispatch.StepEffect`, preceded by the startup or wait log, and a later step leaves session, display, timeout and screenshot directory unchanged |
| Emulate.Emulator.Handle | scrapebot/emulate.py:206-501 | the step's status, its own and the prior step's new result, the log entries, the data and the browser commands are exactly those `Dispatch.StepEffect` gives for the step's kind |
| Emulate.Emulator.Record | scrapebot/emulate.py:208-493 | `log`, `data`, `pause`, `screenshot`, `get_pagetitle` and `get_htmlsource` leave the state their effect gives |
| Emulate.Emulator.Browse | scrapebot/emulate.py:212-293 | `execute_js`, `navigate`, `scroll_to`, `go_back` and `go_forward` leave the state their effect gives |
| Emulate.Emulator.Select | scrapebot/emulate.py:409-498 | `random_select`, `get_element_count` and `unset_prior_element` leave the state their effect gives |
| Emulate.Emulator.Find | scrapebot/emulate.py:317-408 | the eight finders set the step's result and store the count their effect gives |
| Emulate.Emulator.ActOnElement | scrapebot/emulate.py:230-466 | the element actions and single-element readers leave the state their effect gives |
| Emulate.Emulator.TypeSlowly | scrapebot/emulate.py:264-266 | typing slowly sends one key stroke per character, in order |
| Emulate.Emulator.ReadElements | scrapebot/emulate.py:438-472 | the list readers append one datum per element of the prior result, read in order, and one summary log line |
| Emulate.Emulator.ExecuteJs | scrapebot/emulate.py:212-218 | `execute_js` leaves the state its effect gives |
| Emulate.Emulator.Navigate | scrapebot/emulate.py:219-229 | `navigate` leaves the state its effect gives, with the cookies the run's order stores |
| Emulate.Emulator.ScrollTo | scrapebot/emulate.py:268-287 | `scroll_to` leaves the state its effect gives |
| Emulate.Emulator.RandomSelect | scrapebot/emulate.py:409-429 | `random_select` leaves the state its effect gives |
| Emulate.Emulator.CountElements | scrapebot/emulate.py:473-483 | `get_element_count` leaves the state its effect gives |
| Emulate.Emulator.UnsetPriorElement | scrapebot/emulate.py:494-498 | `unset_prior_element` leaves the state its effect gives |
| Emulate.Emulator.AddCookies | scrapebot/emulate.py:225-226 | one `add_cookie` per stored cookie, in the stored order |
| Emulate.Emulator.CloseSession | scrapebot/emulate.py:179-188 | without a session nothing happens; with one, the cookies are fetched and stored in the order exactly when the recipe keeps cookies and the run has an order, and the session is quit, in that order, each logged |
| Emulate.RunAndStoreCookies | scrapebot/emulate.py:179-188 | a run that started its browser and closes its session stores the browser's cookies in its order |
| Emulate.RunAndReplayCookies | scrapebot/emulate.py:219-229 | the first `navigate` of a run that keeps cookies loads the URL, adds every cookie its order stores, and loads the URL again |
| Emulate.CookiesCarryOverToNextRun | scrapebot/emulate.py:179-229 | the cookies one run stores are exactly the cookies the next run of the same order adds |
| DispatchProperties.StepEffectShape | scrapebot/emulate.py:206-501 | for every kind: only `log` ends in a configuration error; only the finders, `random_select`, `submit` and `unset_prior_element` change the step's own result; only `submit` and `unset_prior_element` change the prior step's, and only to clear it; only `data` and an `unset_prior_element` with nothing to unset log nothing |
| DispatchProperties.FindersAreShaped | scrapebot/emulate.py:317-408 | the finders keep that shape |
| DispatchProperties.ElementActionsAreShaped | scrapebot/emulate.py:230-316 | the element actions keep that shape |
| DispatchProperties.OtherKindsAreShaped | scrapebot/emulate.py:206-501 | the remaining kinds keep that shape |
| DispatchProperties.SingleFinderStoresItsCount | scrapebot/emulate.py:317-336 | `find_by_id` and `find_by_name` keep the element found, or nothing, and store "1" or "0" accordingly, leaving the prior result alone |
| DispatchProperties.ListFinderStoresItsCount | scrapebot/emulate.py:337-408 | the list finders keep the list found, or nothing, and store its length, or "0" |
| DispatchProperties.EmptyListIsFoundNotMissing | scrapebot/emulate.py:337-348 | an empty list found is kept as an (empty) result, stores "0" and is logged as information, not as a warning |
| DispatchProperties.ElementActionWithoutElementOnlyWarns | scrapebot/emulate.py:230-316 | when the prior step left no element, an element action logs one warning and does nothing else |
| DispatchProperties.ElementActionTargetsFirstElement | scrapebot/emulate.py:230-316 | otherwise it acts on the first element: click, submit, write and element screenshot address it, a single reader stores exactly one datum read from it, and only submit changes a result |
| DispatchProperties.SubmitClearsBothResults | scrapebot/emulate.py:237-246 | a submit clears both the step's and the prior step's result and logs two lines |
| DispatchProperties.TypedKeyStrokes | scrapebot/emulate.py:264-266 | the key strokes of `write_slowly` type exactly the value |
| DispatchProperties.WriteSlowlyTypesWhatWriteTypes | scrapebot/emulate.py:252-267 | `write_slowly` types the same text as `write`, one character per command |
| DispatchProperties.ListReaderStoresOnePerElement | scrapebot/emulate.py:438-472 | a list reader stores one datum per element of the normalised prior result, in order, and logs one summary line |
| DispatchProperties.SingleReaderTakesHeadOfListReader | scrapebot/emulate.py:430-472 | a single-element reader stores exactly the first datum its list counterpart stores, and nothing when that stores nothing |
| DispatchProperties.ElementCountIsListLength | scrapebot/emulate.py:473-483 | `get_element_count` stores the number of elements `__get_elem_list` would list, as a decimal string |
| DispatchProperties.RandomSelectStoresPosition | scrapebot/emulate.py:409-429 | from a non-empty list the chosen element is kept and its 1-based position stored; a single element is kept with "0" stored; with nothing to choose from, one warning and no change |
| DispatchProperties.RandomSelectKeepsAPriorElement | scrapebot/emulate.py:409-429 | an element `random_select` keeps was in the prior result |
| DispatchProperties.UnsetOnFreshStepKeepsPrior | scrapebot/emulate.py:494-498 | on a step without its own result, `unset_prior_element` keeps the prior result and logs nothing |
| DispatchProperties.UnsetIsIdempotent | scrapebot/emulate.py:494-498 | unsetting twice is unsetting once |
| DispatchProperties.ScrollTargetIsNeverZero | scrapebot/emulate.py:268-277 | the scroll target is never 0; it is -1 exactly for non-integers, 0 and -1 |
| DispatchProperties.ScrollTargetOfIntToString | scrapebot/emulate.py:268-277 | a non-zero integer value is scrolled to exactly |
| DispatchProperties.ScrollStepIsCapped | scrapebot/emulate.py:278 | the scroll step is at most 10, is 10 for the page bottom and for targets above 10, and is the target itself otherwise |
| DispatchProperties.ScrollIssuesOneCommand | scrapebot/emulate.py:268-287 | one scroll script with the step and the target, logged as scrolling for that many pixels, or to the bottom when the value is not a non-zero integer |
| DispatchProperties.NavigateStepReplaysStoredCookies | scrapebot/emulate.py:219-229 | a `navigate` step succeeds, keeps both results and stores no data; it loads the URL first and last and adds exactly the cookies the order stored, in order, in between |
| DispatchProperties.NavigateRestoresCookiesBetweenLoads | scrapebot/emulate.py:219-229 | the URL is loaded first and last, with exactly the stored cookies added in between, in order; no result or data changes |
| DispatchProperties.ExecuteJsStoresTruthyAnswers | scrapebot/emulate.py:212-218 | the script always runs, and its answer is stored exactly when it is truthy |
| DispatchProperties.ScenarioMissingElementThenClick | scrapebot/emulate.py:230-326 | finding a missing ID keeps no element, stores "0" and logs exactly one warning; a click after it logs one warning and nothing else, storing no data, sending no command and setting no result; both steps succeed, two warnings in all |
| DispatchProperties.ScenarioFindThreeThenCount | scrapebot/emulate.py:385-483 | a CSS finder returning three elements followed by a count stores "3" twice |
| ConfigMerge.ExistingKeyIsOverwritten | scrape.js:51-52 | an option naming an existing key replaces its value |
| ConfigMerge.UnknownKeyIsIgnored | scrape.js:49-60 | in the corrected own-key merge of the scrape.js:51 finding, an option that names neither a key nor a `dir.` entry changes nothing |
| ConfigMerge.DirEntryUpdate | scrape.js:53-57 | in the corrected own-key merge, a `dir.X` option replaces `dir.X` exactly when X names an existing own entry of the `dir` object; with `dir` null it throws exactly when X is not empty |
| ConfigMerge.OverwriteKeyKeepsKeys | scrape.js:49-60 | one merged option never adds or removes a key, nor a `dir` entry unless it replaces `dir` itself |
| ConfigMerge.KeysNeverGrow | scrape.js:49-60 | merging options never changes the set of keys, nor the `dir` entries when no option replaces `dir` |
| ConfigMerge.ThrowIsFinal | scrape.js:49-60 | once an option throws, the whole merge has thrown |
| ConfigMerge.UntouchedKeyKeepsValue | scrape.js:49-60 | a key no option names keeps its value |
| ConfigMerge.OptionValueSticks | scrape.js:49-60 | with distinct option names, an option naming an existing key leaves exactly its value there |
| ConfigMerge.JsonValuesWin | scrape.js:118-129 | the JSON file's `oConfig` is merged after the command line, so its values win, and a key it does not name keeps the command line's value |
| ConfigMerge.LoadedKeepsInitialKeys | scrape.js:28-40 | with the corrected own-key merge, a loaded configuration has exactly the default keys |
| ConfigMerge.PrototypeNameGrowsConfig | scrape.js:51 | as written, an option named `toString` adds a key to the configuration; the corrected merge ignores it |
| ConfigMerge.Scrape.OverwriteConfig | scrape.js:49-60 | with the corrected own-key test, the loop leaves the configuration `Overwrite` computes, or reports the TypeError, with the configuration as the earlier options left it |
| ConfigMerge.Scrape.Load | scrape.js:118-129 | with the corrected own-key merge, the configuration stage ends as `LoadConfig` says: thrown, stopped for a missing uid, or loaded with the merged configuration |
| ScriptSteps.Act | scrape.js:149-207 | one step's switch logs at most one line and queues at most one action, never a wait |
| ScriptSteps.MissingTypeActsAsOpen | scrape.js:146-148 | a step without `eType` behaves exactly as an `open` step |
| ScriptSteps.OpenStep | scrape.js:150-160 | without `sUrl` an error is logged and the step only waits; otherwise the URL is opened with the step's `oConfig`, which defaults to `{}` and is stored on the step |
| ScriptSteps.EvaluateStep | scrape.js:167-181 | a function is evaluated exactly when `oPublic` has it, its results appended to the uid's eval file; otherwise an error is logged |
| ScriptSteps.FillStep | scrape.js:183-193 | an error is logged exactly when `sSel` or `oValue` is missing; otherwise the form is filled with `bSubmit`, which defaults to (and is set to) `false` |
| ScriptSteps.ShotLogAndReloadSteps | scrape.js:162-206 | a screenshot goes into the configured screenshot directory under the step's file name, a log step echoes its text exactly when it has one, a reload reloads; none changes the step |
| ScriptSteps.ScreenshotsOfOneRunDiffer | scrape.js:197 | two steps of one run never write the same screenshot file |
| ScriptSteps.UnknownTypeOnlyWaits | scrape.js:149-208 | an `eType` that matches no case logs nothing, changes nothing and only waits |
| ScriptSteps.EveryStepWaitsOnce | scrape.js:145-209 | every step logs at most one line and ends with exactly one wait for `oConfig.timeout` |
| ScriptSteps.DefaultsOnlyAdd | scrape.js:146-188 | defaulting never changes a property the step had and adds only `eType`, `oConfig` and `bSubmit` |
| ScriptSteps.DefaultsAreIdempotent | scrape.js:146-188 | running a step again on its defaulted properties changes nothing more |
| ScriptSteps.AdvanceDefaultsSteps | scrape.js:144-211 | after n iterations the first n step objects hold what their own step made of them, as the recipe gave them, and the rest are untouched |
| ScriptSteps.AdvanceAppendsStepOutcome | scrape.js:144-211 | iteration n appends to the log and the queue exactly what step n, as the recipe gave it, logs and queues |
| ScriptSteps.AdvanceOnlyAppends | scrape.js:144-211 | the loop keeps what was logged and queued before, and logs at most one line per iteration when each step logs at most one |
| ScriptSteps.AdvanceCountsWaits | scrape.js:144-211 | the loop queues exactly one wait per iteration when each step queues exactly one |
| ScriptSteps.OneWaitPerStep | scrape.js:144-211 | the interpreter's loop keeps what was there before, logs at most one line per step and queues exactly one wait per step |
| ScriptSteps.Interpreter.RunStep | scrape.js:145-209 | step i's function logs and queues its outcome and writes its defaulted properties back to step i only |
| ScriptSteps.Interpreter.RunSteps | scrape.js:144-211 | the loop leaves the step objects, the log and the queue that running every step's function in order gives |

## Left out

- Selenium, the WebDriver, the virtual display and the host are not modelled: what they answer is a parameter (`Dispatch.Answers`, `Emulate.Host`), and what the emulator asks of them is recorded as commands.
- The random waits and sleeps (`run`'s jitter, `pause`, `write_slowly`'s pauses) and their floating-point lengths: the logged lengths of a wait and of a pause are supplied by the caller as text.
- The clock: the screenshot names of `screenshot` and `element_screenshot` and the run id of `scrape.js` are parameters.
- The database objects (`Log`, `Data`, the recipe and its order) are reduced to the fields the core reads and writes; `Data` keeps the step's id instead of the step.
- `random_select` stores the integer `i+1` as data; the model stores its decimal string.
- The JSON (de)serialisation of cookies in `navigate` and `close_session`: cookies are opaque values stored and replayed as a sequence.
- The scroll script's own behaviour in the page; only the script's parameters are modelled.
- Emulate.Host: which names `webdriver` provides is a parameter (`driverClasses`); whether such a name is a class that can be called without arguments is left to the launch outcome.
- The configuration keys are assumed in the lower-case form in which configparser stores them; `int()` on non-ASCII digits is not modelled.
- Emulate.Emulator.Handle: requires a prior step for the kinds that read one, a non-negative integer value for `pause` (`int()` raises on anything else, and `time.sleep` raises on the negative duration a negative value gives), and a prior step for `unset_prior_element` on a step with its own result, because the source raises an uncaught exception in those cases.
- Emulate.Emulator.RunStep: carries the same requirements as `Handle`, for the same reason, but only where the step is handled: a later step, or a first step whose browser starts. A first step whose browser fails to start may have any kind, value and results.
- `close_session` neither stops the virtual display nor forgets the session; the model does the same.
- `__handle` tests `log` in an `if` of its own, so a `log` step falls through to the final `else` and returns a configuration error after logging; the model keeps that.
- `navigate` loads the URL twice even when no cookies are restored; the model keeps that.
- The DOM extractors of `oPublic` and the contents of the eval result file; an evaluation is recorded with the function's name and the file.
- CasperJS scheduling (`then`, `run`), the cookie file, the viewport, the `Config:` log line, the script's exit without a uid, and the writes of the log file are not modelled; the step loop records log lines and queued commands instead.
- ConfigMerge.Scrape.OverwriteConfig: merges with the corrected own-key test of the scrape.js:51 finding, so an option named after an `Object.prototype` member (`toString`, `constructor`, `valueOf`, ...) is ignored, where the source as written stores it as a new key; `ConfigMerge.PrototypeNameGrowsConfig` shows the as-written behaviour for one option.
- ConfigMerge.Scrape.Load: ends as `LoadConfig`, which is built on the same corrected own-key merge, with the same difference for `Object.prototype` names in the command line and in the JSON file's `oConfig`.
- JavaScript arrays, fractional numbers, `__proto__` and engine-specific inherited properties are not modelled as values or keys.
- ScriptSteps.Act: the screenshot path (scrape.js:197) and the eval file path `ScriptSteps.EvalFile` (scrape.js:175) are built as string concatenations; a `dir.prefix` and `dir.screenshot`, or a `dir.prefix` and `dir.log`, that are both numbers would be added numerically in JavaScript.
- ScriptSteps.Act: step properties are a record of the eight properties the loop reads; step values that are not objects, and aliasing between steps, are not modelled.
- ScriptSteps.Act: the `Filling` log line keeps the form values instead of their `JSON.stringify` text.

## Findings

| source | as written | input that shows it | evidently intended | confidence | as-written member | corrected member |
|---|---|---|---|---|---|---|
| scrape.js:51 | `typeof(oConfig[sKey]) !== 'undefined'` also holds for names every object inherits from `Object.prototype`, so such an option is stored as a new configuration key (and likewise for `dir.` entries at line 55) | a command-line option `--toString=x` | only keys the configuration already has are overwritten, so the key set never grows | not executed | ConfigMerge.PrototypeNameGrowsConfig | ConfigMerge.KeysNeverGrow |
