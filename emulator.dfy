/** The browser emulator: the objects a run works on (steps, the run with
    its log and data, the recipe order that keeps cookies between runs),
    and the `Emulator` that starts a browser session, runs each step
    against it and closes it. The browser is outside the model: what it
    answers is a parameter, and what it is told to do is appended to
    `trace`. */
module Emulate {
  import opened Wrappers
  import opened PyText
  import opened Elements
  import opened DriverPaths
  import opened Messages
  import opened Dispatch
  import K = StepTypes
  import DispatchProperties

  /** A `Data` row: the step that produced it and its value. */
  datatype DataEntry = DataEntry(stepId: nat, value: string)

  function Tag(stepId: nat, values: seq<string>): (ds: seq<DataEntry>)
    ensures |ds| == |values|
    ensures forall i :: 0 <= i < |values| ==> ds[i] == DataEntry(stepId, values[i])
  {
    seq(|values|, i requires 0 <= i < |values| => DataEntry(stepId, values[i]))
  }

  /** A recipe step: its kind and value are fixed, its `temp_result` is
      what it leaves for the step after it. */
  class Step {
    const id: nat
    const kind: K.StepKind
    const value: string
    var tempResult: StepResult

    constructor (id: nat, kind: K.StepKind, value: string)
      ensures this.id == id && this.kind == kind && this.value == value
      ensures tempResult == NoResult
    {
      this.id := id;
      this.kind := kind;
      this.value := value;
      tempResult := NoResult;
    }
  }

  /** The recipe order, which keeps the cookies of its last run. */
  class Order {
    var cookiesFromLastRun: seq<Cookie>

    constructor (jar: seq<Cookie>)
      ensures cookiesFromLastRun == jar
    {
      cookiesFromLastRun := jar;
    }
  }

  /** A run of a recipe: whether the recipe keeps cookies, its order (if
      any), and the log and data it accumulates. */
  class Run {
    const cookies: bool
    const order: Order?
    var log: seq<LogEntry>
    var data: seq<DataEntry>

    constructor (cookies: bool, order: Order?)
      ensures this.cookies == cookies && this.order == order
      ensures log == [] && data == []
    {
      this.cookies := cookies;
      this.order := order;
      log := [];
      data := [];
    }

    /** The cookies `navigate` restores: those of the order's last run, when
        the recipe keeps cookies and has an order. */
    function StoredCookies(): Option<seq<Cookie>>
      reads order
    {
      if cookies && order != null then Some(order.cookiesFromLastRun) else None
    }
  }

  function PriorOf(prior: Step?): StepResult
    reads prior
  {
    if prior == null then NoResult else prior.tempResult
  }

  function PriorResult(prior: Step?): Option<StepResult>
    reads prior
  {
    if prior == null then None else Some(prior.tempResult)
  }

  /** How the WebDriver turns out: it launches (and reports the browser's
      user agent); its construction raises WebDriverException or anything
      else; or, once constructed, it raises WebDriverException when asked to
      resize its window or when asked for its user agent. */
  datatype Launch =
    | Launched(userAgent: string)
    | DriverNotFound
    | Raised
    | ResizeRefused
    | AgentRefused

  /** The host a session starts on. */
  datatype Host = Host(
    settings: map<string, string>,     // the [Instance] section, keys lower-cased as configparser stores them
    platform: Platform,
    driverClasses: set<string>,        // the attribute names the `webdriver` module provides
    displayStarts: bool,               // whether starting the virtual display succeeds
    launch: Launch,
    timeout: Option<(real, string)>,   // float() of the Timeout setting (0 if absent) and its str(); None if it raises
    traceback: string)                 // what traceback.format_exc() returns when the generic handler runs

  /** `config.get('Instance', key, fallback=...)`, for a key in the
      lower-case form configparser stores option names in. */
  function Setting(settings: map<string, string>, key: string, fallback: string): string {
    if key in settings then settings[key] else fallback
  }

  /** `int(config.get('Instance', key, fallback=n))`; None when int() raises. */
  function IntSetting(settings: map<string, string>, key: string, fallback: int): Option<int> {
    if key in settings then ParseInt(settings[key]) else Some(fallback)
  }

  /** `int(x * 1.2)`: a fifth larger, truncated towards zero. */
  function Enlarged(x: int): int {
    if x >= 0 then x * 6 / 5 else -((-x) * 6 / 5)
  }

  /** An open browser session. */
  datatype Session = Session(driver: Driver, userAgent: Option<string>, width: int, height: int)

  /** The user agent override: only the Firefox profile and the Chrome
      options carry one. */
  function AgentOverride(browser: string, agent: string): Option<string> {
    if agent != "" && (browser == "Firefox" || browser == "Chrome") then Some(agent) else None
  }

  function DriverMessage(browser: string, executable: string, p: Platform): Message {
    if browser == "Firefox" then
      if executable == "" then FirefoxWith(GeckoPath(p)) else FirefoxWithBinary(GeckoPath(p), executable)
    else if browser == "Chrome" then ChromeWith(if executable == "" then ChromePath(p) else executable)
    else if executable == "" then BrowserNamed(browser)
    else BrowserNamedWith(browser, executable)
  }

  /** What starting the browser does: whether it succeeds, what it logs,
      and the display, session and timeout it leaves behind (None: left as
      it was). */
  datatype Startup = Startup(ok: bool, log: seq<LogEntry>, display: Option<(int, int)>,
                             session: Option<Session>, timeout: Option<real>)

  function StartBrowser(host: Host): Startup {
    var width := IntSetting(host.settings, "browserwidth", 1024);
    var height := IntSetting(host.settings, "browserheight", 768);
    if width.None? || height.None? then
      Startup(false, [Failure(Traceback(host.traceback))], None, None, None)
    else
      Displaying(host, width.value, height.value)
  }

  /** Starting the browser for a window of w by h pixels: on Linux, a
      virtual display a fifth larger first, then the WebDriver. */
  function Displaying(host: Host, w: int, h: int): Startup {
    if host.platform.system != "Linux" then
      Launching(host, w, h)
    else
      var display := Some((Enlarged(w), Enlarged(h)));
      if !host.displayStarts then
        Startup(false, [Failure(Traceback(host.traceback))], display, None, None)
      else
        var launch := Launching(host, w, h);
        Startup(launch.ok, [Info(VirtualDisplay(Enlarged(w), Enlarged(h)))] + launch.log, display, launch.session,
                launch.timeout)
  }

  /** Creating the WebDriver for a window of w by h pixels and setting its
      timeout; the display is not this part's business. */
  function Launching(host: Host, w: int, h: int): Startup {
    var browser := Setting(host.settings, "browser", "Firefox");
    var executable := Setting(host.settings, "browserbinary", "");
    var agent := Setting(host.settings, "browseruseragent", "");
    if !KnownBrowser(host, browser) || host.launch.Raised? then
      Startup(false, [Failure(Traceback(host.traceback))], None, None, None)
    else if host.launch.DriverNotFound? then
      Startup(false, [Failure(BrowserNotFound(browser))], None, None, None)
    else
      var session := Session(SelectDriver(browser, executable, host.platform), AgentOverride(browser, agent), w, h);
      var rest := Configuring(host, browser, w, h);
      Startup(rest.ok, [Info(DriverMessage(browser, executable, host.platform))] + rest.log, None, Some(session),
              rest.timeout)
  }

  /** What follows once the driver exists: resizing its window, reading
      the timeout and asking for the user agent; the session is not this
      part's business. */
  function Configuring(host: Host, browser: string, w: int, h: int): Startup
    requires !host.launch.DriverNotFound? && !host.launch.Raised?
  {
    if host.launch.ResizeRefused? then
      Startup(false, [Failure(BrowserNotFound(browser))], None, None, None)
    else
      match host.timeout
      case None => Startup(false, [Info(BrowserSize(w, h)), Failure(Traceback(host.traceback))], None, None, None)
      case Some(t) =>
        var timed := [Info(BrowserSize(w, h)), Info(BrowserTimeout(t.1))];
        if host.launch.AgentRefused? then
          Startup(false, timed + [Failure(BrowserNotFound(browser))], None, None, Some(t.0))
        else
          Startup(true, timed + [Info(UserAgent(host.launch.userAgent))], None, None, Some(t.0))
  }

  /** Whether the browser name gets past `getattr(webdriver, browser)`,
      which only a name other than Firefox and Chrome goes through. */
  predicate KnownBrowser(host: Host, browser: string) {
    browser == "Firefox" || browser == "Chrome" || browser in host.driverClasses
  }

  /** The driver comes up only for a name `webdriver` provides, when every
      call to it answers and the timeout parses. An unknown name fails
      before any driver exists, with the traceback; a driver that refuses
      the window size or the user-agent script fails as not found, after
      it was created, so the session it leaves must still be closed. */
  lemma LaunchOutcomes(host: Host, w: int, h: int)
    ensures var s := Launching(host, w, h);
            var browser := Setting(host.settings, "browser", "Firefox");
            && (s.ok <==> KnownBrowser(host, browser) && host.launch.Launched? && host.timeout.Some?)
            && (!KnownBrowser(host, browser) ==>
                  s.log == [Failure(Traceback(host.traceback))] && s.session == None)
            && (KnownBrowser(host, browser) && (host.launch.ResizeRefused? || host.launch.AgentRefused?) ==>
                  && s.session.Some?
                  && s.log[|s.log| - 1] == (if host.launch.ResizeRefused? || host.timeout.Some?
                                            then Failure(BrowserNotFound(browser))
                                            else Failure(Traceback(host.traceback))))
            && (s.timeout.Some? <==> s.session.Some? && host.timeout.Some? && !host.launch.ResizeRefused?)
  {
  }

  /** What `run` logs before handling a step: the browser's startup for the
      first step, and for a later one the wait, when there is a timeout. */
  function Preamble(host: Host, first: bool, timeout: real, ans: Answers): seq<LogEntry> {
    if first then StartBrowser(host).log
    else if timeout > 0.0 then [Info(WaitingFor(ans.waitedFor))]
    else []
  }

  /** A browser that started has a session to close. */
  lemma StartedBrowserHasSession(host: Host)
    requires StartBrowser(host).ok
    ensures StartBrowser(host).session.Some?
  {
  }

  class Emulator {
    var session: Option<Session>          // the WebDriver, once one was created
    var display: Option<(int, int)>       // the virtual display's size, once one was started
    var screenshotDirectory: string
    var timeout: real
    var trace: seq<Command>               // every command sent to the browser, in order

    constructor ()
      ensures session == None && display == None && screenshotDirectory == "" && timeout == 0.0 && trace == []
    {
      session := None;
      display := None;
      screenshotDirectory := "";
      timeout := 0.0;
      trace := [];
    }

    /** The emulator and run state a step reads. */
    function Ctx(run: Run): Context
      reads this, run.order
    {
      Context(screenshotDirectory, run.StoredCookies())
    }

    /** The state after a step with effect e, with `preamble` logged before it. */
    twostate predicate Took(e: Effect, preamble: seq<LogEntry>, run: Run, step: Step, prior: Step?)
      reads this, run, step, prior
    {
      && trace == old(trace) + e.commands
      && run.log == old(run.log) + preamble + e.log
      && run.data == old(run.data) + Tag(step.id, e.data)
      && step.tempResult == e.own
      && (prior != null ==> prior.tempResult == e.prior)
    }

    /** `__init_browser`. */
    method InitBrowser(host: Host, run: Run) returns (ok: bool)
      modifies this`session, this`display, this`timeout, run`log
      ensures var s := StartBrowser(host);
              && ok == s.ok
              && run.log == old(run.log) + s.log
              && display == (if s.display.Some? then s.display else old(display))
              && session == (if s.session.Some? then s.session else old(session))
              && timeout == (if s.timeout.Some? then s.timeout.value else old(timeout))
    {
      var width := IntSetting(host.settings, "browserwidth", 1024);
      var height := IntSetting(host.settings, "browserheight", 768);
      if width.None? || height.None? {
        run.log := run.log + [Failure(Traceback(host.traceback))];
        return false;
      }
      var w, h := width.value, height.value;
      if host.platform.system == "Linux" {
        display := Some((Enlarged(w), Enlarged(h)));
        if !host.displayStarts {
          run.log := run.log + [Failure(Traceback(host.traceback))];
          return false;
        }
        run.log := run.log + [Info(VirtualDisplay(Enlarged(w), Enlarged(h)))];
      }
      ghost var shown := run.log;
      ok := Launch(host, run, w, h);
      assert run.log == shown + Launching(host, w, h).log;
    }

    /** The WebDriver part of `__init_browser`. */
    method Launch(host: Host, run: Run, w: int, h: int) returns (ok: bool)
      modifies this`session, this`timeout, run`log
      ensures var s := Launching(host, w, h);
              && ok == s.ok
              && run.log == old(run.log) + s.log
              && session == (if s.session.Some? then s.session else old(session))
              && timeout == (if s.timeout.Some? then s.timeout.value else old(timeout))
    {
      var browser := Setting(host.settings, "browser", "Firefox");
      var executable := Setting(host.settings, "browserbinary", "");
      var agent := Setting(host.settings, "browseruseragent", "");
      if !KnownBrowser(host, browser) || host.launch.Raised? {
        run.log := run.log + [Failure(Traceback(host.traceback))];
        return false;
      }
      if host.launch.DriverNotFound? {
        run.log := run.log + [Failure(BrowserNotFound(browser))];
        return false;
      }
      session := Some(Session(SelectDriver(browser, executable, host.platform), AgentOverride(browser, agent), w, h));
      run.log := run.log + [Info(DriverMessage(browser, executable, host.platform))];
      ghost var created := run.log;
      ok := Configure(host, run, browser, w, h);
      assert run.log == created + Configuring(host, browser, w, h).log;
    }

    /** The part of `__init_browser` after the driver was created. */
    method Configure(host: Host, run: Run, browser: string, w: int, h: int) returns (ok: bool)
      requires !host.launch.DriverNotFound? && !host.launch.Raised?
      modifies this`timeout, run`log
      ensures var s := Configuring(host, browser, w, h);
              && ok == s.ok
              && run.log == old(run.log) + s.log
              && timeout == (if s.timeout.Some? then s.timeout.value else old(timeout))
    {
      if host.launch.ResizeRefused? {
        run.log := run.log + [Failure(BrowserNotFound(browser))];
        return false;
      }
      run.log := run.log + [Info(BrowserSize(w, h))];
      if host.timeout.None? {
        run.log := run.log + [Failure(Traceback(host.traceback))];
        return false;
      }
      timeout := host.timeout.value.0;
      run.log := run.log + [Info(BrowserTimeout(host.timeout.value.1))];
      if host.launch.AgentRefused? {
        run.log := run.log + [Failure(BrowserNotFound(browser))];
        return false;
      }
      run.log := run.log + [Info(UserAgent(host.launch.userAgent))];
      return true;
    }

    /** The emulator after starting the browser: the display, the session
        and the timeout `StartBrowser` leaves (what it does not set keeps
        its value), and, once the browser is up, the screenshot directory
        from the configuration. */
    twostate predicate Started(host: Host)
      reads this
    {
      var s := StartBrowser(host);
      && display == (if s.display.Some? then s.display else old(display))
      && session == (if s.session.Some? then s.session else old(session))
      && timeout == (if s.timeout.Some? then s.timeout.value else old(timeout))
      && screenshotDirectory == (if s.ok then Setting(host.settings, "screenshotdirectory", "screenshots/")
                                 else old(screenshotDirectory))
    }

    /** The first step's part of `run`: start the browser and, once it is
        up, take the screenshot directory from the configuration. */
    method Start(host: Host, run: Run) returns (ok: bool)
      modifies this`session, this`display, this`timeout, this`screenshotDirectory, run`log
      ensures ok == StartBrowser(host).ok
      ensures run.log == old(run.log) + StartBrowser(host).log
      ensures Started(host)
    {
      ok := InitBrowser(host, run);
      if ok {
        screenshotDirectory := Setting(host.settings, "screenshotdirectory", "screenshots/");
      }
    }

    /** `run`: the first step of a run starts the browser (and fails the run
        if that fails); every later step first waits for the configured
        timeout, when there is one. Then the step is handled. */
    method RunStep(host: Host, run: Run, step: Step, prior: Step?, ans: Answers)
      returns (status: RunStatus, ghost e: Effect)
      requires prior != step
      requires prior != null || StartBrowser(host).ok ==>
                 CanHandle(step.kind, step.value, step.tempResult, PriorResult(prior), ans)
      modifies this, run`log, run`data, step, prior
      ensures prior == null && !StartBrowser(host).ok ==>
                && status == Error
                && run.log == old(run.log) + StartBrowser(host).log
                && run.data == old(run.data) && trace == old(trace)
                && step.tempResult == old(step.tempResult)
      ensures prior == null ==> Started(host)
      ensures prior != null ==>
                && session == old(session) && display == old(display) && timeout == old(timeout)
                && screenshotDirectory == old(screenshotDirectory)
      ensures prior != null || StartBrowser(host).ok ==>
                && e == StepEffect(step.kind, step.value, old(step.tempResult), old(PriorOf(prior)), Ctx(run), ans)
                && status == e.status && Took(e, Preamble(host, prior == null, old(timeout), ans), run, step, prior)
    {
      if prior == null {
        var ok := Start(host, run);
        if !ok {
          status, e := Error, Effect(Error, step.tempResult, PriorOf(prior), [], [], []);
          return;
        }
      } else {
        Wait(run, ans);
      }
      ghost var before := run.log;
      assert before == old(run.log) + Preamble(host, prior == null, old(timeout), ans);
      assert before + [] == before;
      status, e := Handle(run, step, prior, ans);
    }

    /** The random wait before a later step, logged with its length. */
    method Wait(run: Run, ans: Answers)
      modifies run`log
      ensures run.log == old(run.log) + (if timeout > 0.0 then [Info(WaitingFor(ans.waitedFor))] else [])
    {
      if timeout > 0.0 {
        run.log := run.log + [Info(WaitingFor(ans.waitedFor))];
      }
    }

    /** `__handle`: one step, by its kind name. */
    method Handle(run: Run, step: Step, prior: Step?, ans: Answers) returns (status: RunStatus, ghost e: Effect)
      requires prior != step
      requires CanHandle(step.kind, step.value, step.tempResult, PriorResult(prior), ans)
      modifies this`trace, run`log, run`data, step, prior
      ensures e == StepEffect(step.kind, step.value, old(step.tempResult), old(PriorOf(prior)), Ctx(run), ans)
      ensures status == e.status && Took(e, [], run, step, prior)
    {
      var k := step.kind;
      e := StepEffect(k, step.value, step.tempResult, PriorOf(prior), Ctx(run), ans);
      status := Success;
      if IsFinder(k) {
        Find(run, step, prior, k, ans);
      } else if IsElementAction(k) {
        ActOnElement(run, step, prior, k, ans);
      } else if IsListReader(k) {
        ReadElements(run, step, prior, k, ans);
      } else if IsRecordKind(k) {
        status := Record(run, step, prior, k, ans);
      } else if IsBrowserKind(k) {
        Browse(run, step, prior, k, ans);
      } else {
        Select(run, step, prior, k, ans);
      }
    }

    /** The steps that only record something: no browser command beyond
        the screenshot, no change to any result. */
    method Record(run: Run, step: Step, prior: Step?, k: K.StepKind, ans: Answers) returns (status: RunStatus)
      requires IsRecordKind(k)
      modifies this`trace, run`log, run`data
      ensures var e := RecordEffect(k, step.value, step.tempResult, PriorOf(prior), Ctx(run), ans);
              status == e.status && Took(e, [], run, step, prior)
    {
      status := Success;
      if k.Log? {
        run.log := run.log + [Info(Logged(step.value))];
        status := ConfigError;
      } else if k.Data? {
        run.data := run.data + [DataEntry(step.id, step.value)];
      } else if k.Pause? {
        run.log := run.log + [Info(PausedFor(ans.pausedFor))];
      } else if k.Screenshot? {
        var name := ans.screenshotName;
        trace := trace + [CapturePage(screenshotDirectory + name)];
        run.data := run.data + [DataEntry(step.id, name)];
        run.log := run.log + [Info(ScreenshotStored(name, screenshotDirectory))];
      } else if k.GetPagetitle? {
        run.data := run.data + [DataEntry(step.id, ans.title)];
        run.log := run.log + [Info(StoredTitle(ans.title))];
      } else {
        run.data := run.data + [DataEntry(step.id, ans.htmlSource)];
        run.log := run.log + [Info(StoredHtmlSource)];
      }
    }

    /** The steps that drive the browser's page. */
    method Browse(run: Run, step: Step, prior: Step?, k: K.StepKind, ans: Answers)
      requires IsBrowserKind(k)
      modifies this`trace, run`log, run`data
      ensures Took(BrowserEffect(k, step.value, step.tempResult, PriorOf(prior), Ctx(run), ans), [], run, step, prior)
    {
      if k.ExecuteJs? {
        ExecuteJs(run, step, prior, ans);
      } else if k.Navigate? {
        Navigate(run, step, prior);
      } else if k.ScrollTo? {
        ScrollTo(run, step, prior);
      } else if k.GoBack? {
        trace := trace + [Back];
        run.log := run.log + [Info(WentBack)];
      } else {
        trace := trace + [Forward];
        run.log := run.log + [Info(WentForward)];
      }
    }

    /** The steps that work on the prior step's result as a whole. */
    method Select(run: Run, step: Step, prior: Step?, k: K.StepKind, ans: Answers)
      requires IsResultKind(k) && prior != step
      requires k.RandomSelect? || k.GetElementCount? ==> prior != null
      requires k.RandomSelect? ==> ChoiceFits(prior.tempResult, ans)
      requires k.UnsetPriorElement? && step.tempResult != NoResult ==> prior != null
      modifies run`log, run`data, step, prior
      ensures Took(ResultEffect(k, old(step.tempResult), old(PriorOf(prior)), ans), [], run, step, prior)
    {
      if k.RandomSelect? {
        RandomSelect(run, step, prior, ans);
      } else if k.GetElementCount? {
        CountElements(run, step, prior);
      } else {
        UnsetPriorElement(run, step, prior);
      }
    }

    /** The finders: the driver's answer becomes the step's result. */
    method Find(run: Run, step: Step, prior: Step?, k: K.StepKind, ans: Answers)
      requires IsFinder(k) && prior != step
      modifies run`log, run`data, step
      ensures Took(FindEffect(k, step.value, PriorOf(prior), ans), [], run, step, prior)
    {
      ghost var e := FindEffect(k, step.value, PriorOf(prior), ans);
      if IsSingleFinder(k) && ans.findOne.Some? {
        step.tempResult := One(ans.findOne.value);
        run.data := run.data + [DataEntry(step.id, "1")];
        run.log := run.log + [Info(Found(k, step.value, 1))];
      } else if !IsSingleFinder(k) && ans.findMany.Some? {
        var hs := ans.findMany.value;
        step.tempResult := Many(hs);
        run.data := run.data + [DataEntry(step.id, NatToString(|hs|))];
        run.log := run.log + [Info(Found(k, step.value, |hs|))];
      } else {
        step.tempResult := NoResult;
        run.data := run.data + [DataEntry(step.id, "0")];
        run.log := run.log + [Warning(NotFound(k, step.value))];
      }
    }

    /** The actions on the first element of the prior result. */
    method ActOnElement(run: Run, step: Step, prior: Step?, k: K.StepKind, ans: Answers)
      requires IsElementAction(k) && prior != null && prior != step
      modifies this`trace, run`log, run`data, step, prior
      ensures Took(ElementActionEffect(k, step.value, old(step.tempResult), old(prior.tempResult), Ctx(run), ans),
                   [], run, step, prior)
    {
      var element := FirstElemOrNone(prior.tempResult);
      if element.None? {
        run.log := run.log + [Warning(NoElementFor(k, step.value))];
        return;
      }
      var h := element.value;
      if k.Click? {
        trace := trace + [ClickOn(h)];
        run.log := run.log + [Info(Clicked)];
      } else if k.Submit? {
        trace := trace + [SubmitOn(h)];
        run.log := run.log + [Info(Submitted)];
        prior.tempResult := NoResult;
        step.tempResult := NoResult;
        run.log := run.log + [Info(RemovedAfterSubmit)];
      } else if k.Write? {
        trace := trace + [SendKeys(h, step.value)];
        run.log := run.log + [Info(TypedText(step.value))];
      } else if k.WriteSlowly? {
        TypeSlowly(h, step.value);
        run.log := run.log + [Info(TypedSlowly(step.value))];
      } else if k.ElementScreenshot? {
        var name := ans.screenshotName;
        trace := trace + [CaptureElement(h, screenshotDirectory + name)];
        run.data := run.data + [DataEntry(step.id, name)];
        run.log := run.log + [Info(ElementScreenshotStored(name, screenshotDirectory))];
      } else if k.GetText? {
        var v := ans.text(h);
        run.data := run.data + [DataEntry(step.id, v)];
        run.log := run.log + [Info(StoredText(v))];
      } else if k.GetValue? {
        var v := PyStr(ans.attribute(h, "value"));
        run.data := run.data + [DataEntry(step.id, v)];
        run.log := run.log + [Info(StoredValue(v))];
      } else {
        var v := PyStr(ans.attribute(h, step.value));
        run.data := run.data + [DataEntry(step.id, v)];
        run.log := run.log + [Info(StoredAttribute(v, step.value))];
      }
    }

    /** `write_slowly`'s loop: one key press per character. */
    method TypeSlowly(h: Handle, keys: string)
      modifies this`trace
      ensures trace == old(trace) + KeyStrokes(h, keys)
    {
      var i := 0;
      while i < |keys|
        invariant 0 <= i <= |keys|
        invariant trace == old(trace) + KeyStrokes(h, keys[..i])
      {
        assert KeyStrokes(h, keys[..i + 1]) == KeyStrokes(h, keys[..i]) + [SendKeys(h, [keys[i]])];
        trace := trace + [SendKeys(h, [keys[i]])];
        i := i + 1;
      }
      assert keys[..i] == keys;
    }

    /** The readers of every element of the prior result. */
    method ReadElements(run: Run, step: Step, prior: Step?, k: K.StepKind, ans: Answers)
      requires IsListReader(k) && prior != null && prior != step
      modifies run`data, run`log
      ensures Took(ListReadEffect(k, step.value, step.tempResult, prior.tempResult, ans), [], run, step, prior)
    {
      var elements := ElemList(prior.tempResult);
      var i := 0;
      while i < |elements|
        invariant 0 <= i <= |elements|
        invariant run.data == old(run.data) + Tag(step.id, ReadAll(k, step.value, ans, elements[..i]))
        invariant run.log == old(run.log)
      {
        var v;
        if k.GetTexts? {
          v := ans.text(elements[i]);
        } else if k.GetValues? {
          v := PyStr(ans.attribute(elements[i], "value"));
        } else {
          v := PyStr(ans.attribute(elements[i], step.value));
        }
        assert ReadAll(k, step.value, ans, elements[..i + 1]) == ReadAll(k, step.value, ans, elements[..i]) + [v];
        assert Tag(step.id, ReadAll(k, step.value, ans, elements[..i]) + [v])
            == Tag(step.id, ReadAll(k, step.value, ans, elements[..i])) + [DataEntry(step.id, v)];
        run.data := run.data + [DataEntry(step.id, v)];
        i := i + 1;
      }
      assert elements[..i] == elements;
      var message :=
        if k.GetTexts? then StoredTexts(|elements|)
        else if k.GetValues? then StoredValues(|elements|)
        else StoredAttributes(step.value, |elements|);
      run.log := run.log + [Info(message)];
    }

    method ExecuteJs(run: Run, step: Step, prior: Step?, ans: Answers)
      modifies this`trace, run`log, run`data
      ensures Took(ExecuteJsEffect(step.value, step.tempResult, PriorOf(prior), ans), [], run, step, prior)
    {
      trace := trace + [ExecuteScript(step.value)];
      match ans.script
      case Some(v) =>
        run.data := run.data + [DataEntry(step.id, v)];
        run.log := run.log + [Info(RanScriptWithResult)];
      case None =>
        run.log := run.log + [Info(RanScriptWithoutResult)];
    }

    /** `navigate`: load, restore the stored cookies, load again. */
    method Navigate(run: Run, step: Step, prior: Step?)
      modifies this`trace, run`log
      ensures Took(NavigateEffect(step.value, step.tempResult, PriorOf(prior), run.StoredCookies()), [], run, step, prior)
    {
      var url := step.value;
      trace := trace + [Get(url)];
      if run.cookies {
        var order := run.order;
        if order != null {
          AddCookies(order.cookiesFromLastRun);
          run.log := run.log + [Info(CookiesLoaded)];
        }
      }
      trace := trace + [Get(url)];
      run.log := run.log + [Info(NavigatedTo(url))];
    }

    /** `scroll_to`: parse the target, log it, start the scroll script. */
    method ScrollTo(run: Run, step: Step, prior: Step?)
      modifies this`trace, run`log
      ensures Took(ScrollEffect(step.value, step.tempResult, PriorOf(prior)), [], run, step, prior)
    {
      var target := -1;
      match ParseInt(step.value) {
        case Some(n) =>
          if n != 0 {
            target := n;
            run.log := run.log + [Info(ScrollingFor(n))];
          } else {
            run.log := run.log + [Info(ScrollingToBottom)];
          }
        case None =>
          run.log := run.log + [Info(ScrollingToBottom)];
      }
      var increment := if target > 10 || target == -1 then 10 else target;
      trace := trace + [Scroll(increment, target)];
    }

    method RandomSelect(run: Run, step: Step, prior: Step?, ans: Answers)
      requires prior != null && prior != step && ChoiceFits(prior.tempResult, ans)
      modifies run`log, run`data, step
      ensures Took(RandomSelectEffect(old(step.tempResult), prior.tempResult, ans), [], run, step, prior)
    {
      match prior.tempResult
      case NoResult =>
        run.log := run.log + [Warning(NothingToSelect)];
      case Many(hs) =>
        if |hs| > 0 {
          var i := ans.chosen;
          step.tempResult := One(hs[i]);
          run.data := run.data + [DataEntry(step.id, NatToString(i + 1))];
          run.log := run.log + [Info(RandomlySelected(i + 1, |hs|))];
        } else {
          run.log := run.log + [Warning(NothingToSelect)];
        }
      case One(h) =>
        step.tempResult := One(h);
        run.data := run.data + [DataEntry(step.id, "0")];
        run.log := run.log + [Info(OnlyOneToSelect)];
    }

    method CountElements(run: Run, step: Step, prior: Step?)
      requires prior != null && prior != step
      modifies run`log, run`data
      ensures Took(ElementCountEffect(step.tempResult, prior.tempResult), [], run, step, prior)
    {
      match prior.tempResult
      case NoResult =>
        run.data := run.data + [DataEntry(step.id, "0")];
        run.log := run.log + [Info(CountedNone)];
      case Many(hs) =>
        run.data := run.data + [DataEntry(step.id, NatToString(|hs|))];
        run.log := run.log + [Info(Counted(|hs|))];
      case One(_) =>
        run.data := run.data + [DataEntry(step.id, "1")];
        run.log := run.log + [Info(CountedOne)];
    }

    method UnsetPriorElement(run: Run, step: Step, prior: Step?)
      requires prior != step
      requires step.tempResult != NoResult ==> prior != null
      modifies run`log, step, prior
      ensures Took(UnsetEffect(old(step.tempResult), old(PriorOf(prior))), [], run, step, prior)
    {
      if step.tempResult != NoResult {
        prior.tempResult := NoResult;
        step.tempResult := NoResult;
        run.log := run.log + [Info(PriorRemoved)];
      }
    }

    /** `navigate`'s cookie loop: one add_cookie per stored cookie. */
    method AddCookies(jar: seq<Cookie>)
      modifies this`trace
      ensures trace == old(trace) + CookieCommands(jar)
    {
      for i := 0 to |jar|
        invariant trace == old(trace) + CookieCommands(jar[..i])
      {
        assert CookieCommands(jar[..i + 1]) == CookieCommands(jar[..i]) + [AddCookie(jar[i])];
        trace := trace + [AddCookie(jar[i])];
      }
      assert jar[..|jar|] == jar;
    }

    /** `close_session`: with a session open, store its cookies in the order
        (when the recipe keeps cookies and has one) and then quit. */
    method CloseSession(run: Run, jar: seq<Cookie>)
      modifies this`trace, run`log, run.order
      ensures var keeps := run.cookies && run.order != null;
              && (old(session).None? ==>
                    trace == old(trace) && run.log == old(run.log)
                    && (run.order != null ==> run.order.cookiesFromLastRun == old(run.order.cookiesFromLastRun)))
              && (old(session).Some? ==>
                    && trace == old(trace) + (if keeps then [GetCookies] else []) + [Quit]
                    && run.log == old(run.log) + (if keeps then [Info(CookiesStored)] else []) + [Info(SessionClosed)]
                    && (keeps ==> run.order.cookiesFromLastRun == jar)
                    && (!keeps && run.order != null ==>
                          run.order.cookiesFromLastRun == old(run.order.cookiesFromLastRun)))
    {
      if session.Some? {
        if run.cookies {
          var order := run.order;
          if order != null {
            trace := trace + [GetCookies];
            order.cookiesFromLastRun := jar;
            run.log := run.log + [Info(CookiesStored)];
          }
        }
        trace := trace + [Quit];
        run.log := run.log + [Info(SessionClosed)];
      }
    }
  }

  /** A run whose first step navigates and which then closes its session
      stores the browser's cookies in its order. */
  method RunAndStoreCookies(host: Host, order: Order, jar: seq<Cookie>, url: string, ans: Answers)
    requires StartBrowser(host).ok
    modifies order
    ensures order.cookiesFromLastRun == jar
  {
    var run := new Run(true, order);
    var emulator := new Emulator();
    var step := new Step(1, K.Navigate, url);
    StartedBrowserHasSession(host);
    var status, e := emulator.RunStep(host, run, step, null, ans);
    emulator.CloseSession(run, jar);
  }

  /** The first `navigate` of a run adds the cookies stored in its order
      between its two page loads. */
  method RunAndReplayCookies(host: Host, order: Order, url: string, ans: Answers) returns (replayed: seq<Command>)
    requires StartBrowser(host).ok
    ensures replayed == [Get(url)] + CookieCommands(order.cookiesFromLastRun) + [Get(url)]
  {
    var run := new Run(true, order);
    var emulator := new Emulator();
    var step := new Step(1, K.Navigate, url);
    var status, e := emulator.RunStep(host, run, step, null, ans);
    DispatchProperties.NavigateStepEffect(url, NoResult, NoResult, emulator.Ctx(run), ans);
    replayed := emulator.trace;
  }

  /** Cookies survive from one run of an order to the next: a run that
      navigates and closes its session stores the browser's cookies, and
      the next run's first `navigate` adds exactly those cookies between
      its two page loads. */
  method CookiesCarryOverToNextRun(host: Host, order: Order, jar: seq<Cookie>, url: string, ans: Answers)
    returns (replayed: seq<Command>)
    requires StartBrowser(host).ok
    modifies order
    ensures order.cookiesFromLastRun == jar
    ensures replayed == [Get(url)] + CookieCommands(jar) + [Get(url)]
  {
    RunAndStoreCookies(host, order, jar, url, ans);
    replayed := RunAndReplayCookies(host, order, url, ans);
  }
}
