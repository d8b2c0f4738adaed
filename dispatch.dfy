/** What one step of a recipe does (`Emulator.__handle`), stated as a value:
    given the step's kind name and value, its own and its prior step's
    `temp_result`, and the browser's answers, the status returned, the two
    new `temp_result`s, and the log entries, data values and browser
    commands appended, in order. The imperative interpreter in module
    Emulate is proved to perform exactly this effect. */
module Dispatch {
  import opened Wrappers
  import opened PyText
  import opened Elements
  import opened Messages
  import K = StepTypes

  /** `RunStatusEnum` as far as the interpreter returns it. */
  datatype RunStatus = Success | Error | ConfigError

  /** A browser cookie (name/value pair, as stored between runs). */
  datatype Cookie = Cookie(name: string, value: string)

  /** The commands the interpreter issues to the browser, in the order it
      issues them. Read-only queries (finding elements, reading text,
      attributes, title or page source) are answers, not commands. */
  datatype Command =
    | Get(url: string)
    | AddCookie(cookie: Cookie)
    | ClickOn(element: Handle)
    | SubmitOn(element: Handle)
    | SendKeys(element: Handle, keys: string)
    | ExecuteScript(code: string)
    | Scroll(step: int, limit: int)     // the injected incremental scroll script
    | Back
    | Forward
    | CapturePage(path: string)
    | CaptureElement(element: Handle, path: string)
    | GetCookies
    | Quit

  /** The browser's and the environment's answers during one step. */
  datatype Answers = Answers(
    findOne: Option<Handle>,          // find_element_by_id/_name; None: NoSuchElementException
    findMany: Option<seq<Handle>>,    // find_elements_by_*; None: NoSuchElementException
    text: Handle -> string,           // element.text
    attribute: (Handle, string) -> Option<string>,  // element.get_attribute(name)
    script: Option<string>,           // execute_script(value) when truthy, else None
    title: string,                    // the page title
    htmlSource: string,               // the serialised document
    chosen: nat,                      // random.randint(0, count - 1)
    waitedFor: string,                // str(round(jittered inter-step delay, 1))
    pausedFor: string,                // str(round(jittered pause, 1))
    screenshotName: string)           // the time-stamped PNG file name

  /** Emulator and run state a step reads: the screenshot directory, and the
      cookies stored by the last run when the recipe keeps cookies and has
      an order record. */
  datatype Context = Context(screenshotDirectory: string, storedCookies: Option<seq<Cookie>>)

  /** The effect of one step. `own` and `prior` are the new `temp_result`s of
      the step and of its prior step. */
  datatype Effect = Effect(
    status: RunStatus,
    own: StepResult,
    prior: StepResult,
    log: seq<LogEntry>,
    data: seq<string>,
    commands: seq<Command>)

  predicate IsSingleFinder(k: K.StepKind) {
    k.FindById? || k.FindByName?
  }

  predicate IsListFinder(k: K.StepKind) {
    k.FindByClass? || k.FindByTag? || k.FindByLink? || k.FindByLinkPartial? || k.FindByCss? || k.FindByXpath?
  }

  predicate IsFinder(k: K.StepKind) {
    IsSingleFinder(k) || IsListFinder(k)
  }

  /** Kinds that read one datum from the first element of the prior result. */
  predicate IsSingleReader(k: K.StepKind) {
    k.GetText? || k.GetValue? || k.GetAttribute?
  }

  /** Kinds that act on the first element of the prior result. */
  predicate IsElementAction(k: K.StepKind) {
    k.Click? || k.Submit? || k.Write? || k.WriteSlowly? || k.ElementScreenshot? || IsSingleReader(k)
  }

  /** Kinds that read every element of the prior result. */
  predicate IsListReader(k: K.StepKind) {
    k.GetTexts? || k.GetValues? || k.GetAttributes?
  }

  /** Kinds that read `prior_step.temp_result` unconditionally. */
  predicate NeedsPrior(k: K.StepKind) {
    IsElementAction(k) || IsListReader(k) || k.RandomSelect? || k.GetElementCount?
  }

  /** What the callers of the interpreter guarantee, without which the step
      raises: a prior step for the kinds that read its result (and for
      `unset_prior_element` once its own result is set), a non-negative
      integer value for `pause` (`time.sleep` refuses the negative duration
      a negative value gives), and a random index within the candidate
      list. */
  predicate CanHandle(k: K.StepKind, value: string, own: StepResult, prior: Option<StepResult>, ans: Answers) {
    && (NeedsPrior(k) ==> prior.Some?)
    && (k.UnsetPriorElement? && !own.NoResult? ==> prior.Some?)
    && (k.Pause? ==> ParseInt(value).Some? && ParseInt(value).value >= 0)
    && (k.RandomSelect? && prior.Some? ==> ChoiceFits(prior.value, ans))
  }

  predicate ChoiceFits(p: StepResult, ans: Answers) {
    p.Many? && |p.elements| > 0 ==> ans.chosen < |p.elements|
  }

  /** The target of `scroll_to`: the value as an integer, or -1 ("to the
      bottom of the page") when it is not an integer or is 0. */
  function ScrollTarget(value: string): int {
    match ParseInt(value)
    case Some(n) => if n == 0 then -1 else n
    case None => -1
  }

  /** The pixels scrolled per increment. */
  function ScrollStep(target: int): int {
    if target > 10 || target == -1 then 10 else target
  }

  function ScrollEffect(value: string, own: StepResult, p: StepResult): Effect {
    var target := ScrollTarget(value);
    var message :=
      match ParseInt(value)
      case Some(n) => if n == 0 then ScrollingToBottom else ScrollingFor(n)
      case None => ScrollingToBottom;
    Effect(Success, own, p, [Info(message)], [], [Scroll(ScrollStep(target), target)])
  }

  /** One AddCookie command per stored cookie, in stored order. */
  function CookieCommands(jar: seq<Cookie>): (cs: seq<Command>)
    ensures |cs| == |jar|
  {
    seq(|jar|, i requires 0 <= i < |jar| => AddCookie(jar[i]))
  }

  /** `navigate` loads the page, injects the stored cookies if there are
      any, and loads the page again (also when there are none). */
  function NavigateEffect(url: string, own: StepResult, p: StepResult, stored: Option<seq<Cookie>>): Effect {
    match stored
    case Some(jar) =>
      Effect(Success, own, p, [Info(CookiesLoaded), Info(NavigatedTo(url))], [],
             [Get(url)] + CookieCommands(jar) + [Get(url)])
    case None =>
      Effect(Success, own, p, [Info(NavigatedTo(url))], [], [Get(url), Get(url)])
  }

  function ExecuteJsEffect(code: string, own: StepResult, p: StepResult, ans: Answers): Effect {
    match ans.script
    case Some(v) => Effect(Success, own, p, [Info(RanScriptWithResult)], [v], [ExecuteScript(code)])
    case None => Effect(Success, own, p, [Info(RanScriptWithoutResult)], [], [ExecuteScript(code)])
  }

  /** `find_by_id`/`find_by_name` keep the one element found and store "1";
      the list finders keep the list and store its length; when the driver
      raises NoSuchElementException the step's result is cleared, "0" is
      stored and a warning logged. */
  function FindEffect(k: K.StepKind, value: string, p: StepResult, ans: Answers): Effect
    requires IsFinder(k)
  {
    var missing := Effect(Success, NoResult, p, [Warning(NotFound(k, value))], ["0"], []);
    if IsSingleFinder(k) then
      match ans.findOne
      case Some(h) => Effect(Success, One(h), p, [Info(Found(k, value, 1))], ["1"], [])
      case None => missing
    else
      match ans.findMany
      case Some(hs) => Effect(Success, Many(hs), p, [Info(Found(k, value, |hs|))], [NatToString(|hs|)], [])
      case None => missing
  }

  /** The datum read from one element: its text, `str()` of its "value"
      attribute, or `str()` of the attribute named by the step's value. */
  function ReadValue(k: K.StepKind, value: string, ans: Answers, h: Handle): string
    requires IsSingleReader(k) || IsListReader(k)
  {
    if k.GetText? || k.GetTexts? then ans.text(h)
    else if k.GetValue? || k.GetValues? then PyStr(ans.attribute(h, "value"))
    else PyStr(ans.attribute(h, value))
  }

  /** `write_slowly` sends the value one character per command. */
  function KeyStrokes(h: Handle, s: string): (cs: seq<Command>)
    ensures |cs| == |s|
  {
    seq(|s|, i requires 0 <= i < |s| => SendKeys(h, [s[i]]))
  }

  /** The element actions: a warning and nothing else when the prior step
      left no element; otherwise the action on its first element. */
  function ElementActionEffect(k: K.StepKind, value: string, own: StepResult, p: StepResult,
                               ctx: Context, ans: Answers): Effect
    requires IsElementAction(k)
  {
    match FirstElemOrNone(p)
    case None => Effect(Success, own, p, [Warning(NoElementFor(k, value))], [], [])
    case Some(h) =>
      match k
      case Click => Effect(Success, own, p, [Info(Clicked)], [], [ClickOn(h)])
      case Submit =>
        Effect(Success, NoResult, NoResult, [Info(Submitted), Info(RemovedAfterSubmit)], [], [SubmitOn(h)])
      case Write => Effect(Success, own, p, [Info(TypedText(value))], [], [SendKeys(h, value)])
      case WriteSlowly => Effect(Success, own, p, [Info(TypedSlowly(value))], [], KeyStrokes(h, value))
      case ElementScreenshot =>
        var name := ans.screenshotName;
        var dir := ctx.screenshotDirectory;
        Effect(Success, own, p, [Info(ElementScreenshotStored(name, dir))], [name], [CaptureElement(h, dir + name)])
      case GetText =>
        var v := ReadValue(k, value, ans, h);
        Effect(Success, own, p, [Info(StoredText(v))], [v], [])
      case GetValue =>
        var v := ReadValue(k, value, ans, h);
        Effect(Success, own, p, [Info(StoredValue(v))], [v], [])
      case GetAttribute =>
        var v := ReadValue(k, value, ans, h);
        Effect(Success, own, p, [Info(StoredAttribute(v, value))], [v], [])
  }

  /** One datum per element of the normalised prior result, in list order. */
  function ReadAll(k: K.StepKind, value: string, ans: Answers, hs: seq<Handle>): (vs: seq<string>)
    requires IsListReader(k)
    ensures |vs| == |hs|
  {
    seq(|hs|, i requires 0 <= i < |hs| => ReadValue(k, value, ans, hs[i]))
  }

  function ListReadEffect(k: K.StepKind, value: string, own: StepResult, p: StepResult, ans: Answers): Effect
    requires IsListReader(k)
  {
    var hs := ElemList(p);
    var message :=
      if k.GetTexts? then StoredTexts(|hs|)
      else if k.GetValues? then StoredValues(|hs|)
      else StoredAttributes(value, |hs|);
    Effect(Success, own, p, [Info(message)], ReadAll(k, value, ans, hs), [])
  }

  /** `random_select`: the chosen element of a non-empty list (stored as its
      1-based position), the single element itself (stored as "0"), or a
      warning when there is nothing to choose from. */
  function RandomSelectEffect(own: StepResult, p: StepResult, ans: Answers): Effect
    requires ChoiceFits(p, ans)
  {
    match p
    case NoResult => Effect(Success, own, p, [Warning(NothingToSelect)], [], [])
    case Many(hs) =>
      if |hs| > 0 then
        Effect(Success, One(hs[ans.chosen]), p, [Info(RandomlySelected(ans.chosen + 1, |hs|))],
               [NatToString(ans.chosen + 1)], [])
      else
        Effect(Success, own, p, [Warning(NothingToSelect)], [], [])
    case One(h) => Effect(Success, One(h), p, [Info(OnlyOneToSelect)], ["0"], [])
  }

  function ElementCountEffect(own: StepResult, p: StepResult): Effect {
    match p
    case NoResult => Effect(Success, own, p, [Info(CountedNone)], ["0"], [])
    case Many(hs) => Effect(Success, own, p, [Info(Counted(|hs|))], [NatToString(|hs|)], [])
    case One(_) => Effect(Success, own, p, [Info(CountedOne)], ["1"], [])
  }

  /** `unset_prior_element` looks at the step's OWN result: only when that is
      set are both results cleared. */
  function UnsetEffect(own: StepResult, p: StepResult): Effect {
    if own != NoResult then Effect(Success, NoResult, NoResult, [Info(PriorRemoved)], [], [])
    else Effect(Success, own, p, [], [], [])
  }

  /** The kinds that record a value or a message. */
  predicate IsRecordKind(k: K.StepKind) {
    k.Log? || k.Data? || k.Pause? || k.Screenshot? || k.GetPagetitle? || k.GetHtmlsource?
  }

  /** The kinds that drive the page. */
  predicate IsBrowserKind(k: K.StepKind) {
    k.ExecuteJs? || k.Navigate? || k.ScrollTo? || k.GoBack? || k.GoForward?
  }

  /** The kinds that work on the prior result as a whole. */
  predicate IsResultKind(k: K.StepKind) {
    k.RandomSelect? || k.GetElementCount? || k.UnsetPriorElement?
  }

  /** The steps that record something without touching either result. */
  function RecordEffect(k: K.StepKind, value: string, own: StepResult, p: StepResult,
                        ctx: Context, ans: Answers): Effect
    requires IsRecordKind(k)
  {
    // `log` appends its entry and then falls through to the final `else`
    if k.Log? then Effect(ConfigError, own, p, [Info(Logged(value))], [], [])
    else if k.Data? then Effect(Success, own, p, [], [value], [])
    else if k.Pause? then Effect(Success, own, p, [Info(PausedFor(ans.pausedFor))], [], [])
    else if k.Screenshot? then
      var name := ans.screenshotName;
      var dir := ctx.screenshotDirectory;
      Effect(Success, own, p, [Info(ScreenshotStored(name, dir))], [name], [CapturePage(dir + name)])
    else if k.GetPagetitle? then Effect(Success, own, p, [Info(StoredTitle(ans.title))], [ans.title], [])
    else Effect(Success, own, p, [Info(StoredHtmlSource)], [ans.htmlSource], [])
  }

  /** The steps that drive the page. */
  function BrowserEffect(k: K.StepKind, value: string, own: StepResult, p: StepResult,
                         ctx: Context, ans: Answers): Effect
    requires IsBrowserKind(k)
  {
    if k.ExecuteJs? then ExecuteJsEffect(value, own, p, ans)
    else if k.Navigate? then NavigateEffect(value, own, p, ctx.storedCookies)
    else if k.ScrollTo? then ScrollEffect(value, own, p)
    else if k.GoBack? then Effect(Success, own, p, [Info(WentBack)], [], [Back])
    else Effect(Success, own, p, [Info(WentForward)], [], [Forward])
  }

  /** The steps that work on the prior result as a whole. */
  function ResultEffect(k: K.StepKind, own: StepResult, p: StepResult, ans: Answers): Effect
    requires IsResultKind(k)
    requires k.RandomSelect? ==> ChoiceFits(p, ans)
  {
    if k.RandomSelect? then RandomSelectEffect(own, p, ans)
    else if k.GetElementCount? then ElementCountEffect(own, p)
    else UnsetEffect(own, p)
  }

  /** `__handle`: the effect of a step of kind k with value `value`, own
      result `own` and prior result p. Every kind has its own branch in
      the interpreter's chain of tests; the branch of `log` is an `if` of
      its own, so a `log` step falls through to the final `else` and
      reports a configuration error. */
  function StepEffect(k: K.StepKind, value: string, own: StepResult, p: StepResult,
                      ctx: Context, ans: Answers): Effect
    requires k.RandomSelect? ==> ChoiceFits(p, ans)
  {
    if IsFinder(k) then FindEffect(k, value, p, ans)
    else if IsElementAction(k) then ElementActionEffect(k, value, own, p, ctx, ans)
    else if IsListReader(k) then ListReadEffect(k, value, own, p, ans)
    else if IsRecordKind(k) then RecordEffect(k, value, own, p, ctx, ans)
    else if IsBrowserKind(k) then BrowserEffect(k, value, own, p, ctx, ans)
    else ResultEffect(k, own, p, ans)
  }
}
