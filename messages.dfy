/** The interpreter's log entries. An entry is kept as a message together
    with its parameters; `Render` gives the exact text the interpreter
    writes for it. Proofs about steps reason about messages, never about
    their text. */
module Messages {
  import opened PyText
  import K = StepTypes

  /** `LogTypeEnum`: every entry is info unless stated otherwise. */
  datatype LogType = InfoLog | WarningLog | ErrorLog

  datatype Message =
    // the step kinds
    | Logged(text: string)
    | RanScriptWithResult
    | RanScriptWithoutResult
    | CookiesLoaded
    | NavigatedTo(url: string)
    | Clicked
    | Submitted
    | RemovedAfterSubmit
    | PausedFor(seconds: string)
    | TypedText(keys: string)
    | TypedSlowly(keys: string)
    | ScrollingFor(pixels: int)
    | ScrollingToBottom
    | WentBack
    | WentForward
    | ScreenshotStored(name: string, directory: string)
    | ElementScreenshotStored(name: string, directory: string)
    | Found(finder: K.StepKind, selector: string, count: nat)
    | NotFound(finder: K.StepKind, selector: string)
    | NoElementFor(action: K.StepKind, attribute: string)
    | NothingToSelect
    | RandomlySelected(position: nat, count: nat)
    | OnlyOneToSelect
    | StoredText(text: string)
    | StoredValue(text: string)
    | StoredAttribute(text: string, attribute: string)
    | StoredTexts(count: nat)
    | StoredValues(count: nat)
    | StoredAttributes(attribute: string, count: nat)
    | CountedNone
    | Counted(count: nat)
    | CountedOne
    | StoredTitle(title: string)
    | StoredHtmlSource
    | PriorRemoved
    // the run loop and the session
    | WaitingFor(seconds: string)
    | VirtualDisplay(width: int, height: int)
    | FirefoxWith(gecko: string)
    | FirefoxWithBinary(gecko: string, binary: string)
    | ChromeWith(driver: string)
    | BrowserNamed(browser: string)
    | BrowserNamedWith(browser: string, executable: string)
    | BrowserSize(width: int, height: int)
    | BrowserTimeout(seconds: string)
    | UserAgent(agent: string)
    | BrowserNotFound(browser: string)
    | Traceback(text: string)
    | CookiesStored
    | SessionClosed

  datatype LogEntry = LogEntry(message: Message, kind: LogType)

  function Info(m: Message): LogEntry {
    LogEntry(m, InfoLog)
  }

  function Warning(m: Message): LogEntry {
    LogEntry(m, WarningLog)
  }

  function Failure(m: Message): LogEntry {
    LogEntry(m, ErrorLog)
  }

  function Quoted(s: string): string {
    "\"" + s + "\""
  }

  /** What a finder logs when it succeeds. */
  function FoundText(k: K.StepKind, value: string, count: nat): string {
    var n := NatToString(count);
    match k
    case FindById => "Element with ID " + Quoted(value) + " retrieved (count stored as data)"
    case FindByName => "Element with name " + Quoted(value) + " retrieved (count stored as data)"
    case FindByClass => "Retrieved " + n + " element(s) with class " + Quoted(value) + " (count stored as data)"
    case FindByTag => "Retrieved " + n + " " + Quoted(value) + " element(s) (count stored as data)"
    case FindByLink => "Retrieved " + n + " element(s) with link " + Quoted(value) + " (count stored as data)"
    case FindByLinkPartial =>
      "Retrieved " + n + " element(s) with link partially equal to " + Quoted(value) + " (count stored as data)"
    case FindByCss =>
      "Retrieved " + n + " element(s) with CSS selector " + Quoted(value) + " (count stored as data)"
    case _ => "Retrieved " + n + " element(s) with XPath " + Quoted(value) + " (count stored as data)"
  }

  /** What a finder warns when the driver finds nothing. */
  function NotFoundText(k: K.StepKind, value: string): string {
    match k
    case FindById => "Element with ID " + Quoted(value) + " not found (stored 0 as data)"
    case FindByName => "No element with name " + Quoted(value) + " found (stored 0 as data)"
    case FindByClass => "No element with class " + Quoted(value) + " found (stored 0 as data)"
    case FindByTag => "No " + Quoted(value) + " element found (stored 0 as data)"
    case FindByLink => "No element with link " + Quoted(value) + " found (stored 0 as data)"
    case FindByLinkPartial => "No element with link containing " + Quoted(value) + " found (stored 0 as data)"
    case FindByCss => "No element matching CSS selector " + Quoted(value) + " found (stored 0 as data)"
    case _ => "No element from XPath " + Quoted(value) + " found (stored 0 as data)"
  }

  /** What an element action warns when there is no element. */
  function NoElementText(k: K.StepKind, attribute: string): string {
    match k
    case Click => "No element available for clicking"
    case Submit => "No element available for submitting"
    case ElementScreenshot => "No element available to screenshot"
    case GetText => "No element available to get text from"
    case GetValue => "No element available to get a value from"
    case GetAttribute => "No element available to get the attribute " + Quoted(attribute) + " from"
    case _ => "No element available for typing"
  }

  /** The text written to the log for a message. */
  function Render(m: Message): string {
    match m
    case Logged(text) => text
    case RanScriptWithResult => "Ran some JavaScript code, return values stored as data"
    case RanScriptWithoutResult => "Ran JavaScript code, no return values retrieved"
    case CookiesLoaded => "Cookies loaded for browser session"
    case NavigatedTo(url) => "Navigated to " + Quoted(url)
    case Clicked => "Clicked on previously retrieved element"
    case Submitted => "Submitted on previously retrieved element"
    case RemovedAfterSubmit => "Removed previously retrieved element as it may disappear after submit"
    case PausedFor(seconds) => "Paused for " + seconds + " seconds"
    case TypedText(keys) => "Typed " + Quoted(keys) + " on previously retrieved element"
    case TypedSlowly(keys) => "Typed " + Quoted(keys) + " very slowly on previously retrieved element"
    case ScrollingFor(pixels) => "Scrolling for " + IntToString(pixels) + " pixels"
    case ScrollingToBottom => "Scrolling to the bottom of the page"
    case WentBack => "Navigated back one page"
    case WentForward => "Navigated forward one page"
    case ScreenshotStored(name, directory) =>
      "Screenshot stored as " + Quoted(name) + " into " + Quoted(directory) + " and referenced as data"
    case ElementScreenshotStored(name, directory) =>
      "Element screenshot stored as " + Quoted(name) + " into " + Quoted(directory) + " and referenced as data"
    case Found(k, selector, count) => FoundText(k, selector, count)
    case NotFound(k, selector) => NotFoundText(k, selector)
    case NoElementFor(k, attribute) => NoElementText(k, attribute)
    case NothingToSelect => "No element from previous step found, hence no element randomly selected"
    case RandomlySelected(position, count) =>
      "Randomly selected element " + NatToString(position) + "/" + NatToString(count)
      + " (stored " + NatToString(position) + " as data)"
    case OnlyOneToSelect => "Only one element from previous step found, so this was selected \"randomly\""
    case StoredText(text) => "Retrieved and stored text \"" + Take(text, 15) + "...\" of prior element"
    case StoredValue(text) => "Retrieved and stored value \"" + Take(text, 15) + "...\" of prior element"
    case StoredAttribute(text, attribute) =>
      "Retrieved and stored value \"" + Take(text, 15) + "...\" of attribute " + Quoted(attribute)
      + " of prior element"
    case StoredTexts(count) => "Stored text from " + NatToString(count) + " element(s), each as separate data"
    case StoredValues(count) => "Stored values from " + NatToString(count) + " element(s), each as separate data"
    case StoredAttributes(attribute, count) =>
      "Stored " + Quoted(attribute) + " values from " + NatToString(count) + " element(s), each as separate data"
    case CountedNone => "No previously retrieved elements found, thus stored \"0\""
    case Counted(count) => "Counted and stored " + NatToString(count) + " element(s)"
    case CountedOne => "Counted and stored only 1 element"
    case StoredTitle(title) => "Retrieved and stored page title " + Quoted(title)
    case StoredHtmlSource => "Retrieved and stored HTML source code"
    case PriorRemoved => "Previously retrieved element removed"
    case WaitingFor(seconds) => "Waiting for " + seconds + " seconds"
    case VirtualDisplay(width, height) =>
      "Running on a virtual display at " + IntToString(width) + " by " + IntToString(height)
    case FirefoxWith(gecko) => "Browser instance set to Firefox with Geckodriver " + Quoted(gecko)
    case FirefoxWithBinary(gecko, binary) =>
      "Browser instance set to Firefox with Geckodriver " + Quoted(gecko) + " and executable path " + Quoted(binary)
    case ChromeWith(driver) => "Browser instance set to Chrome with ChromeDriver " + Quoted(driver)
    case BrowserNamed(browser) => "Browser instance set to " + browser
    case BrowserNamedWith(browser, executable) =>
      "Browser instance set to " + browser + " with executable path " + Quoted(executable)
    case BrowserSize(width, height) =>
      "Browser size set to " + IntToString(width) + " by " + IntToString(height) + " pixel"
    case BrowserTimeout(seconds) => "Browser timeout set to " + seconds + " seconds"
    case UserAgent(agent) => "User agent for this session is " + Quoted(agent)
    case BrowserNotFound(browser) => "Browser instance " + Quoted(browser) + " not found"
    case Traceback(text) => text
    case CookiesStored => "Cookies stored"
    case SessionClosed => "Browser session closed"
  }
}
