/** Which WebDriver executable the session uses when none is configured:
    chosen from the host's operating system, machine and architecture, and
    which driver class a browser name leads to. */
module DriverPaths {
  import opened Wrappers
  import opened PyText

  /** `platform.system()`, `platform.machine()` and `platform.architecture()[0]`. */
  datatype Platform = Platform(system: string, machine: string, architecture: string)

  predicate IsArm(p: Platform) {
    StartsWith(Lower(p.machine), "arm")
  }

  /** The word size suffix of the Firefox driver: "32" on a 32-bit
      interpreter, "64" otherwise. */
  function GeckoBits(p: Platform): string {
    if StartsWith(p.architecture, "32") then "32" else "64"
  }

  /** The bundled geckodriver for this host. */
  function GeckoPath(p: Platform): string {
    if p.system == "Linux" then
      if IsArm(p) then "lib/geckodriver-arm-v0.23" else "lib/geckodriver-linux" + GeckoBits(p)
    else if p.system == "Darwin" then "lib/geckodriver-macos"
    else "lib/geckodriver-win" + GeckoBits(p) + ".exe"
  }

  /** The bundled chromedriver for this host. */
  function ChromePath(p: Platform): string {
    if p.system == "Linux" then
      if IsArm(p) then "lib/chromedriver-arm" else "lib/chromedriver-linux"
    else if p.system == "Darwin" then "lib/chromedriver-macos"
    else "lib/chromedriver-win.exe"
  }

  /** The driver a session is launched with. */
  datatype Driver =
    | Firefox(gecko: string, binary: Option<string>)
    | Chrome(executable: string)
    | Named(browser: string)

  /** The driver chosen for the configured browser name and executable path
      (an empty path means "not configured"). */
  function SelectDriver(browser: string, executable: string, p: Platform): Driver {
    if browser == "Firefox" then
      Firefox(GeckoPath(p), if executable == "" then None else Some(executable))
    else if browser == "Chrome" then
      Chrome(if executable == "" then ChromePath(p) else executable)
    else if executable == "" then Named(browser)
    else Chrome(executable)
  }

  predicate EndsWith(s: string, suffix: string) {
    |suffix| <= |s| && s[|s| - |suffix|..] == suffix
  }

  /** `str.lower()` applied twice lowers no further. */
  lemma LowerIdempotent(s: string)
    ensures Lower(Lower(s)) == Lower(s)
  {
  }

  /** The ARM test ignores the case of the machine name: the bundled paths
      depend on the machine name only through its lower-case form. */
  lemma DriverPathsIgnoreMachineCase(p: Platform)
    ensures GeckoPath(p) == GeckoPath(p.(machine := Lower(p.machine)))
    ensures ChromePath(p) == ChromePath(p.(machine := Lower(p.machine)))
  {
    LowerIdempotent(p.machine);
  }

  /** Only hosts that are neither Linux nor macOS get a Windows ".exe" driver,
      and the word size matters only for Firefox on x86 Linux and Windows. */
  lemma WindowsIsTheFallback(p: Platform)
    ensures EndsWith(GeckoPath(p), ".exe") <==> p.system != "Linux" && p.system != "Darwin"
    ensures EndsWith(ChromePath(p), ".exe") <==> p.system != "Linux" && p.system != "Darwin"
    ensures p.system == "Darwin" || (p.system == "Linux" && IsArm(p))
            ==> GeckoPath(p) == GeckoPath(p.(architecture := "64bit"))
  {
    var g := GeckoPath(p);
    if p.system == "Linux" && !IsArm(p) {
      assert g[|g| - 1] == GeckoBits(p)[1] != 'e';
    }
  }

  /** The executable a driver is started from: the geckodriver for
      Firefox, the chromedriver for Chrome, none for a driver class chosen
      by name. */
  function DriverExecutable(d: Driver): Option<string> {
    match d
    case Firefox(gecko, _) => Some(gecko)
    case Chrome(executable) => Some(executable)
    case Named(_) => None
  }

  /** The bundled drivers live under `lib/`. */
  lemma BundledDriversAreInLib(p: Platform)
    ensures StartsWith(GeckoPath(p), "lib/") && StartsWith(ChromePath(p), "lib/")
  {
  }

  /** A configured executable is never ignored: Firefox runs it as the
      browser binary, and every other browser name runs it as a Chrome
      driver, so no driver class is ever chosen by name. */
  lemma ConfiguredExecutableIsUsed(browser: string, executable: string, p: Platform)
    requires executable != ""
    ensures var d := SelectDriver(browser, executable, p);
      && !d.Named?
      && (d.Firefox? <==> browser == "Firefox")
      && (d.Firefox? ==> d.binary == Some(executable))
      && (d.Chrome? ==> d.executable == executable)
  {
  }

  /** Without a configured executable only bundled drivers are run: the
      driver's executable, when it has one, is a non-empty path under `lib/`
      that ends in ".exe" exactly off Linux and macOS, and a browser other
      than Firefox and Chrome gets its own driver class. */
  lemma UnconfiguredUsesBundledDriver(browser: string, p: Platform)
    ensures var d := SelectDriver(browser, "", p);
      && (d.Named? <==> browser != "Firefox" && browser != "Chrome")
      && (d.Firefox? ==> d.binary.None?)
      && (DriverExecutable(d).Some? ==>
            && StartsWith(DriverExecutable(d).value, "lib/")
            && (EndsWith(DriverExecutable(d).value, ".exe") <==> p.system != "Linux" && p.system != "Darwin"))
  {
    BundledDriversAreInLib(p);
    WindowsIsTheFallback(p);
  }
}
