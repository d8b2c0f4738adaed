/** The step loop of the legacy CasperJS interpreter: each step object of
    the recipe's `aStep` array gets its defaults filled in place, is
    validated, logs what it does, queues at most one browser action and
    then always a wait of `oConfig.timeout`. */
module ScriptSteps {
  import opened Wrappers
  import opened PyText
  import opened JsValues
  import CM = ConfigMerge

  /** The properties of one step object that the loop reads or fills in;
      `None` is a property the object does not have. */
  datatype Props = Props(
    eType: Option<Value>, sUrl: Option<Value>, oConfig: Option<Value>, fEval: Option<Value>,
    sSel: Option<Value>, oValue: Option<Value>, bSubmit: Option<Value>, sText: Option<Value>)

  /** The `case` of the `switch` a step's `eType` selects. */
  datatype EType = Open | Reload | Evaluate | Fill | Screenshot | LogText | Other

  /** `switch` compares with `===`, so only these strings select a case;
      any other string, and any value that is not a string, selects none. */
  function Classify(eType: Value): (t: EType)
    ensures t != Other ==> eType.Str?
  {
    if !eType.Str? then Other
    else if eType.s == "open" then Open
    else if eType.s == "reload" then Reload
    else if eType.s == "eval" || eType.s == "evaluate" then Evaluate
    else if eType.s == "fill" then Fill
    else if eType.s == "shot" || eType.s == "screenshot" then Screenshot
    else if eType.s == "log" then LogText
    else Other
  }

  /** What a step writes to the log file. */
  datatype ScriptMessage =
    | NoUrl(step: nat)                                // "ERROR in step i: No URL given"
    | Opening(step: nat, url: string)                 // "[i] Opening <url>"
    | Reloading(step: nat)                            // "[i] Reloading page"
    | NoFunction(step: nat)                           // "ERROR in step i: No function given"
    | Evaluating(step: nat, name: string)             // "[i] Evaluating <name>"
    | FormMissing(step: nat)                          // "ERROR in step i: Form selector or values missing"
    | Filling(step: nat, selector: string, values: Value)  // "[i] Filling form <sel> (<JSON>)"
    | TakingScreenshot(step: nat, file: string)       // "[i] Taking screenshot into <file>"
    | Echo(text: string)                              // a `log` step's own text

  /** What a step queues on the Casper instance. */
  datatype Command =
    | OpenUrl(url: Value, settings: Value)
    | ReloadPage
    | EvaluateFunction(name: string, resultFile: string)
    | FillForm(selector: Value, values: Value, submit: Value)
    | Capture(path: string)
    | Wait(timeout: Option<Value>)

  /** A step's new properties, what it logged and what it queued. */
  datatype Outcome = Outcome(props: Props, log: seq<ScriptMessage>, commands: seq<Command>)

  /** The step loop only runs after `log('Config: …')` has read
      `oConfig.dir.prefix`, which throws unless `dir` is there and not null. */
  predicate Readable(config: CM.Config) {
    "dir" in config && !config["dir"].Null?
  }

  /** `'' + oConfig[key]`. */
  function ConfigText(config: CM.Config, key: string): string {
    Text(Get(Object(config), key))
  }

  /** `'' + oConfig.dir[name]`: a `dir` that is not an object has no such
      property. */
  function DirText(config: CM.Config, name: string): string
    requires Readable(config)
  {
    Text(Get(config["dir"], name))
  }

  /** `oConfig.timeout`. */
  function Timeout(config: CM.Config): Option<Value> {
    Get(Object(config), "timeout")
  }

  /** `oPublic[name]` is not `undefined`: one of the four extractors, or a
      name every object inherits. */
  predicate IsPublicFunction(name: string) {
    || name == "extractGoogleResults" || name == "extractDuckDuckGoResults"
    || name == "extractBingResults" || name == "extractTweets"
    || IsPrototypeMember(name)
  }

  /** The file an evaluation's results are appended to. */
  function EvalFile(config: CM.Config): string
    requires Readable(config)
  {
    DirText(config, "prefix") + DirText(config, "log") + ConfigText(config, "uid") + "_eval.json"
  }

  /** The screenshot's file name, `<uid>_<i>_<runId>.png`. */
  function ShotFile(config: CM.Config, i: nat, runId: string): string {
    ConfigText(config, "uid") + "_" + NatToString(i) + "_" + runId + ".png"
  }

  /** The step with a missing `eType` set to `open`. */
  function WithType(props: Props): (p: Props)
    ensures p.eType.Some?
  {
    if props.eType.Some? then props else props.(eType := Some(Str("open")))
  }

  /** The `switch` of one step, after the `eType` default, without the
      wait that follows it. */
  function Act(props: Props, i: nat, config: CM.Config, runId: string): (o: Outcome)
    requires Readable(config)
    ensures |o.log| <= 1 && |o.commands| <= 1
    ensures o.commands == [] || !o.commands[0].Wait?
  {
    var p := WithType(props);
    match Classify(p.eType.value)
    case Open =>
      if p.sUrl.None? then Outcome(p, [NoUrl(i)], [])
      else
        var p2 := if p.oConfig.Some? then p else p.(oConfig := Some(Object(map[])));
        Outcome(p2, [Opening(i, Text(p.sUrl))], [OpenUrl(p.sUrl.value, p2.oConfig.value)])
    case Reload => Outcome(p, [Reloading(i)], [ReloadPage])
    case Evaluate =>
      var name := Text(p.fEval);
      if !IsPublicFunction(name) then Outcome(p, [NoFunction(i)], [])
      else Outcome(p, [Evaluating(i, name)], [EvaluateFunction(name, EvalFile(config))])
    case Fill =>
      if p.sSel.None? || p.oValue.None? then Outcome(p, [FormMissing(i)], [])
      else
        var p2 := if p.bSubmit.Some? then p else p.(bSubmit := Some(Bool(false)));
        Outcome(p2, [Filling(i, Text(p.sSel), p.oValue.value)],
                [FillForm(p.sSel.value, p.oValue.value, p2.bSubmit.value)])
    case Screenshot =>
      var file := ShotFile(config, i, runId);
      Outcome(p, [TakingScreenshot(i, file)],
              [Capture(DirText(config, "prefix") + DirText(config, "screenshot") + file)])
    case LogText =>
      if p.sText.Some? then Outcome(p, [Echo(Text(p.sText))], []) else Outcome(p, [], [])
    case Other => Outcome(p, [], [])
  }

  /** Step `i` of the loop: the `switch`, then `this.wait(oConfig.timeout)`. */
  function StepOutcome(props: Props, i: nat, config: CM.Config, runId: string): Outcome
    requires Readable(config)
  {
    var o := Act(props, i, config, runId);
    o.(commands := o.commands + [Wait(Timeout(config))])
  }

  /** The number of waits among some commands. */
  function Waits(cs: seq<Command>): (n: nat)
    ensures n <= |cs|
  {
    if cs == [] then 0 else Waits(cs[..|cs| - 1]) + (if cs[|cs| - 1].Wait? then 1 else 0)
  }

  /** A step without `eType` behaves exactly as the same step with
      `eType: 'open'`. */
  lemma MissingTypeActsAsOpen(props: Props, i: nat, config: CM.Config, runId: string)
    requires Readable(config) && props.eType.None?
    ensures StepOutcome(props, i, config, runId)
            == StepOutcome(props.(eType := Some(Str("open"))), i, config, runId)
  {
  }

  /** An `open` step without `sUrl` logs an error and only waits; with one
      it opens that URL with its `oConfig`, which defaults to `{}`. */
  lemma OpenStep(props: Props, i: nat, config: CM.Config, runId: string)
    requires Readable(config) && Classify(WithType(props).eType.value) == Open
    ensures var o := StepOutcome(props, i, config, runId);
      && (props.sUrl.None? ==> o.log == [NoUrl(i)] && o.commands == [Wait(Timeout(config))])
      && (props.sUrl.Some? ==>
            && o.log == [Opening(i, Text(props.sUrl))]
            && o.commands == [OpenUrl(props.sUrl.value, if props.oConfig.Some? then props.oConfig.value else Object(map[])),
                              Wait(Timeout(config))]
            && o.props.oConfig == Some(o.commands[0].settings))
  {
  }

  /** A `fill` step without `sSel` or without `oValue` logs an error and
      only waits; otherwise it fills the form, submitting it as `bSubmit`
      says, which defaults to (and is set to) `false`. */
  lemma FillStep(props: Props, i: nat, config: CM.Config, runId: string)
    requires Readable(config) && Classify(WithType(props).eType.value) == Fill
    ensures var o := StepOutcome(props, i, config, runId);
      && (o.log == [FormMissing(i)] <==> props.sSel.None? || props.oValue.None?)
      && (props.sSel.None? || props.oValue.None? ==> o.commands == [Wait(Timeout(config))] && o.props == props)
      && (props.sSel.Some? && props.oValue.Some? ==>
            && o.props.bSubmit == Some(if props.bSubmit.Some? then props.bSubmit.value else Bool(false))
            && o.commands == [FillForm(props.sSel.value, props.oValue.value, o.props.bSubmit.value),
                              Wait(Timeout(config))])
  {
  }

  /** An `eType` that matches no case, a string other than the eight names
      or a value that is not a string, logs nothing, changes nothing and
      only waits. */
  lemma UnknownTypeOnlyWaits(props: Props, i: nat, config: CM.Config, runId: string)
    requires Readable(config) && props.eType.Some? && Classify(props.eType.value) == Other
    ensures StepOutcome(props, i, config, runId) == Outcome(props, [], [Wait(Timeout(config))])
  {
  }

  /** An evaluation runs only a function `oPublic` has; otherwise the step
      logs an error and only waits. */
  lemma EvaluateStep(props: Props, i: nat, config: CM.Config, runId: string)
    requires Readable(config) && Classify(WithType(props).eType.value) == Evaluate
    ensures var o := StepOutcome(props, i, config, runId);
      && (|o.commands| == 2 <==> IsPublicFunction(Text(props.fEval)))
      && (|o.commands| == 2 ==> o.commands[0] == EvaluateFunction(Text(props.fEval), EvalFile(config)))
      && (|o.commands| == 1 ==> o.log == [NoFunction(i)])
  {
  }

  /** A screenshot step captures the page into the configured screenshot
      directory under its own file name, a log step echoes its text when it
      has one and otherwise only waits, and a reload step reloads; none of
      them changes the step's properties beyond the `eType` default. */
  lemma ShotLogAndReloadSteps(props: Props, i: nat, config: CM.Config, runId: string)
    requires Readable(config)
    ensures var o := StepOutcome(props, i, config, runId);
            var t := Classify(WithType(props).eType.value);
      && (t == Screenshot ==>
            && o.log == [TakingScreenshot(i, ShotFile(config, i, runId))]
            && o.commands == [Capture(DirText(config, "prefix") + DirText(config, "screenshot") + ShotFile(config, i, runId)),
                              Wait(Timeout(config))])
      && (t == LogText ==>
            && (o.log == [] <==> props.sText.None?)
            && (props.sText.Some? ==> o.log == [Echo(Text(props.sText))])
            && o.commands == [Wait(Timeout(config))])
      && (t == Reload ==> o.log == [Reloading(i)] && o.commands == [ReloadPage, Wait(Timeout(config))])
      && (t == Screenshot || t == LogText || t == Reload ==> o.props == WithType(props))
  {
  }

  /** Two steps of one run never take their screenshots into the same file:
      the step's index is part of the name. */
  lemma ScreenshotsOfOneRunDiffer(config: CM.Config, i: nat, j: nat, runId: string)
    requires i != j
    ensures ShotFile(config, i, runId) != ShotFile(config, j, runId)
  {
    var u := ConfigText(config, "uid") + "_";
    var a, b := NatToString(i), NatToString(j);
    var tail := "_" + runId + ".png";
    assert ShotFile(config, i, runId) == u + a + tail;
    assert ShotFile(config, j, runId) == u + b + tail;
    if u + a + tail == u + b + tail {
      assert a == (u + a + tail)[|u|..|u| + |a|];
      assert b == (u + b + tail)[|u|..|u| + |b|];
      ParseIntOfNatToString(i);
      ParseIntOfNatToString(j);
    }
  }

  /** Every step logs at most one line and queues at most one action,
      followed by exactly one wait for `oConfig.timeout`, which is its last
      command. */
  lemma EveryStepWaitsOnce(props: Props, i: nat, config: CM.Config, runId: string)
    requires Readable(config)
    ensures var o := StepOutcome(props, i, config, runId);
      && |o.log| <= 1 && 1 <= |o.commands| <= 2
      && o.commands[|o.commands| - 1] == Wait(Timeout(config))
      && Waits(o.commands) == 1
  {
    var o := Act(props, i, config, runId);
    var cs := o.commands + [Wait(Timeout(config))];
    assert cs[..|cs| - 1] == o.commands;
    if |o.commands| == 1 {
      assert o.commands[..0] == [];
    }
  }

  /** Defaulting only adds properties, never changes one the step had,
      and adds nothing but `eType`, `oConfig` and `bSubmit`. */
  lemma DefaultsOnlyAdd(props: Props, i: nat, config: CM.Config, runId: string)
    requires Readable(config)
    ensures var p := StepOutcome(props, i, config, runId).props;
      && p.sUrl == props.sUrl && p.fEval == props.fEval && p.sSel == props.sSel
      && p.oValue == props.oValue && p.sText == props.sText
      && (props.eType.Some? ==> p.eType == props.eType)
      && (props.oConfig.Some? ==> p.oConfig == props.oConfig)
      && (props.bSubmit.Some? ==> p.bSubmit == props.bSubmit)
  {
  }

  /** Running a step again on its defaulted properties changes nothing
      more and does the same: the defaults are idempotent. */
  lemma DefaultsAreIdempotent(props: Props, i: nat, config: CM.Config, runId: string)
    requires Readable(config)
    ensures var o := StepOutcome(props, i, config, runId);
      StepOutcome(o.props, i, config, runId) == o
  {
  }

  /** Waits add up over a concatenation. */
  lemma {:induction false} WaitsOfConcat(a: seq<Command>, b: seq<Command>)
    ensures Waits(a + b) == Waits(a) + Waits(b)
    decreases |b|
  {
    if b != [] {
      var b' := b[..|b| - 1];
      assert (a + b)[..|a + b| - 1] == a + b';
      WaitsOfConcat(a, b');
    } else {
      assert a + b == a;
    }
  }

  /** The step objects, the log and the queue, as the loop goes along. */
  datatype Progress = Progress(steps: seq<Props>, log: seq<ScriptMessage>, commands: seq<Command>)

  /** The function the loop queues for each step, applied to the step
      object and its index. */
  function Step(config: CM.Config, runId: string): (Props, nat) -> Outcome
    requires Readable(config)
  {
    (props: Props, i: nat) => StepOutcome(props, i, config, runId)
  }

  /** Running the function queued for step `i` on a state: the step object
      gets its new properties, its log lines and commands are appended. */
  function Next(s: Progress, i: nat, step: (Props, nat) -> Outcome): (r: Progress)
    requires i < |s.steps|
    ensures |r.steps| == |s.steps|
  {
    var o := step(s.steps[i], i);
    Progress(s.steps[i := o.props], s.log + o.log, s.commands + o.commands)
  }

  /** The state after the loop's first `n` iterations. */
  function Advance(s: Progress, n: nat, step: (Props, nat) -> Outcome): (r: Progress)
    requires n <= |s.steps|
    ensures |r.steps| == |s.steps|
  {
    if n == 0 then s else Next(Advance(s, n - 1, step), n - 1, step)
  }

  /** After `n` iterations the first `n` step objects carry their new
      properties and the others are untouched: every iteration works on
      its own step object. */
  lemma {:induction false} AdvanceDefaultsSteps(s: Progress, n: nat, step: (Props, nat) -> Outcome)
    requires n <= |s.steps|
    ensures var r := Advance(s, n, step);
      && (forall k :: 0 <= k < n ==> r.steps[k] == step(s.steps[k], k).props)
      && (forall k :: n <= k < |s.steps| ==> r.steps[k] == s.steps[k])
  {
    if n > 0 {
      AdvanceDefaultsSteps(s, n - 1, step);
    }
  }

  /** Iteration `n` logs and queues what step `n`, as the recipe gave it,
      logs and queues: the earlier iterations do not affect it. */
  lemma AdvanceAppendsStepOutcome(s: Progress, n: nat, step: (Props, nat) -> Outcome)
    requires n < |s.steps|
    ensures var before := Advance(s, n, step);
            var after := Advance(s, n + 1, step);
            var o := step(s.steps[n], n);
      after.log == before.log + o.log && after.commands == before.commands + o.commands
  {
    AdvanceDefaultsSteps(s, n, step);
  }

  /** The loop only appends: what was logged and queued before stays, and
      when each step logs at most one line, the loop logs at most `n`. */
  lemma {:induction false} AdvanceOnlyAppends(s: Progress, n: nat, step: (Props, nat) -> Outcome)
    requires n <= |s.steps|
    requires forall props, i :: |step(props, i).log| <= 1
    ensures var r := Advance(s, n, step);
      && |s.log| <= |r.log| <= |s.log| + n && r.log[..|s.log|] == s.log
      && |s.commands| <= |r.commands| && r.commands[..|s.commands|] == s.commands
  {
    if n > 0 {
      AdvanceOnlyAppends(s, n - 1, step);
      var prev := Advance(s, n - 1, step);
      var r := Advance(s, n, step);
      assert r.log[..|prev.log|] == prev.log;
      assert r.commands[..|prev.commands|] == prev.commands;
    }
  }

  /** When each step queues exactly one wait, the loop queues exactly `n`. */
  lemma {:induction false} AdvanceCountsWaits(s: Progress, n: nat, step: (Props, nat) -> Outcome)
    requires n <= |s.steps|
    requires forall props, i :: Waits(step(props, i).commands) == 1
    ensures Waits(Advance(s, n, step).commands) == Waits(s.commands) + n
  {
    if n > 0 {
      AdvanceCountsWaits(s, n - 1, step);
      var prev := Advance(s, n - 1, step);
      WaitsOfConcat(prev.commands, step(prev.steps[n - 1], n - 1).commands);
    }
  }

  /** The interpreter's loop logs at most one line per step and queues
      exactly one wait per step, after what was there before. */
  lemma OneWaitPerStep(s: Progress, n: nat, config: CM.Config, runId: string)
    requires Readable(config) && n <= |s.steps|
    ensures var r := Advance(s, n, Step(config, runId));
      && |s.log| <= |r.log| <= |s.log| + n && r.log[..|s.log|] == s.log
      && |s.commands| <= |r.commands| && r.commands[..|s.commands|] == s.commands
      && Waits(r.commands) == Waits(s.commands) + n
  {
    var step := Step(config, runId);
    forall props, i
      ensures |step(props, i).log| <= 1 && Waits(step(props, i).commands) == 1
    {
      EveryStepWaitsOnce(props, i, config, runId);
    }
    AdvanceOnlyAppends(s, n, step);
    AdvanceCountsWaits(s, n, step);
  }

  /** The Casper instance as the step loop sees it: the merged
      configuration, the run's id, the recipe's step objects (each one the
      loop fills in place), the log file and the queued commands. */
  class Interpreter {
    const config: CM.Config
    const runId: string
    var aStep: seq<Props>
    var log: seq<ScriptMessage>
    var commands: seq<Command>

    constructor (config: CM.Config, runId: string, aStep: seq<Props>)
      ensures this.config == config && this.runId == runId && this.aStep == aStep
      ensures log == [] && commands == []
    {
      this.config := config;
      this.runId := runId;
      this.aStep := aStep;
      log := [];
      commands := [];
    }

    /** The function queued for step `i`, run on the step object
        `aStep[i]`. */
    method RunStep(i: nat)
      requires Readable(config) && i < |aStep|
      modifies this
      ensures Progress(aStep, log, commands) == Next(old(Progress(aStep, log, commands)), i, Step(config, runId))
    {
      ghost var o := StepOutcome(aStep[i], i, config, runId);
      var step := aStep[i];
      if step.eType.None? {
        step := step.(eType := Some(Str("open")));
      }
      match Classify(step.eType.value) {
        case Open =>
          if step.sUrl.None? {
            log := log + [NoUrl(i)];
          } else {
            if step.oConfig.None? {
              step := step.(oConfig := Some(Object(map[])));
            }
            log := log + [Opening(i, Text(step.sUrl))];
            commands := commands + [OpenUrl(step.sUrl.value, step.oConfig.value)];
          }
        case Reload =>
          log := log + [Reloading(i)];
          commands := commands + [ReloadPage];
        case Evaluate =>
          var name := Text(step.fEval);
          if !IsPublicFunction(name) {
            log := log + [NoFunction(i)];
          } else {
            log := log + [Evaluating(i, name)];
            commands := commands + [EvaluateFunction(name, EvalFile(config))];
          }
        case Fill =>
          if step.sSel.None? || step.oValue.None? {
            log := log + [FormMissing(i)];
          } else {
            if step.bSubmit.None? {
              step := step.(bSubmit := Some(Bool(false)));
            }
            log := log + [Filling(i, Text(step.sSel), step.oValue.value)];
            commands := commands + [FillForm(step.sSel.value, step.oValue.value, step.bSubmit.value)];
          }
        case Screenshot =>
          var file := ShotFile(config, i, runId);
          log := log + [TakingScreenshot(i, file)];
          commands := commands + [Capture(DirText(config, "prefix") + DirText(config, "screenshot") + file)];
        case LogText =>
          if step.sText.Some? {
            log := log + [Echo(Text(step.sText))];
          }
        case Other =>
      }
      commands := commands + [Wait(Timeout(config))];
      aStep := aStep[i := step];
      assert step == o.props && log == old(log) + o.log && commands == old(commands) + o.commands;
    }

    /** The loop over `aStep`: each step in order, each on its own object. */
    method RunSteps()
      requires Readable(config)
      modifies this
      ensures Progress(aStep, log, commands) == Advance(old(Progress(aStep, log, commands)), |old(aStep)|, Step(config, runId))
    {
      ghost var start := Progress(aStep, log, commands);
      ghost var step := Step(config, runId);
      for i := 0 to |aStep|
        invariant Progress(aStep, log, commands) == Advance(start, i, step)
      {
        RunStep(i);
      }
    }
  }
}
