/** Properties of the step interpreter's effect, one group per family of
    step kinds, and the end-to-end scenarios a recipe author relies on. */
module DispatchProperties {
  import opened Wrappers
  import opened PyText
  import opened Elements
  import opened Messages
  import opened Dispatch
  import K = StepTypes

  /** The shape every recognised kind's effect has: only `log` reports a
      configuration error; only the finders, `random_select`, `submit` and
      `unset_prior_element` replace the step's own result; only `submit`
      and `unset_prior_element` touch the prior step's, and only to clear
      it; and only `data` and an `unset_prior_element` whose own result is
      unset leave no log entry. */
  predicate Shaped(k: K.StepKind, own: StepResult, p: StepResult, e: Effect) {
    && e.status == (if k.Log? then ConfigError else Success)
    && (e.own != own ==> IsFinder(k) || k.RandomSelect? || k.Submit? || k.UnsetPriorElement?)
    && (e.prior != p ==> (k.Submit? || k.UnsetPriorElement?) && e.prior == NoResult)
    && (e.log == [] <==> k.Data? || (k.UnsetPriorElement? && own == NoResult))
  }

  lemma FindersAreShaped(k: K.StepKind, value: string, own: StepResult, p: StepResult, ans: Answers)
    requires IsFinder(k)
    ensures Shaped(k, own, p, FindEffect(k, value, p, ans))
  {
  }

  lemma ElementActionsAreShaped(k: K.StepKind, value: string, own: StepResult, p: StepResult,
                                ctx: Context, ans: Answers)
    requires IsElementAction(k)
    ensures Shaped(k, own, p, ElementActionEffect(k, value, own, p, ctx, ans))
  {
    if FirstElemOrNone(p).Some? {
      if k.Submit? {
      } else if k.WriteSlowly? {
      }
    }
  }

  lemma OtherKindsAreShaped(k: K.StepKind, value: string, own: StepResult, p: StepResult,
                            ctx: Context, ans: Answers)
    requires !IsFinder(k) && !IsElementAction(k) && !IsListReader(k)
    requires k.RandomSelect? ==> ChoiceFits(p, ans)
    ensures Shaped(k, own, p, StepEffect(k, value, own, p, ctx, ans))
  {
    match k
    case Navigate =>
    case RandomSelect =>
    case ScrollTo =>
    case Pause =>
    case GetPagetitle =>
    case GetElementCount =>
    case GetHtmlsource =>
    case Log =>
    case Data =>
    case ExecuteJs =>
    case GoBack =>
    case GoForward =>
    case UnsetPriorElement =>
    case Screenshot =>
  }

  lemma StepEffectShape(k: K.StepKind, value: string, own: StepResult, p: StepResult, ctx: Context, ans: Answers)
    requires k.RandomSelect? ==> ChoiceFits(p, ans)
    ensures Shaped(k, own, p, StepEffect(k, value, own, p, ctx, ans))
  {
    if IsFinder(k) {
      FindersAreShaped(k, value, own, p, ans);
    } else if IsElementAction(k) {
      ElementActionsAreShaped(k, value, own, p, ctx, ans);
    } else if !IsListReader(k) {
      OtherKindsAreShaped(k, value, own, p, ctx, ans);
    }
  }

  /** Every finder stores exactly one datum, and that datum is the decimal
      count of the elements it now holds: "1" for a single element, the
      list length for a list, "0" (with a warning and a cleared result)
      when the driver found nothing. */
  predicate StoresItsCount(p: StepResult, e: Effect) {
    && |e.data| == 1
    && ParseInt(e.data[0]) == Some(|ElemList(e.own)|)
    && e.prior == p && e.commands == [] && |e.log| == 1
    && (e.own == NoResult <==> e.log[0].kind == WarningLog)
  }

  lemma SingleFinderStoresItsCount(k: K.StepKind, value: string, p: StepResult, ans: Answers)
    requires IsSingleFinder(k)
    ensures StoresItsCount(p, FindEffect(k, value, p, ans))
    ensures FindEffect(k, value, p, ans).own == match ans.findOne case Some(h) => One(h) case None => NoResult
  {
    match ans.findOne
    case Some(h) =>
      assert NatToString(1) == "1";
      ParseIntOfNatToString(1);
    case None =>
      assert NatToString(0) == "0";
      ParseIntOfNatToString(0);
  }

  lemma ListFinderStoresItsCount(k: K.StepKind, value: string, p: StepResult, ans: Answers)
    requires IsListFinder(k)
    ensures StoresItsCount(p, FindEffect(k, value, p, ans))
    ensures FindEffect(k, value, p, ans).own == match ans.findMany case Some(hs) => Many(hs) case None => NoResult
  {
    assert !IsSingleFinder(k);
    match ans.findMany
    case Some(hs) =>
      assert FindEffect(k, value, p, ans)
          == Effect(Success, Many(hs), p, [Info(Found(k, value, |hs|))], [NatToString(|hs|)], []);
      ParseIntOfNatToString(|hs|);
    case None =>
      assert NatToString(0) == "0";
      ParseIntOfNatToString(0);
  }

  /** A list finder that finds an empty list still counts as found: the
      result is the empty list, "0" is stored, and no warning is logged. */
  lemma EmptyListIsFoundNotMissing(k: K.StepKind, value: string, p: StepResult, ans: Answers)
    requires IsListFinder(k) && ans.findMany == Some([])
    ensures var e := FindEffect(k, value, p, ans);
            e.own == Many([]) && e.data == ["0"] && e.log[0].kind == InfoLog
  {
  }

  /** The element actions do nothing but warn when the prior step left no
      element (none, or an empty list). */
  lemma ElementActionWithoutElementOnlyWarns(k: K.StepKind, value: string, own: StepResult, p: StepResult,
                                            ctx: Context, ans: Answers)
    requires IsElementAction(k) && ElemList(p) == []
    ensures var e := ElementActionEffect(k, value, own, p, ctx, ans);
            && e == Effect(Success, own, p, [Warning(NoElementFor(k, value))], [], [])
            && |e.log| == 1 && e.log[0].kind == WarningLog
  {
    FirstElemIsHeadOfElemList(p);
  }

  /** Otherwise an element action acts on the FIRST element: clicking,
      submitting and typing target it, and the single-element readers store
      exactly one datum read from it. */
  lemma ElementActionTargetsFirstElement(k: K.StepKind, value: string, own: StepResult, p: StepResult,
                                         ctx: Context, ans: Answers)
    requires IsElementAction(k) && ElemList(p) != []
    ensures var e := ElementActionEffect(k, value, own, p, ctx, ans);
            var h := ElemList(p)[0];
            && (k.Click? ==> e.commands == [ClickOn(h)])
            && (k.Submit? ==> e.commands == [SubmitOn(h)])
            && (k.Write? ==> e.commands == [SendKeys(h, value)])
            && (k.ElementScreenshot? ==>
                  e.commands == [CaptureElement(h, ctx.screenshotDirectory + ans.screenshotName)]
                  && e.data == [ans.screenshotName])
            && (IsSingleReader(k) ==>
                  e.data == [ReadValue(k, value, ans, h)] && e.commands == [])
            && (forall c :: c in e.commands ==> c.element == h)
            && (!k.Submit? ==> e.own == own && e.prior == p)
            && (forall entry :: entry in e.log ==> entry.kind == InfoLog)
  {
    FirstElemIsHeadOfElemList(p);
  }

  /** `submit` forgets both results after submitting, since the form's page
      may be gone. */
  lemma SubmitClearsBothResults(value: string, own: StepResult, p: StepResult, ctx: Context, ans: Answers)
    requires ElemList(p) != []
    ensures var e := ElementActionEffect(K.Submit, value, own, p, ctx, ans);
            e.own == NoResult && e.prior == NoResult && |e.log| == 2
  {
    FirstElemIsHeadOfElemList(p);
  }

  /** The text typed by a sequence of commands: the concatenation of the
      keys of its SendKeys commands. */
  function Typed(cs: seq<Command>): string {
    if cs == [] then []
    else Typed(cs[..|cs| - 1]) + (if cs[|cs| - 1].SendKeys? then cs[|cs| - 1].keys else [])
  }

  lemma {:induction false} TypedKeyStrokes(h: Handle, s: string)
    ensures Typed(KeyStrokes(h, s)) == s
    decreases |s|
  {
    if s != [] {
      var n := |s| - 1;
      assert KeyStrokes(h, s)[..n] == KeyStrokes(h, s[..n]);
      TypedKeyStrokes(h, s[..n]);
      assert s == s[..n] + [s[n]];
    }
  }

  /** `write_slowly` types the same text as `write`, into the same element,
      one character per command. */
  lemma WriteSlowlyTypesWhatWriteTypes(value: string, own: StepResult, p: StepResult, ctx: Context, ans: Answers)
    requires ElemList(p) != []
    ensures var slow := ElementActionEffect(K.WriteSlowly, value, own, p, ctx, ans);
            var fast := ElementActionEffect(K.Write, value, own, p, ctx, ans);
            && Typed(slow.commands) == Typed(fast.commands) == value
            && |slow.commands| == |value|
            && (forall i :: 0 <= i < |slow.commands| ==>
                  slow.commands[i] == SendKeys(ElemList(p)[0], [value[i]]))
  {
    FirstElemIsHeadOfElemList(p);
    var h := ElemList(p)[0];
    var slow := ElementActionEffect(K.WriteSlowly, value, own, p, ctx, ans);
    var fast := ElementActionEffect(K.Write, value, own, p, ctx, ans);
    assert slow.commands == KeyStrokes(h, value);
    assert fast.commands == [SendKeys(h, value)];
    TypedKeyStrokes(h, value);
    assert Typed([SendKeys(h, value)]) == Typed([]) + value;
  }

  /** The list readers store one datum per element of the normalised prior
      result, in order, and log one summary line with that number. */
  lemma ListReaderStoresOnePerElement(k: K.StepKind, value: string, own: StepResult, p: StepResult, ans: Answers)
    requires IsListReader(k)
    ensures var e := ListReadEffect(k, value, own, p, ans);
            && |e.data| == |ElemList(p)|
            && (forall i :: 0 <= i < |e.data| ==> e.data[i] == ReadValue(k, value, ans, ElemList(p)[i]))
            && e.own == own && e.prior == p && e.commands == [] && |e.log| == 1 && e.log[0].kind == InfoLog
  {
  }

  /** The list reader that belongs to a single-element reader. */
  function ListCounterpart(k: K.StepKind): (l: K.StepKind)
    requires IsSingleReader(k)
    ensures IsListReader(l) && l != k
  {
    match k
    case GetText => K.GetTexts
    case GetValue => K.GetValues
    case GetAttribute => K.GetAttributes
  }

  /** `get_text` (`get_value`, `get_attribute`) stores exactly the first
      datum its list counterpart would store, and nothing when that stores
      nothing. */
  lemma SingleReaderTakesHeadOfListReader(k: K.StepKind, value: string, own: StepResult, p: StepResult,
                                          ctx: Context, ans: Answers)
    requires IsSingleReader(k)
    ensures var one := ElementActionEffect(k, value, own, p, ctx, ans);
            var all := ListReadEffect(ListCounterpart(k), value, own, p, ans);
            && |one.data| <= 1
            && one.data == all.data[..|one.data|]
            && (one.data == [] <==> all.data == [])
  {
    FirstElemIsHeadOfElemList(p);
  }

  /** `get_element_count` stores the number of elements of the prior
      result, as `__get_elem_list` would list them. */
  lemma ElementCountIsListLength(own: StepResult, p: StepResult)
    ensures var e := ElementCountEffect(own, p);
            && |e.data| == 1 && ParseInt(e.data[0]) == Some(|ElemList(p)|)
            && e.own == own && e.prior == p && |e.log| == 1 && e.log[0].kind == InfoLog
  {
    ParseIntOfNatToString(|ElemList(p)|);
  }

  /** `random_select` from a non-empty list keeps the chosen element and
      stores its 1-based position, which identifies it in the list; a
      single element is kept with "0" stored; nothing to choose from is a
      warning that changes nothing. */
  lemma RandomSelectStoresPosition(own: StepResult, p: StepResult, ans: Answers)
    requires ChoiceFits(p, ans)
    ensures var e := RandomSelectEffect(own, p, ans);
            && e.prior == p && e.commands == [] && |e.log| == 1
            && (ElemList(p) == [] ==> e.own == own && e.data == [] && e.log[0].kind == WarningLog)
            && (p.One? ==> e.own == p && e.data == ["0"])
            && (p.Many? && ElemList(p) != [] ==>
                  && |e.data| == 1
                  && ParseInt(e.data[0]) == Some(ans.chosen + 1)
                  && 1 <= ans.chosen + 1 <= |p.elements|
                  && e.own == One(p.elements[ans.chosen]))
  {
    ParseIntOfNatToString(ans.chosen + 1);
  }

  /** Whenever `random_select` keeps an element, that element was in the
      prior result. */
  lemma RandomSelectKeepsAPriorElement(own: StepResult, p: StepResult, ans: Answers)
    requires ChoiceFits(p, ans)
    ensures var e := RandomSelectEffect(own, p, ans);
            e.own != own ==> e.own.One? && e.own.element in ElemList(p)
  {
  }

  /** `unset_prior_element` tests the step's own result, which a fresh step
      does not have: then it keeps the prior result and logs nothing. */
  lemma UnsetOnFreshStepKeepsPrior(p: StepResult)
    ensures UnsetEffect(NoResult, p) == Effect(Success, NoResult, p, [], [], [])
  {
  }

  /** Unsetting twice is unsetting once. */
  lemma UnsetIsIdempotent(own: StepResult, p: StepResult)
    ensures var e1 := UnsetEffect(own, p);
            var e2 := UnsetEffect(e1.own, e1.prior);
            e2.own == e1.own && e2.prior == e1.prior && e2.log == [] && e2.data == [] && e2.commands == []
  {
  }

  /** `scroll_to` never scrolls towards 0: its target is the integer value,
      or -1 (the bottom of the page) for 0 and for non-integers. */
  lemma ScrollTargetIsNeverZero(value: string)
    ensures ScrollTarget(value) != 0
    ensures ScrollTarget(value) == -1 <==> ParseInt(value) in {None, Some(0), Some(-1)}
  {
  }

  /** A non-zero integer written as `str(n)` is scrolled to exactly. */
  lemma ScrollTargetOfIntToString(n: int)
    requires n != 0
    ensures ScrollTarget(IntToString(n)) == n
  {
    ParseIntOfIntToString(n);
  }

  /** The scroll increment is at most 10 pixels, and is the target itself
      for targets up to 10 (including negative ones other than -1). */
  lemma ScrollStepIsCapped(value: string)
    ensures var t := ScrollTarget(value);
            && ScrollStep(t) <= 10
            && (t == -1 || t > 10 ==> ScrollStep(t) == 10)
            && (t != -1 && t <= 10 ==> ScrollStep(t) == t)
  {
  }

  /** `scroll_to` issues one scroll command with the target and its step,
      and logs which kind of scrolling it does. */
  lemma ScrollIssuesOneCommand(value: string, own: StepResult, p: StepResult)
    ensures var e := ScrollEffect(value, own, p);
            && e.commands == [Scroll(ScrollStep(ScrollTarget(value)), ScrollTarget(value))]
            && e.log == [Info(if ScrollTarget(value) == -1 && ParseInt(value) != Some(-1) then ScrollingToBottom
                             else ScrollingFor(ScrollTarget(value)))]
  {
  }

  /** The dispatcher sends a `navigate` step to `NavigateEffect` with the
      cookies the context stores. */
  lemma NavigateStepEffect(url: string, own: StepResult, p: StepResult, ctx: Context, ans: Answers)
    ensures StepEffect(K.Navigate, url, own, p, ctx, ans) == NavigateEffect(url, own, p, ctx.storedCookies)
  {
  }

  /** A `navigate` step succeeds, keeps both results, stores no data,
      loads the URL first and last and in between adds exactly the cookies
      the run's order stored, in their stored order. */
  lemma NavigateStepReplaysStoredCookies(url: string, own: StepResult, p: StepResult, ctx: Context, ans: Answers)
    ensures var e := StepEffect(K.Navigate, url, own, p, ctx, ans);
            var jar := ctx.storedCookies.GetOr([]);
            && e.status == Success && e.own == own && e.prior == p && e.data == []
            && |e.commands| == |jar| + 2
            && e.commands[0] == Get(url) && e.commands[|e.commands| - 1] == Get(url)
            && (forall i :: 0 <= i < |jar| ==> e.commands[i + 1] == AddCookie(jar[i]))
  {
    NavigateRestoresCookiesBetweenLoads(url, own, p, ctx.storedCookies);
  }

  /** `navigate` loads the URL first and last, and in between adds exactly
      the stored cookies, in their stored order. */
  lemma NavigateRestoresCookiesBetweenLoads(url: string, own: StepResult, p: StepResult,
                                           stored: Option<seq<Cookie>>)
    ensures var e := NavigateEffect(url, own, p, stored);
            var jar := stored.GetOr([]);
            && |e.commands| == |jar| + 2
            && e.commands[0] == Get(url) && e.commands[|e.commands| - 1] == Get(url)
            && (forall i :: 0 <= i < |jar| ==> e.commands[i + 1] == AddCookie(jar[i]))
            && e.own == own && e.prior == p && e.data == []
            && |e.log| == (if stored.Some? then 2 else 1)
  {
  }

  /** `execute_js` always runs the value, and stores the script's answer
      exactly when it is truthy. */
  lemma ExecuteJsStoresTruthyAnswers(code: string, own: StepResult, p: StepResult, ans: Answers)
    ensures var e := ExecuteJsEffect(code, own, p, ans);
            && e.commands == [ExecuteScript(code)]
            && (e.data == [] <==> ans.script == None)
            && (ans.script.Some? ==> e.data == [ans.script.value])
  {
  }

  /** A recipe that finds a missing ID and then clicks on it: the find stores
      "0" with a warning, the click only warns, and both steps succeed. */
  lemma ScenarioMissingElementThenClick(ctx: Context, ans: Answers)
    requires ans.findOne == None
    ensures var find := StepEffect(K.FindById, "missing", NoResult, NoResult, ctx, ans);
            var click := StepEffect(K.Click, "", NoResult, find.own, ctx, ans);
            && find.status == Success && click.status == Success
            && find.own == NoResult && find.data == ["0"] && |find.log| == 1 && find.log[0].kind == WarningLog
            && click.own == NoResult && click.data == []
            && click.log == [Warning(NoElementFor(K.Click, ""))] && click.commands == []
  {
  }

  /** A CSS finder that returns three elements followed by a count stores
      "3" twice: once as the finder's count and once as the count. */
  lemma ScenarioFindThreeThenCount(ctx: Context, ans: Answers, a: Handle, b: Handle, c: Handle)
    requires ans.findMany == Some([a, b, c])
    ensures var find := StepEffect(K.FindByCss, ".item", NoResult, NoResult, ctx, ans);
            var count := StepEffect(K.GetElementCount, "", NoResult, find.own, ctx, ans);
            find.data == ["3"] && count.data == ["3"]
  {
  }
}
