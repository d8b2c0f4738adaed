/** The closed vocabulary of recipe step kinds (`RecipeStepTypeEnum`): each
    kind's name, the description the recipe editor shows next to it, the
    (name, description) choice list and the form-value coercion. */
module StepTypes {
  import opened Wrappers

  datatype StepKind =
    | Navigate
    | FindById | FindByName | FindByClass | FindByTag
    | FindByLink | FindByLinkPartial | FindByCss | FindByXpath
    | RandomSelect
    | ScrollTo | Pause | Click | Write | WriteSlowly | Submit
    | GetText | GetTexts | GetValue | GetValues | GetAttribute | GetAttributes
    | GetPagetitle | GetElementCount | GetHtmlsource
    | Log | Data | ExecuteJs | GoBack | GoForward | UnsetPriorElement
    | Screenshot | ElementScreenshot

  /** The kind at a position of the declaration order. */
  function KindAt(i: nat): StepKind
    requires i < 33
  {
    match i
    case 0 => Navigate
    case 1 => FindById
    case 2 => FindByName
    case 3 => FindByClass
    case 4 => FindByTag
    case 5 => FindByLink
    case 6 => FindByLinkPartial
    case 7 => FindByCss
    case 8 => FindByXpath
    case 9 => RandomSelect
    case 10 => ScrollTo
    case 11 => Pause
    case 12 => Click
    case 13 => Write
    case 14 => WriteSlowly
    case 15 => Submit
    case 16 => GetText
    case 17 => GetTexts
    case 18 => GetValue
    case 19 => GetValues
    case 20 => GetAttribute
    case 21 => GetAttributes
    case 22 => GetPagetitle
    case 23 => GetElementCount
    case 24 => GetHtmlsource
    case 25 => Log
    case 26 => Data
    case 27 => ExecuteJs
    case 28 => GoBack
    case 29 => GoForward
    case 30 => UnsetPriorElement
    case 31 => Screenshot
    case _ => ElementScreenshot
  }

  /** The kinds in declaration order, as iterating over the enum yields them. */
  function AllKinds(): (ks: seq<StepKind>)
    ensures |ks| == 33 && forall i :: 0 <= i < 33 ==> ks[i] == KindAt(i)
  {
    seq(33, i requires 0 <= i < 33 => KindAt(i))
  }

  /** The position of a kind in declaration order. */
  function Ordinal(k: StepKind): (i: nat)
    ensures i < |AllKinds()| && AllKinds()[i] == k
  {
    match k
    case Navigate => 0
    case FindById => 1
    case FindByName => 2
    case FindByClass => 3
    case FindByTag => 4
    case FindByLink => 5
    case FindByLinkPartial => 6
    case FindByCss => 7
    case FindByXpath => 8
    case RandomSelect => 9
    case ScrollTo => 10
    case Pause => 11
    case Click => 12
    case Write => 13
    case WriteSlowly => 14
    case Submit => 15
    case GetText => 16
    case GetTexts => 17
    case GetValue => 18
    case GetValues => 19
    case GetAttribute => 20
    case GetAttributes => 21
    case GetPagetitle => 22
    case GetElementCount => 23
    case GetHtmlsource => 24
    case Log => 25
    case Data => 26
    case ExecuteJs => 27
    case GoBack => 28
    case GoForward => 29
    case UnsetPriorElement => 30
    case Screenshot => 31
    case ElementScreenshot => 32
  }

  /** The member's `name`, which is what the interpreter compares against. */
  function Name(k: StepKind): string {
    match k
    case Navigate => "navigate"
    case FindById => "find_by_id"
    case FindByName => "find_by_name"
    case FindByClass => "find_by_class"
    case FindByTag => "find_by_tag"
    case FindByLink => "find_by_link"
    case FindByLinkPartial => "find_by_link_partial"
    case FindByCss => "find_by_css"
    case FindByXpath => "find_by_xpath"
    case RandomSelect => "random_select"
    case ScrollTo => "scroll_to"
    case Pause => "pause"
    case Click => "click"
    case Write => "write"
    case WriteSlowly => "write_slowly"
    case Submit => "submit"
    case GetText => "get_text"
    case GetTexts => "get_texts"
    case GetValue => "get_value"
    case GetValues => "get_values"
    case GetAttribute => "get_attribute"
    case GetAttributes => "get_attributes"
    case GetPagetitle => "get_pagetitle"
    case GetElementCount => "get_element_count"
    case GetHtmlsource => "get_htmlsource"
    case Log => "log"
    case Data => "data"
    case ExecuteJs => "execute_js"
    case GoBack => "go_back"
    case GoForward => "go_forward"
    case UnsetPriorElement => "unset_prior_element"
    case Screenshot => "screenshot"
    case ElementScreenshot => "element_screenshot"
  }

  /** The member's `value`: the description shown to recipe authors. */
  function Description(k: StepKind): string {
    match k
    case Navigate => "-> Navigate to the URL as provided in \"value\""
    case FindById => "| Find an element using its ID as provided in \"value\""
    case FindByName => "| Find an element using its name as provided in \"value\""
    case FindByClass => "| Find one or many element(s) using a CSS class name as provided in \"value\""
    case FindByTag => "| Find one or many element(s) using a tag name as provided in \"value\""
    case FindByLink =>
      "| Find one or many <a> element(s) by searching for their complete link as provided in \"value\""
    case FindByLinkPartial =>
      "| Find one or many <a> element(s) by searching for parts of their link as provided in \"value\""
    case FindByCss =>
      "| Find one or many element(s) using a more sophisticated CSS selector as provided in \"value\""
    case FindByXpath =>
      "| Find one or many element(s) using a more sophisticated XPath selector as provided in \"value\""
    case RandomSelect =>
      "| Randomly select one element of the ones that have been identified in the previous step"
    case ScrollTo =>
      "| Scroll the page for \"value\" pixels (or the page bottom, if not specified) with random breaks"
    case Pause => "| Wait for value seconds (+/- 25% to introduce some randomness)"
    case Click => "-> Click on the element which has been identified in the previous step"
    case Write => ". Write \"value\" onto the element which has been identified in the previous step"
    case WriteSlowly =>
      ". Write \"value\" slowly (i.e., character by character, pausing in between, like slow typing) "
      + "onto the the element which has been identified in the previous step"
    case Submit => "-> Submit on the element which has been identified in the previous step"
    case GetText =>
      "<- Store the text of the first element which has been identified in the previous step as data"
    case GetTexts => "<<- Store all texts of all elements identified in the previous step as data"
    case GetValue =>
      "<- Store the value of the first element which has been identified in the previous step as data"
    case GetValues => "<<- Store all values of all elements identified in the previous step as data"
    case GetAttribute =>
      "<- Store the value of the attribute as provided in \"value\" of the first element which has been "
      + "identified in the previous step as data"
    case GetAttributes =>
      "<<- Store the values of the attributes as provided in \"value\" of all elements which have been "
      + "identified in the previous step as data"
    case GetPagetitle => "<- Store the page title as data"
    case GetElementCount => "<- Store the number of previously found elements as data"
    case GetHtmlsource =>
      "<- Store the complete HTML source code (WARNING: huuuge amount of data; handle with great care)"
    case Log => ". Simply log \"value\" into the log file"
    case Data => ". Store \"value\" as data entry"
    case ExecuteJs => ". Execute \"value\" as JavaScript code (store any returned value as data)"
    case GoBack => "<- Go back one step in the browser history"
    case GoForward => "-> Go forward one step in the browser history (only available if you went back before)"
    case UnsetPriorElement =>
      ". Remove any previously retrieved element (which could cause error upon further navigation)"
    case Screenshot => ". Take a screenshot of the whole page as PNG file"
    case ElementScreenshot =>
      ". Take a screenshot of the element which has been identified in the previous step as PNG file"
  }

  /** The kind whose name is s, if any: the interpreter's chain of
      `step.type.name == '...'` tests. */
  function FromName(s: string): Option<StepKind> {
    match s
    case "navigate" => Some(Navigate)
    case "find_by_id" => Some(FindById)
    case "find_by_name" => Some(FindByName)
    case "find_by_class" => Some(FindByClass)
    case "find_by_tag" => Some(FindByTag)
    case "find_by_link" => Some(FindByLink)
    case "find_by_link_partial" => Some(FindByLinkPartial)
    case "find_by_css" => Some(FindByCss)
    case "find_by_xpath" => Some(FindByXpath)
    case "random_select" => Some(RandomSelect)
    case "scroll_to" => Some(ScrollTo)
    case "pause" => Some(Pause)
    case "click" => Some(Click)
    case "write" => Some(Write)
    case "write_slowly" => Some(WriteSlowly)
    case "submit" => Some(Submit)
    case "get_text" => Some(GetText)
    case "get_texts" => Some(GetTexts)
    case "get_value" => Some(GetValue)
    case "get_values" => Some(GetValues)
    case "get_attribute" => Some(GetAttribute)
    case "get_attributes" => Some(GetAttributes)
    case "get_pagetitle" => Some(GetPagetitle)
    case "get_element_count" => Some(GetElementCount)
    case "get_htmlsource" => Some(GetHtmlsource)
    case "log" => Some(Log)
    case "data" => Some(Data)
    case "execute_js" => Some(ExecuteJs)
    case "go_back" => Some(GoBack)
    case "go_forward" => Some(GoForward)
    case "unset_prior_element" => Some(UnsetPriorElement)
    case "screenshot" => Some(Screenshot)
    case "element_screenshot" => Some(ElementScreenshot)
    case _ => None
  }

  /** Every kind is recognised by its own name, so the dispatcher's chain
      of name tests reaches every kind's branch. */
  lemma NameRoundTrip(k: StepKind)
    ensures FromName(Name(k)) == Some(k)
  {
    var i := Ordinal(k);
    if i < 9 {
      FinderNamesRoundTrip(k);
    } else if i < 17 {
      ActionNamesRoundTrip(k);
    } else if i < 25 {
      ReaderNamesRoundTrip(k);
    } else {
      OtherNamesRoundTrip(k);
    }
  }

  /** `NameRoundTrip` for `navigate` and the finders. */
  lemma FinderNamesRoundTrip(k: StepKind)
    requires Ordinal(k) < 9
    ensures FromName(Name(k)) == Some(k)
  {
  }

  /** `NameRoundTrip` for `random_select` to `get_text`. */
  lemma ActionNamesRoundTrip(k: StepKind)
    requires 9 <= Ordinal(k) < 17
    ensures FromName(Name(k)) == Some(k)
  {
  }

  /** `NameRoundTrip` for `get_texts` to `get_htmlsource`. */
  lemma ReaderNamesRoundTrip(k: StepKind)
    requires 17 <= Ordinal(k) < 25
    ensures FromName(Name(k)) == Some(k)
  {
  }

  /** `NameRoundTrip` for `log` to `element_screenshot`. */
  lemma OtherNamesRoundTrip(k: StepKind)
    requires 25 <= Ordinal(k)
    ensures FromName(Name(k)) == Some(k)
  {
  }

  /** `choices()`: one (name, description) pair per kind, in declaration order. */
  function Choices(): (cs: seq<(string, string)>)
    ensures |cs| == |AllKinds()| == 33
    ensures forall i :: 0 <= i < |cs| ==> cs[i] == (Name(AllKinds()[i]), Description(AllKinds()[i]))
  {
    seq(|AllKinds()|, i requires 0 <= i < |AllKinds()| => (Name(AllKinds()[i]), Description(AllKinds()[i])))
  }

  /** Declaration order lists each kind at its ordinal position. */
  lemma OrdinalOfAllKinds(i: nat)
    requires i < |AllKinds()|
    ensures Ordinal(AllKinds()[i]) == i
  {
  }

  /** The choice list offers every kind exactly once, and its first
      components are names the dispatcher recognises. */
  lemma ChoicesCoverEveryKindOnce(k: StepKind)
    ensures Choices()[Ordinal(k)].0 == Name(k)
    ensures forall i, j :: 0 <= i < j < |Choices()| ==> Choices()[i].0 != Choices()[j].0
    ensures forall i :: 0 <= i < |Choices()| ==> FromName(Choices()[i].0) == Some(AllKinds()[i])
  {
    forall i | 0 <= i < |Choices()| ensures FromName(Choices()[i].0) == Some(AllKinds()[i]) {
      NameRoundTrip(AllKinds()[i]);
    }
    forall i, j | 0 <= i < j < |Choices()| ensures Choices()[i].0 != Choices()[j].0 {
      OrdinalOfAllKinds(i);
      OrdinalOfAllKinds(j);
    }
  }

  /** What a form field hands to `coerce`: an enum member or raw text. */
  datatype FormItem = Member(kind: StepKind) | Text(text: string)

  /** `coerce(item)`: a member becomes its name, anything else passes
      through. The `KeyError` handler around it can never fire, because
      reading `.name` of a member does not raise. */
  function Coerce(item: FormItem): (r: string)
    ensures item.Member? ==> FromName(r) == Some(item.kind)
    ensures item.Text? ==> r == item.text
  {
    match item
    case Member(k) => NameRoundTrip(k); Name(k)
    case Text(t) => t
  }
}
