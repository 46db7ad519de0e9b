/** The step types of the scenario language and the built step tree
    (scenarios/schema.py, operations/registry.py, scenarios/loader.py). */
module Steps {
  import opened Wrappers
  import opened Json

  /** The program names a step type by a string. `Unknown` stands for every
      string that is neither an atomic nor a block type. */
  datatype StepType =
    | OpenUrl | Click | WaitForElement | InputText | AssertText | AssertAttribute
    | ExtractTextToContext | ExtractAttributeToContext | Screenshot | SelectOption
    | WaitUntilUrlContains | WaitUntilTitleContains | CloseBrowser
    | Sleep | SleepRandom | Notify | HttpRequest | RequireEnterpriseNetwork
    | SetContext | FormatContext
    | Group | Parallel | Repeat | Try
    | Unknown(name: string)

  predicate IsBlock(t: StepType) {
    t.Group? || t.Parallel? || t.Repeat? || t.Try?
  }

  predicate IsAtomic(t: StepType) {
    !IsBlock(t) && !t.Unknown?
  }

  /** The keys of the operation registry. */
  predicate HasHandler(t: StepType) {
    || t.OpenUrl? || t.Click? || t.WaitForElement? || t.InputText? || t.AssertText?
    || t.AssertAttribute? || t.ExtractTextToContext? || t.ExtractAttributeToContext?
    || t.Screenshot? || t.SelectOption? || t.WaitUntilUrlContains?
    || t.WaitUntilTitleContains? || t.CloseBrowser? || t.Sleep? || t.SleepRandom?
    || t.Notify? || t.HttpRequest? || t.RequireEnterpriseNetwork? || t.SetContext?
    || t.FormatContext?
  }

  predicate IsParallelSafe(t: StepType) {
    || t.Sleep? || t.SleepRandom? || t.Notify? || t.HttpRequest?
    || t.RequireEnterpriseNetwork? || t.SetContext? || t.FormatContext?
  }

  predicate RequiresDriver(t: StepType) {
    || t.OpenUrl? || t.Click? || t.WaitForElement? || t.InputText? || t.AssertText?
    || t.AssertAttribute? || t.ExtractTextToContext? || t.ExtractAttributeToContext?
    || t.Screenshot? || t.SelectOption? || t.WaitUntilUrlContains?
    || t.WaitUntilTitleContains? || t.CloseBrowser?
  }

  /** The registry, the set of parallel-safe types and the list of types that need a browser
      agree: every atomic type has a handler and no other has one, and the parallel-safe
      types are the atomic ones that need no browser. */
  lemma TablesAgree(t: StepType)
    ensures HasHandler(t) <==> IsAtomic(t)
    ensures IsParallelSafe(t) <==> IsAtomic(t) && !RequiresDriver(t)
  {
  }

  function Name(t: StepType): string {
    match t
    case OpenUrl => "open_url"
    case Click => "click"
    case WaitForElement => "wait_for_element"
    case InputText => "input_text"
    case AssertText => "assert_text"
    case AssertAttribute => "assert_attribute"
    case ExtractTextToContext => "extract_text_to_context"
    case ExtractAttributeToContext => "extract_attribute_to_context"
    case Screenshot => "screenshot"
    case SelectOption => "select_option"
    case WaitUntilUrlContains => "wait_until_url_contains"
    case WaitUntilTitleContains => "wait_until_title_contains"
    case CloseBrowser => "close_browser"
    case Sleep => "sleep"
    case SleepRandom => "sleep_random"
    case Notify => "notify"
    case HttpRequest => "http_request"
    case RequireEnterpriseNetwork => "require_enterprise_network"
    case SetContext => "set_context"
    case FormatContext => "format_context"
    case Group => "group"
    case Parallel => "parallel"
    case Repeat => "repeat"
    case Try => "try"
    case Unknown(name) => name
  }

  const KNOWN_TYPES: seq<StepType> := [
    OpenUrl, Click, WaitForElement, InputText, AssertText, AssertAttribute,
    ExtractTextToContext, ExtractAttributeToContext, Screenshot, SelectOption,
    WaitUntilUrlContains, WaitUntilTitleContains, CloseBrowser, Sleep, SleepRandom,
    Notify, HttpRequest, RequireEnterpriseNetwork, SetContext, FormatContext,
    Group, Parallel, Repeat, Try
  ]

  /** Distinct types have distinct names. */
  lemma NamesDiffer(t: StepType, u: StepType)
    requires !t.Unknown? && !u.Unknown? && Name(t) == Name(u)
    ensures t == u
  {
    var a, b := Name(t), Name(u);
    assert |a| == |b| && a[0] == b[0] && a[1] == b[1] && a[2] == b[2];
    if |a| > 10 { assert a[7] == b[7] && a[11 - 1] == b[11 - 1]; }
  }

  /** Looks a name up among the first `n` of these types. */
  function FindType(name: string, types: seq<StepType>, n: nat): (t: StepType)
    requires n <= |types|
    ensures Name(t) == name
  {
    if n == 0 then Unknown(name)
    else if Name(types[n - 1]) == name then types[n - 1]
    else FindType(name, types, n - 1)
  }

  function TypeOf(name: string): (t: StepType)
    ensures Name(t) == name
  {
    FindType(name, KNOWN_TYPES, |KNOWN_TYPES|)
  }

  lemma {:induction false} FindsKnown(t: StepType, types: seq<StepType>, n: nat, i: nat)
    requires i < n <= |types| && types[i] == t && !t.Unknown?
    requires forall j :: 0 <= j < |types| ==> !types[j].Unknown?
    ensures FindType(Name(t), types, n) == t
    decreases n
  {
    if Name(types[n - 1]) == Name(t) {
      NamesDiffer(types[n - 1], t);
    } else {
      FindsKnown(t, types, n - 1, i);
    }
  }

  lemma KnownTypesAreAll(t: StepType) returns (i: nat)
    requires !t.Unknown?
    ensures i < |KNOWN_TYPES| && KNOWN_TYPES[i] == t
  {
    match t {
      case OpenUrl => i := 0;
      case Click => i := 1;
      case WaitForElement => i := 2;
      case InputText => i := 3;
      case AssertText => i := 4;
      case AssertAttribute => i := 5;
      case ExtractTextToContext => i := 6;
      case ExtractAttributeToContext => i := 7;
      case Screenshot => i := 8;
      case SelectOption => i := 9;
      case WaitUntilUrlContains => i := 10;
      case WaitUntilTitleContains => i := 11;
      case CloseBrowser => i := 12;
      case Sleep => i := 13;
      case SleepRandom => i := 14;
      case Notify => i := 15;
      case HttpRequest => i := 16;
      case RequireEnterpriseNetwork => i := 17;
      case SetContext => i := 18;
      case FormatContext => i := 19;
      case Group => i := 20;
      case Parallel => i := 21;
      case Repeat => i := 22;
      case Try => i := 23;
    }
  }

  /** The enumeration stands for the strings: reading a type's name gives the type. */
  lemma TypesAreRead(t: StepType)
    requires !t.Unknown?
    ensures TypeOf(Name(t)) == t
  {
    var i := KnownTypesAreAll(t);
    FindsKnown(t, KNOWN_TYPES, |KNOWN_TYPES|, i);
  }

  /** The controls every node of the tree carries. */
  datatype Control = Control(
    when: Option<string>, retry: int, delay: real, backoff: real,
    timeout: Option<real>, continueOnError: bool)

  /** A built step. A list the step's type does not use is empty. */
  datatype Step = Step(
    stype: StepType, payload: map<string, Value>, times: int,
    steps: seq<Step>, trySteps: seq<Step>, catchSteps: seq<Step>, finallySteps: seq<Step>,
    ctl: Control)
  {
    function Attempts(): (n: nat) ensures n >= 1 {
      if ctl.retry + 1 > 1 then ctl.retry + 1 else 1
    }
  }

  datatype Scenario = Scenario(
    before: seq<Step>, steps: seq<Step>, onSuccess: seq<Step>, onFailure: seq<Step>,
    finallySteps: seq<Step>)
}
