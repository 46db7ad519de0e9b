/** From JSON definitions to step trees (scenarios/loader.py), and the analysis of raw
    definitions in catalog/services.py. */
module Loader {
  import opened Wrappers
  import opened Json
  import opened Steps
  import opened Conditions
  import opened Interpreter
  import opened Footprint
  import opened WorkBound
  import opened RetryWaits

  const CONTROL_KEYS: set<string> := {
    "type", "when", "retry", "retry_delay_seconds", "retry_backoff_seconds", "timeout_seconds", "continue_on_error"
  }

  predicate HasKeys(fields: map<string, Value>, keys: seq<string>) {
    forall i :: 0 <= i < |keys| ==> keys[i] in fields
  }

  predicate HasSteps(t: StepType) {
    t.Group? || t.Parallel? || t.Repeat?
  }

  /** The type a definition names; None where reading it raises or it is not
      supported. */
  function DefinedType(v: Value): Option<StepType> {
    if !v.Obj? || "type" !in v.fields || !v.fields["type"].Str? then None
    else
      var t := TypeOf(v.fields["type"].s);
      if IsAtomic(t) || IsBlock(t) then Some(t) else None
  }

  // ---------------------------------------------------------------- building

  /** The control fields every node has. */
  function BuildControl(c: Coercions, fields: map<string, Value>): Option<Control> {
    var retry := c.toInt(Json.GetOr(fields, "retry", Num(0.0)));
    var delay := c.toFloat(Json.GetOr(fields, "retry_delay_seconds", Num(0.0)));
    var backoff := c.toFloat(Json.GetOr(fields, "retry_backoff_seconds", Num(1.0)));
    var limit := Json.GetOr(fields, "timeout_seconds", Null);
    var when := Json.GetOr(fields, "when", Null);
    if retry.None? || delay.None? || backoff.None? then None
    else if retry.value < 0 || delay.value < 0.0 || backoff.value < 1.0 then None
    else if !limit.Null? && c.toFloat(limit).None? then None
    else if !when.Null? && !when.Str? then None
    else Some(Control(
      if when.Str? then Some(when.s) else None, retry.value, delay.value, backoff.value,
      if limit.Null? then None else c.toFloat(limit), Truthy(Json.GetOr(fields, "continue_on_error", Bool(false)))))
  }

  /** `_build_step`; None where it raises. */
  function Build(c: Coercions, v: Value): Option<Step>
    decreases v, 1
  {
    var t := DefinedType(v);
    if t.None? then None
    else
      var ctl := BuildControl(c, v.fields);
      if ctl.None? then None
      else if IsBlock(t.value) then BuildBlock(c, v, t.value, ctl.value)
      else if (t.value.ExtractTextToContext? || t.value.ExtractAttributeToContext?)
              && !(HasKeys(v.fields, ["key", "by", "locator"])
                   && c.toInt(Json.GetOr(v.fields, "timeout", Num(30.0))).Some?) then None
      else Some(Step(t.value, v.fields - CONTROL_KEYS, 0, [], [], [], [], ctl.value))
  }

  function BuildBlock(c: Coercions, v: Value, t: StepType, ctl: Control): Option<Step>
    requires v.Obj? && IsBlock(t)
    decreases v, 0
  {
    if t.Try? then
      var a := if "try_steps" in v.fields then BuildList(c, v.fields["try_steps"]) else None;
      var b := if "catch_steps" in v.fields then BuildList(c, v.fields["catch_steps"]) else Some([]);
      var f := if "finally_steps" in v.fields then BuildList(c, v.fields["finally_steps"]) else Some([]);
      if a.None? || b.None? || f.None? then None
      else Some(Step(t, map[], 0, [], a.value, b.value, f.value, ctl))
    else
      var steps := if "steps" in v.fields then BuildList(c, v.fields["steps"]) else None;
      var times := if t.Repeat? then (if "times" in v.fields then c.toInt(v.fields["times"]) else None) else Some(0);
      if steps.None? || times.None? || (t.Repeat? && times.value <= 0) then None
      else Some(Step(t, map[], times.value, steps.value, [], [], [], ctl))
  }

  function BuildList(c: Coercions, v: Value): Option<seq<Step>>
    decreases v, 2
  {
    if v.Arr? then BuildItems(c, v.items, 0)
    else if Items(v) == Some([]) then Some([])
    else None
  }

  /** Items i, i+1, ... of a list. */
  function BuildItems(c: Coercions, items: seq<Value>, i: nat): (r: Option<seq<Step>>)
    requires i <= |items|
    ensures r.Some? ==> |r.value| == |items| - i
    decreases items, 0, |items| - i
  {
    if i == |items| then Some([])
    else
      var first, rest := Build(c, items[i]), BuildItems(c, items, i + 1);
      if first.None? || rest.None? then None else Some([first.value] + rest.value)
  }

  /** The definition's list under this key; absent lists are empty. */
  function BuildCollection(c: Coercions, def: Value, key: string): Option<seq<Step>>
    requires def.Obj?
  {
    BuildList(c, Json.GetOr(def.fields, key, Arr([])))
  }

  /** One scenario of `build_scenarios_from_map`. */
  function BuildScenario(c: Coercions, def: Value): Option<Scenario> {
    if !def.Obj? || "steps" !in def.fields then None
    else
      var a, b := BuildCollection(c, def, "before_steps"), BuildCollection(c, def, "steps");
      var s := BuildCollection(c, def, "on_success");
      var f, l := BuildCollection(c, def, "on_failure"), BuildCollection(c, def, "finally_steps");
      if a.None? || b.None? || s.None? || f.None? || l.None? then None
      else Some(Scenario(a.value, b.value, s.value, f.value, l.value))
  }

  // ---------------------------------------------------------------- validating

  /** The keys an atomic step of this type must have. */
  function RequiredKeys(t: StepType): seq<string> {
    match t
    case OpenUrl => ["url"]
    case Click => ["by", "locator"]
    case WaitForElement => ["by", "locator"]
    case InputText => ["by", "locator", "text"]
    case AssertText => ["by", "locator", "text"]
    case AssertAttribute => ["by", "locator", "attribute", "value"]
    case ExtractTextToContext => ["key", "by", "locator"]
    case ExtractAttributeToContext => ["key", "by", "locator", "attribute"]
    case Screenshot => ["path"]
    case SelectOption => ["by", "locator"]
    case WaitUntilUrlContains => ["value"]
    case WaitUntilTitleContains => ["value"]
    case Sleep => ["seconds"]
    case SleepRandom => ["min_seconds", "max_seconds"]
    case Notify => ["message"]
    case HttpRequest => ["url"]
    case SetContext => ["key"]
    case FormatContext => ["key", "template"]
    case _ => []
  }

  /** `_validate_step_document` and `_validate_step_payload_document`. */
  predicate Validates(c: Coercions, v: Value)
    decreases v, 1
  {
    var t := DefinedType(v);
    && t.Some?
    && HasKeys(v.fields, RequiredKeys(t.value))
    && (HasSteps(t.value) ==> "steps" in v.fields && ValidatesList(c, v.fields["steps"]))
    && (t.value.Try? ==>
          && "try_steps" in v.fields && ValidatesList(c, v.fields["try_steps"])
          && ("catch_steps" in v.fields ==> ValidatesList(c, v.fields["catch_steps"]))
          && ("finally_steps" in v.fields ==> ValidatesList(c, v.fields["finally_steps"])))
    && (t.value.SelectOption? ==> "value" in v.fields || "visible_text" in v.fields || "index" in v.fields)
    && (t.value.Repeat? ==>
          "times" in v.fields && c.toInt(v.fields["times"]).Some? && c.toInt(v.fields["times"]).value > 0)
    && (t.value.Parallel? && v.fields["steps"].Arr? ==> AllParallelSafeTypes(v.fields["steps"].items))
  }

  predicate AllParallelSafeTypes(items: seq<Value>) {
    forall i :: 0 <= i < |items| ==> DefinedType(items[i]).Some? && IsParallelSafe(DefinedType(items[i]).value)
  }

  predicate ValidatesList(c: Coercions, v: Value)
    decreases v, 2
  {
    v.Arr? && forall i :: 0 <= i < |v.items| ==> Validates(c, v.items[i])
  }

  predicate ValidatesCollection(c: Coercions, def: Value, key: string)
    requires def.Obj?
  {
    key in def.fields ==> ValidatesList(c, def.fields[key])
  }

  /** One scenario of `validate_scenarios_document`. */
  predicate ValidatesScenario(c: Coercions, def: Value) {
    && def.Obj? && "steps" in def.fields
    && ValidatesCollection(c, def, "before_steps") && ValidatesCollection(c, def, "steps")
    && ValidatesCollection(c, def, "on_success") && ValidatesCollection(c, def, "on_failure")
    && ValidatesCollection(c, def, "finally_steps")
  }

  /** What was built from items is built item by item. */
  lemma {:induction false} BuiltItems(c: Coercions, items: seq<Value>, i: nat, k: nat)
    requires i <= k < |items| && BuildItems(c, items, i).Some?
    ensures Build(c, items[k]) == Some(BuildItems(c, items, i).value[k - i])
    decreases k - i
  {
    if i < k {
      BuiltItems(c, items, i + 1, k);
      var rest := BuildItems(c, items, i + 1).value;
      assert BuildItems(c, items, i).value == [Build(c, items[i]).value] + rest;
      assert BuildItems(c, items, i).value[k - i] == rest[k - i - 1];
    }
  }

  /** A validated definition builds, if at all, a supported step. */
  lemma {:induction false} ValidatedIsSupported(c: Coercions, v: Value)
    requires Validates(c, v) && Build(c, v).Some?
    ensures Supported(Build(c, v).value)
    decreases v, 1
  {
    var s, t := Build(c, v).value, DefinedType(v).value;
    if HasSteps(t) {
      ValidatedListIsSupported(c, v.fields["steps"]);
      if t.Parallel? {
        var items := v.fields["steps"].items;
        forall k | 0 <= k < |s.steps| ensures IsParallelSafe(s.steps[k].stype) {
          BuiltItems(c, items, 0, k);
        }
      }
    } else if t.Try? {
      ValidatedListIsSupported(c, v.fields["try_steps"]);
      if "catch_steps" in v.fields { ValidatedListIsSupported(c, v.fields["catch_steps"]); }
      if "finally_steps" in v.fields { ValidatedListIsSupported(c, v.fields["finally_steps"]); }
    }
  }

  lemma {:induction false} ValidatedListIsSupported(c: Coercions, v: Value)
    requires ValidatesList(c, v) && BuildList(c, v).Some?
    ensures AllSupported(BuildList(c, v).value)
    decreases v, 2
  {
    var steps := BuildList(c, v).value;
    forall k | 0 <= k < |steps| ensures Supported(steps[k]) {
      BuiltItems(c, v.items, 0, k);
      ValidatedIsSupported(c, v.items[k]);
    }
  }

  lemma ValidatedCollectionIsSupported(c: Coercions, def: Value, key: string)
    requires def.Obj? && ValidatesCollection(c, def, key) && BuildCollection(c, def, key).Some?
    ensures AllSupported(BuildCollection(c, def, key).value)
  {
    if key in def.fields { ValidatedListIsSupported(c, def.fields[key]); }
  }

  /** No run of a scenario that was validated and then built ever meets an error of
      the interpreter itself, whatever its handlers do. */
  lemma ValidatedDocumentsDoNotGoWrong(c: Coercions, def: Value, e: Env, ctx: Ctx)
    requires ValidatesScenario(c, def) && BuildScenario(c, def).Some?
    ensures var r := RunTask(e, BuildScenario(c, def).value, ctx);
            && (forall event :: event in r.w.trace ==> !Shows(event))
            && (r.end.Escaped? ==> !Internal(r.end.error))
  {
    ValidatedCollectionIsSupported(c, def, "before_steps");
    ValidatedCollectionIsSupported(c, def, "steps");
    ValidatedCollectionIsSupported(c, def, "on_success");
    ValidatedCollectionIsSupported(c, def, "on_failure");
    ValidatedCollectionIsSupported(c, def, "finally_steps");
    SupportedScenariosDoNotGoWrong(e, BuildScenario(c, def).value, ctx);
  }

  // ---------------------------------------------------------------- pacing

  /** Whatever builds has non-negative delays and backoffs of at least 1, so its runs
      are bounded. */
  lemma {:induction false} BuiltIsPaced(c: Coercions, v: Value)
    requires Build(c, v).Some?
    ensures Paced(Build(c, v).value, Seconds)
    decreases v, 1
  {
    var s, t := Build(c, v).value, DefinedType(v).value;
    if HasSteps(t) {
      BuiltListIsPaced(c, v.fields["steps"]);
    } else if t.Try? {
      BuiltListIsPaced(c, v.fields["try_steps"]);
      if "catch_steps" in v.fields { BuiltListIsPaced(c, v.fields["catch_steps"]); }
      if "finally_steps" in v.fields { BuiltListIsPaced(c, v.fields["finally_steps"]); }
    }
    PacedIsTimed(s);
    assert AllPaced(s.steps, Seconds) && AllPaced(s.trySteps, Seconds);
    assert AllPaced(s.catchSteps, Seconds) && AllPaced(s.finallySteps, Seconds);
  }

  lemma {:induction false} BuiltListIsPaced(c: Coercions, v: Value)
    requires BuildList(c, v).Some?
    ensures AllPaced(BuildList(c, v).value, Seconds)
    decreases v, 2
  {
    if v.Arr? {
      forall k | 0 <= k < |v.items| ensures Paced(BuildItems(c, v.items, 0).value[k], Seconds) {
        BuiltItems(c, v.items, 0, k);
        BuiltIsPaced(c, v.items[k]);
      }
    }
  }

  /** The work of every run of a scenario that builds is bounded by its tree. */
  lemma BuiltScenariosAreBounded(c: Coercions, def: Value, e: Env, ctx: Ctx)
    requires BuildScenario(c, def).Some?
    ensures var sc := BuildScenario(c, def).value;
            var w := RunTask(e, sc, ctx).w;
            |w.calls| <= ScenarioCost(sc, Seconds).calls && Sum(w.sleeps, Seconds) <= ScenarioCost(sc, Seconds).sleep
  {
    BuiltListIsPaced(c, Json.GetOr(def.fields, "before_steps", Arr([])));
    BuiltListIsPaced(c, Json.GetOr(def.fields, "steps", Arr([])));
    BuiltListIsPaced(c, Json.GetOr(def.fields, "on_success", Arr([])));
    BuiltListIsPaced(c, Json.GetOr(def.fields, "on_failure", Arr([])));
    BuiltListIsPaced(c, Json.GetOr(def.fields, "finally_steps", Arr([])));
    RunIsBounded(Seconds, e, BuildScenario(c, def).value, ctx);
  }

  // ---------------------------------------------------------------- the raw analysis

  /** `any` over results that may raise, and `or` of two such. */
  function Either(a: Option<bool>, b: Option<bool>): Option<bool> {
    if a == Some(false) then b else a
  }

  /** The catalog's `_step_requires_enterprise_network` on raw JSON; None: it raises. */
  function RawNeedsNetwork(v: Value): Option<bool>
    decreases v, 1
  {
    if !v.Obj? then Some(false)
    else
      var t := Json.GetOr(v.fields, "type", Null);
      if t.Arr? || t.Obj? then None
      else if !t.Str? then Some(false)
      else
        var stype := TypeOf(t.s);
        if stype.RequireEnterpriseNetwork? then Some(true)
        else if HasSteps(stype) then RawKeyNeeds(v, "steps")
        else if stype.Try? then
          Either(RawKeyNeeds(v, "try_steps"), Either(RawKeyNeeds(v, "catch_steps"), RawKeyNeeds(v, "finally_steps")))
        else Some(false)
  }

  function RawKeyNeeds(v: Value, key: string): Option<bool>
    requires v.Obj?
    decreases v, 0
  {
    if key !in v.fields then Some(false)
    else if v.fields[key].Arr? then RawItemsNeed(v.fields[key].items, 0)
    else if Items(v.fields[key]).Some? then Some(false)
    else None
  }

  function RawItemsNeed(items: seq<Value>, i: nat): Option<bool>
    requires i <= |items|
    decreases items, |items| - i
  {
    if i == |items| then Some(false) else Either(RawNeedsNetwork(items[i]), RawItemsNeed(items, i + 1))
  }

  /** `_requires_enterprise_network` of a definition. */
  function RawScenarioNeedsNetwork(def: Value): Option<bool>
    requires def.Obj?
  {
    Either(RawKeyNeeds(def, "before_steps"), Either(RawKeyNeeds(def, "steps"), Either(RawKeyNeeds(def, "on_success"),
      Either(RawKeyNeeds(def, "on_failure"), RawKeyNeeds(def, "finally_steps")))))
  }

  /** For every definition that builds, the raw analysis agrees with the flag of the
      built step. */
  lemma {:induction false} RawAnalysisAgrees(c: Coercions, v: Value)
    requires Build(c, v).Some?
    ensures RawNeedsNetwork(v) == Some(NeedsNetwork(Build(c, v).value))
    decreases v, 1
  {
    var s, t := Build(c, v).value, DefinedType(v).value;
    if HasSteps(t) {
      RawKeyAgrees(c, v, "steps");
    } else if t.Try? {
      RawKeyAgrees(c, v, "try_steps");
      RawKeyAgrees(c, v, "catch_steps");
      RawKeyAgrees(c, v, "finally_steps");
    }
  }

  lemma {:induction false} RawKeyAgrees(c: Coercions, v: Value, key: string)
    requires v.Obj? && BuildList(c, Json.GetOr(v.fields, key, Arr([]))).Some?
    ensures RawKeyNeeds(v, key) == Some(AnyNeedsNetwork(BuildList(c, Json.GetOr(v.fields, key, Arr([]))).value))
    decreases v, 0
  {
    if key in v.fields && v.fields[key].Arr? { RawItemsAgree(c, v.fields[key].items, 0); }
  }

  lemma {:induction false} RawItemsAgree(c: Coercions, items: seq<Value>, i: nat)
    requires i <= |items| && BuildItems(c, items, i).Some?
    ensures RawItemsNeed(items, i) == Some(AnyNeedsNetwork(BuildItems(c, items, i).value))
    decreases items, |items| - i
  {
    if i < |items| {
      RawAnalysisAgrees(c, items[i]);
      RawItemsAgree(c, items, i + 1);
      var first, rest := Build(c, items[i]).value, BuildItems(c, items, i + 1).value;
      AnyOfCons(first, rest);
    }
  }

  lemma AnyOfCons(first: Step, rest: seq<Step>)
    ensures AnyNeedsNetwork([first] + rest) <==> NeedsNetwork(first) || AnyNeedsNetwork(rest)
  {
    var all := [first] + rest;
    if NeedsNetwork(first) { assert NeedsNetwork(all[0]); }
    if AnyNeedsNetwork(rest) {
      var i :| 0 <= i < |rest| && NeedsNetwork(rest[i]);
      assert NeedsNetwork(all[i + 1]);
    }
  }

  /** The catalog and the loader compute the same flag for every definition that
      builds, and when it is down no run calls the network handler. */
  lemma NetworkFlagIsConsistentAndSound(c: Coercions, def: Value, e: Env, ctx: Ctx)
    requires BuildScenario(c, def).Some?
    ensures var sc := BuildScenario(c, def).value;
            && RawScenarioNeedsNetwork(def) == Some(ScenarioNeedsNetwork(sc))
            && (RawScenarioNeedsNetwork(def) == Some(false) ==>
                  forall call :: call in RunTask(e, sc, ctx).w.calls ==> !call.stype.RequireEnterpriseNetwork?)
  {
    RawKeyAgrees(c, def, "before_steps");
    RawKeyAgrees(c, def, "steps");
    RawKeyAgrees(c, def, "on_success");
    RawKeyAgrees(c, def, "on_failure");
    RawKeyAgrees(c, def, "finally_steps");
    var sc := BuildScenario(c, def).value;
    if !ScenarioNeedsNetwork(sc) { NetworkFlagIsSound(e, sc, ctx); }
  }
}
