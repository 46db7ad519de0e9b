/** Writing step trees down as JSON definitions, of which the loader makes them again. */
module Dumps {
  import opened Wrappers
  import opened Json
  import opened Steps
  import opened Footprint
  import opened Loader

  /** Numbers are read as what they are. */
  ghost predicate ReadsNumbers(c: Coercions) {
    && (forall n: int :: c.toInt(Num(n as real)) == Some(n))
    && forall x: real :: c.toFloat(Num(x)) == Some(x)
  }

  /** The field, unless it has its default. */
  function Field(key: string, value: Value, isDefault: bool): map<string, Value> {
    if isDefault then map[] else map[key := value]
  }

  /** The control fields, defaults left out. */
  function DumpControl(t: StepType, ctl: Control): map<string, Value> {
    map["type" := Str(Name(t))]
    + Field("when", Str(ctl.when.GetOr("")), ctl.when.None?)
    + Field("retry", Num(ctl.retry as real), ctl.retry == 0)
    + Field("retry_delay_seconds", Num(ctl.delay), ctl.delay == 0.0)
    + Field("retry_backoff_seconds", Num(ctl.backoff), ctl.backoff == 1.0)
    + Field("timeout_seconds", Num(ctl.timeout.GetOr(0.0)), ctl.timeout.None?)
    + Field("continue_on_error", Bool(true), !ctl.continueOnError)
  }

  function DumpParts(s: Step): map<string, Value>
    decreases s, 0
  {
    match s.stype
    case Try =>
      map["try_steps" := DumpList(s.trySteps)]
      + Field("catch_steps", DumpList(s.catchSteps), s.catchSteps == [])
      + Field("finally_steps", DumpList(s.finallySteps), s.finallySteps == [])
    case Repeat => map["steps" := DumpList(s.steps), "times" := Num(s.times as real)]
    case Group => map["steps" := DumpList(s.steps)]
    case Parallel => map["steps" := DumpList(s.steps)]
    case _ => s.payload
  }

  function Dump(s: Step): Value
    decreases s, 1
  {
    Obj(DumpControl(s.stype, s.ctl) + DumpParts(s))
  }

  function DumpList(steps: seq<Step>): (v: Value)
    ensures v.Arr? && |v.items| == |steps|
    decreases steps, 0
  {
    Arr(seq(|steps|, i requires 0 <= i < |steps| => Dump(steps[i])))
  }

  function DumpScenario(sc: Scenario): Value {
    Obj(map["steps" := DumpList(sc.steps)]
        + Field("before_steps", DumpList(sc.before), sc.before == [])
        + Field("on_success", DumpList(sc.onSuccess), sc.onSuccess == [])
        + Field("on_failure", DumpList(sc.onFailure), sc.onFailure == [])
        + Field("finally_steps", DumpList(sc.finallySteps), sc.finallySteps == []))
  }

  /** Trees the language can write: waits and attempts in range, of each step only the lists
      its type has, payloads without control fields. */
  ghost predicate Writable(c: Coercions, s: Step) {
    && s.ctl.retry >= 0 && s.ctl.delay >= 0.0 && s.ctl.backoff >= 1.0
    && (IsAtomic(s.stype) || IsBlock(s.stype))
    && (if s.stype.Repeat? then s.times > 0 else s.times == 0)
    && (if HasSteps(s.stype) then AllWritable(c, s.steps) else s.steps == [])
    && (if s.stype.Try? then
          AllWritable(c, s.trySteps) && AllWritable(c, s.catchSteps) && AllWritable(c, s.finallySteps)
        else s.trySteps == s.catchSteps == s.finallySteps == [])
    && (if IsBlock(s.stype) then s.payload == map[] else s.payload.Keys !! CONTROL_KEYS)
    && (s.stype.ExtractTextToContext? || s.stype.ExtractAttributeToContext? ==>
          HasKeys(s.payload, ["key", "by", "locator"])
          && c.toInt(Json.GetOr(s.payload, "timeout", Num(30.0))).Some?)
  }

  ghost predicate AllWritable(c: Coercions, steps: seq<Step>) {
    forall i :: 0 <= i < |steps| ==> Writable(c, steps[i])
  }

  ghost predicate ScenarioWritable(c: Coercions, sc: Scenario) {
    && AllWritable(c, sc.before) && AllWritable(c, sc.steps) && AllWritable(c, sc.onSuccess)
    && AllWritable(c, sc.onFailure) && AllWritable(c, sc.finallySteps)
  }

  /** The payload has no control fields. */
  predicate Plain(s: Step) {
    IsBlock(s.stype) || s.payload.Keys !! CONTROL_KEYS
  }

  lemma PartsHaveNoControls(s: Step)
    requires Plain(s)
    ensures DumpParts(s).Keys !! CONTROL_KEYS
  {
  }

  lemma GetField(m: map<string, Value>, name: string, value: Value, isDefault: bool, key: string, default: Value)
    ensures Json.GetOr(m + Field(name, value, isDefault), key, default)
         == if key == name && !isDefault then value else Json.GetOr(m, key, default)
  {
  }

  /** Looks a key up in the control fields, the last one first. */
  function ControlAt(t: StepType, ctl: Control, key: string, default: Value): Value {
    if key == "continue_on_error" && ctl.continueOnError then Bool(true)
    else if key == "timeout_seconds" && ctl.timeout.Some? then Num(ctl.timeout.value)
    else if key == "retry_backoff_seconds" && ctl.backoff != 1.0 then Num(ctl.backoff)
    else if key == "retry_delay_seconds" && ctl.delay != 0.0 then Num(ctl.delay)
    else if key == "retry" && ctl.retry != 0 then Num(ctl.retry as real)
    else if key == "when" && ctl.when.Some? then Str(ctl.when.value)
    else if key == "type" then Str(Name(t))
    else default
  }

  lemma ControlFields(t: StepType, ctl: Control, key: string, default: Value)
    ensures Json.GetOr(DumpControl(t, ctl), key, default) == ControlAt(t, ctl, key, default)
  {
    var m0 := map["type" := Str(Name(t))];
    var m1 := m0 + Field("when", Str(ctl.when.GetOr("")), ctl.when.None?);
    var m2 := m1 + Field("retry", Num(ctl.retry as real), ctl.retry == 0);
    var m3 := m2 + Field("retry_delay_seconds", Num(ctl.delay), ctl.delay == 0.0);
    var m4 := m3 + Field("retry_backoff_seconds", Num(ctl.backoff), ctl.backoff == 1.0);
    var m5 := m4 + Field("timeout_seconds", Num(ctl.timeout.GetOr(0.0)), ctl.timeout.None?);
    GetField(m0, "when", Str(ctl.when.GetOr("")), ctl.when.None?, key, default);
    GetField(m1, "retry", Num(ctl.retry as real), ctl.retry == 0, key, default);
    GetField(m2, "retry_delay_seconds", Num(ctl.delay), ctl.delay == 0.0, key, default);
    GetField(m3, "retry_backoff_seconds", Num(ctl.backoff), ctl.backoff == 1.0, key, default);
    GetField(m4, "timeout_seconds", Num(ctl.timeout.GetOr(0.0)), ctl.timeout.None?, key, default);
    GetField(m5, "continue_on_error", Bool(true), !ctl.continueOnError, key, default);
  }

  lemma FieldKeys(m: map<string, Value>, name: string, value: Value, isDefault: bool)
    requires m.Keys <= CONTROL_KEYS && "type" in m && name in CONTROL_KEYS
    ensures var m' := m + Field(name, value, isDefault); m'.Keys <= CONTROL_KEYS && "type" in m'
  {
  }

  lemma ControlKeysOnly(t: StepType, ctl: Control)
    ensures DumpControl(t, ctl).Keys <= CONTROL_KEYS && "type" in DumpControl(t, ctl)
  {
    var m0 := map["type" := Str(Name(t))];
    var m1 := m0 + Field("when", Str(ctl.when.GetOr("")), ctl.when.None?);
    var m2 := m1 + Field("retry", Num(ctl.retry as real), ctl.retry == 0);
    var m3 := m2 + Field("retry_delay_seconds", Num(ctl.delay), ctl.delay == 0.0);
    var m4 := m3 + Field("retry_backoff_seconds", Num(ctl.backoff), ctl.backoff == 1.0);
    var m5 := m4 + Field("timeout_seconds", Num(ctl.timeout.GetOr(0.0)), ctl.timeout.None?);
    FieldKeys(m0, "when", Str(ctl.when.GetOr("")), ctl.when.None?);
    FieldKeys(m1, "retry", Num(ctl.retry as real), ctl.retry == 0);
    FieldKeys(m2, "retry_delay_seconds", Num(ctl.delay), ctl.delay == 0.0);
    FieldKeys(m3, "retry_backoff_seconds", Num(ctl.backoff), ctl.backoff == 1.0);
    FieldKeys(m4, "timeout_seconds", Num(ctl.timeout.GetOr(0.0)), ctl.timeout.None?);
    FieldKeys(m5, "continue_on_error", Bool(true), !ctl.continueOnError);
  }

  /** A key that is a control field is read from the control fields. */
  lemma DumpedControl(s: Step, key: string, default: Value)
    requires Plain(s) && key in CONTROL_KEYS
    ensures Json.GetOr(Dump(s).fields, key, default) == ControlAt(s.stype, s.ctl, key, default)
  {
    PartsHaveNoControls(s);
    ControlFields(s.stype, s.ctl, key, default);
  }

  lemma TypeValue(t: StepType, ctl: Control)
    ensures ControlAt(t, ctl, "type", Null) == Str(Name(t))
  {
  }

  lemma TypeField(s: Step)
    requires Plain(s)
    ensures "type" in Dump(s).fields && Dump(s).fields["type"] == Str(Name(s.stype))
  {
    DumpedControl(s, "type", Null);
    ControlKeysOnly(s.stype, s.ctl);
    TypeValue(s.stype, s.ctl);
  }

  lemma TypeIsRead(s: Step)
    requires Plain(s) && !s.stype.Unknown?
    ensures DefinedType(Dump(s)) == Some(s.stype)
  {
    TypeField(s);
    TypesAreRead(s.stype);
  }

  lemma RetryValues(t: StepType, ctl: Control)
    ensures ControlAt(t, ctl, "retry", Num(0.0)) == Num(ctl.retry as real)
    ensures ControlAt(t, ctl, "retry_delay_seconds", Num(0.0)) == Num(ctl.delay)
    ensures ControlAt(t, ctl, "retry_backoff_seconds", Num(1.0)) == Num(ctl.backoff)
  {
    assert 0 as real == 0.0;
  }

  lemma OptionValues(t: StepType, ctl: Control)
    ensures ControlAt(t, ctl, "timeout_seconds", Null)
         == if ctl.timeout.Some? then Num(ctl.timeout.value) else Null
    ensures ControlAt(t, ctl, "when", Null) == if ctl.when.Some? then Str(ctl.when.value) else Null
    ensures ControlAt(t, ctl, "continue_on_error", Bool(false)) == Bool(ctl.continueOnError)
  {
  }

  lemma ControlBuilds(c: Coercions, fields: map<string, Value>, ctl: Control)
    requires ReadsNumbers(c) && ctl.retry >= 0 && ctl.delay >= 0.0 && ctl.backoff >= 1.0
    requires Json.GetOr(fields, "retry", Num(0.0)) == Num(ctl.retry as real)
    requires Json.GetOr(fields, "retry_delay_seconds", Num(0.0)) == Num(ctl.delay)
    requires Json.GetOr(fields, "retry_backoff_seconds", Num(1.0)) == Num(ctl.backoff)
    requires Json.GetOr(fields, "timeout_seconds", Null)
          == if ctl.timeout.Some? then Num(ctl.timeout.value) else Null
    requires Json.GetOr(fields, "when", Null) == if ctl.when.Some? then Str(ctl.when.value) else Null
    requires Json.GetOr(fields, "continue_on_error", Bool(false)) == Bool(ctl.continueOnError)
    ensures BuildControl(c, fields) == Some(ctl)
  {
    assert c.toInt(Num(ctl.retry as real)) == Some(ctl.retry);
    assert c.toFloat(Num(ctl.delay)) == Some(ctl.delay) && c.toFloat(Num(ctl.backoff)) == Some(ctl.backoff);
    assert ctl.timeout.Some? ==> c.toFloat(Num(ctl.timeout.value)) == ctl.timeout;
  }

  /** What the loader reads of the control fields. */
  lemma ControlIsRead(c: Coercions, s: Step)
    requires ReadsNumbers(c) && Plain(s) && s.ctl.retry >= 0 && s.ctl.delay >= 0.0 && s.ctl.backoff >= 1.0
    ensures BuildControl(c, Dump(s).fields) == Some(s.ctl)
  {
    DumpedControl(s, "retry", Num(0.0));
    DumpedControl(s, "retry_delay_seconds", Num(0.0));
    DumpedControl(s, "retry_backoff_seconds", Num(1.0));
    DumpedControl(s, "timeout_seconds", Null);
    DumpedControl(s, "when", Null);
    DumpedControl(s, "continue_on_error", Bool(false));
    RetryValues(s.stype, s.ctl);
    OptionValues(s.stype, s.ctl);
    ControlBuilds(c, Dump(s).fields, s.ctl);
  }

  /** The other fields are the step's parts. */
  lemma PartsAreRead(s: Step)
    requires Plain(s)
    ensures Dump(s).fields - CONTROL_KEYS == DumpParts(s)
    ensures forall key :: key !in CONTROL_KEYS ==>
                            (key in Dump(s).fields <==> key in DumpParts(s))
                            && (key in DumpParts(s) ==> Dump(s).fields[key] == DumpParts(s)[key])
  {
    PartsHaveNoControls(s);
    ControlKeysOnly(s.stype, s.ctl);
  }

  // ---------------------------------------------------------------- round trips

  lemma {:induction false} BuildDump(c: Coercions, s: Step)
    requires ReadsNumbers(c) && Writable(c, s)
    ensures Build(c, Dump(s)) == Some(s)
    decreases s, 1
  {
    TypeIsRead(s);
    ControlIsRead(c, s);
    if IsBlock(s.stype) { BuildDumpedBlock(c, s); } else { AtomicIsRead(c, s); }
    StepBuilds(c, Dump(s), s);
  }

  /** The last step of building. */
  lemma StepBuilds(c: Coercions, v: Value, s: Step)
    requires DefinedType(v) == Some(s.stype) && BuildControl(c, v.fields) == Some(s.ctl)
    requires if IsBlock(s.stype) then BuildBlock(c, v, s.stype, s.ctl) == Some(s) else AtomicFits(c, v, s)
    ensures Build(c, v) == Some(s)
  {
  }

  ghost predicate AtomicFits(c: Coercions, v: Value, s: Step)
    requires v.Obj?
  {
    && s == Step(s.stype, v.fields - CONTROL_KEYS, 0, [], [], [], [], s.ctl)
    && (s.stype.ExtractTextToContext? || s.stype.ExtractAttributeToContext? ==>
          HasKeys(v.fields, ["key", "by", "locator"])
          && c.toInt(Json.GetOr(v.fields, "timeout", Num(30.0))).Some?)
  }

  lemma ExtractKeys()
    ensures "key" !in CONTROL_KEYS && "by" !in CONTROL_KEYS && "locator" !in CONTROL_KEYS
    ensures "timeout" !in CONTROL_KEYS
  {
  }

  lemma AtomicIsRead(c: Coercions, s: Step)
    requires Writable(c, s) && !IsBlock(s.stype)
    ensures AtomicFits(c, Dump(s), s)
  {
    ExtractKeys();
    PartsAreRead(s);
    assert DumpParts(s) == s.payload;
  }

  /** A list that may be left out when it is empty. */
  ghost predicate ReadsList(c: Coercions, fields: map<string, Value>, key: string, steps: seq<Step>) {
    if key in fields then BuildList(c, fields[key]) == Some(steps) else steps == []
  }

  lemma TryBuilds(c: Coercions, v: Value, ctl: Control, a: seq<Step>, b: seq<Step>, f: seq<Step>)
    requires v.Obj? && "try_steps" in v.fields && ReadsList(c, v.fields, "try_steps", a)
    requires ReadsList(c, v.fields, "catch_steps", b) && ReadsList(c, v.fields, "finally_steps", f)
    ensures BuildBlock(c, v, Try, ctl) == Some(Step(Try, map[], 0, [], a, b, f, ctl))
  {
  }

  lemma DumpedPart(s: Step, key: string)
    requires Plain(s) && key !in CONTROL_KEYS
    ensures key in Dump(s).fields <==> key in DumpParts(s)
    ensures key in DumpParts(s) ==> Dump(s).fields[key] == DumpParts(s)[key]
  {
    PartsAreRead(s);
  }

  lemma PartKeys()
    ensures "try_steps" !in CONTROL_KEYS && "catch_steps" !in CONTROL_KEYS && "finally_steps" !in CONTROL_KEYS
    ensures "steps" !in CONTROL_KEYS && "times" !in CONTROL_KEYS
  {
  }

  lemma StepsParts(s: Step)
    requires HasSteps(s.stype)
    ensures var parts := DumpParts(s);
            && "steps" in parts && parts["steps"] == DumpList(s.steps)
            && (s.stype.Repeat? ==> "times" in parts && parts["times"] == Num(s.times as real))
  {
  }

  lemma TryParts(s: Step)
    requires s.stype.Try?
    ensures var parts := DumpParts(s);
            && "try_steps" in parts && parts["try_steps"] == DumpList(s.trySteps)
            && ("catch_steps" in parts <==> s.catchSteps != [])
            && ("catch_steps" in parts ==> parts["catch_steps"] == DumpList(s.catchSteps))
            && ("finally_steps" in parts <==> s.finallySteps != [])
            && ("finally_steps" in parts ==> parts["finally_steps"] == DumpList(s.finallySteps))
  {
  }

  lemma TryReads(c: Coercions, s: Step, key: string, steps: seq<Step>)
    requires s.stype.Try? && BuildList(c, DumpList(steps)) == Some(steps)
    requires || (key == "try_steps" && steps == s.trySteps) || (key == "catch_steps" && steps == s.catchSteps)
             || (key == "finally_steps" && steps == s.finallySteps)
    ensures ReadsList(c, Dump(s).fields, key, steps) && (key == "try_steps" ==> key in Dump(s).fields)
  {
    TryParts(s);
    PartKeys();
    DumpedPart(s, key);
  }

  lemma StepsBuild(c: Coercions, v: Value, t: StepType, ctl: Control, times: int, steps: seq<Step>)
    requires HasSteps(t) && v.Obj? && "steps" in v.fields && BuildList(c, v.fields["steps"]) == Some(steps)
    requires if t.Repeat? then "times" in v.fields && c.toInt(v.fields["times"]) == Some(times) && times > 0
             else times == 0
    ensures BuildBlock(c, v, t, ctl) == Some(Step(t, map[], times, steps, [], [], [], ctl))
  {
  }

  lemma StepsFields(c: Coercions, s: Step)
    requires ReadsNumbers(c) && HasSteps(s.stype)
    ensures var fields := Dump(s).fields;
            && "steps" in fields && fields["steps"] == DumpList(s.steps)
            && (s.stype.Repeat? ==> "times" in fields && c.toInt(fields["times"]) == Some(s.times))
  {
    PartKeys();
    StepsParts(s);
    DumpedPart(s, "steps");
    if s.stype.Repeat? {
      DumpedPart(s, "times");
      assert c.toInt(Num(s.times as real)) == Some(s.times);
    }
  }

  lemma {:induction false} BuildDumpedBlock(c: Coercions, s: Step)
    requires ReadsNumbers(c) && Writable(c, s) && IsBlock(s.stype)
    ensures BuildBlock(c, Dump(s), s.stype, s.ctl) == Some(s)
    decreases s, 0
  {
    if s.stype.Try? {
      BuildDumpedList(c, s.trySteps);
      BuildDumpedList(c, s.catchSteps);
      BuildDumpedList(c, s.finallySteps);
      TryReads(c, s, "try_steps", s.trySteps);
      TryReads(c, s, "catch_steps", s.catchSteps);
      TryReads(c, s, "finally_steps", s.finallySteps);
      TryBuilds(c, Dump(s), s.ctl, s.trySteps, s.catchSteps, s.finallySteps);
    } else {
      BuildDumpedList(c, s.steps);
      StepsFields(c, s);
      StepsBuild(c, Dump(s), s.stype, s.ctl, s.times, s.steps);
    }
  }

  lemma {:induction false} BuildDumpedList(c: Coercions, steps: seq<Step>)
    requires ReadsNumbers(c) && AllWritable(c, steps)
    ensures BuildList(c, DumpList(steps)) == Some(steps)
    decreases steps, 2
  {
    var items := DumpList(steps).items;
    if BuildItems(c, items, 0).None? {
      var k := FailingItem(c, items, 0);
      BuildDump(c, steps[k]);
    }
    var built := BuildItems(c, items, 0).value;
    forall k | 0 <= k < |steps| ensures built[k] == steps[k] {
      BuildDump(c, steps[k]);
      BuiltItems(c, items, 0, k);
    }
    assert built == steps;
  }

  lemma {:induction false} FailingItem(c: Coercions, items: seq<Value>, i: nat) returns (k: nat)
    requires i <= |items| && BuildItems(c, items, i).None?
    ensures k < |items| && Build(c, items[k]).None?
    decreases |items| - i
  {
    if Build(c, items[i]).None? { k := i; } else { k := FailingItem(c, items, i + 1); }
  }

  lemma CollectionIsRead(c: Coercions, sc: Scenario, key: string, steps: seq<Step>)
    requires ReadsNumbers(c) && AllWritable(c, steps)
    requires Json.GetOr(DumpScenario(sc).fields, key, Arr([])) == if steps == [] then Arr([]) else DumpList(steps)
    ensures BuildCollection(c, DumpScenario(sc), key) == Some(steps)
  {
    if steps != [] { BuildDumpedList(c, steps); }
  }

  /** The main steps are always written, the hooks unless there are none. */
  function CollectionAt(sc: Scenario, key: string): Value {
    if key == "finally_steps" && sc.finallySteps != [] then DumpList(sc.finallySteps)
    else if key == "on_failure" && sc.onFailure != [] then DumpList(sc.onFailure)
    else if key == "on_success" && sc.onSuccess != [] then DumpList(sc.onSuccess)
    else if key == "before_steps" && sc.before != [] then DumpList(sc.before)
    else if key == "steps" then DumpList(sc.steps)
    else Arr([])
  }

  lemma DumpedCollection(sc: Scenario, key: string)
    ensures Json.GetOr(DumpScenario(sc).fields, key, Arr([])) == CollectionAt(sc, key)
  {
    var m0 := map["steps" := DumpList(sc.steps)];
    var m1 := m0 + Field("before_steps", DumpList(sc.before), sc.before == []);
    var m2 := m1 + Field("on_success", DumpList(sc.onSuccess), sc.onSuccess == []);
    var m3 := m2 + Field("on_failure", DumpList(sc.onFailure), sc.onFailure == []);
    GetField(m0, "before_steps", DumpList(sc.before), sc.before == [], key, Arr([]));
    GetField(m1, "on_success", DumpList(sc.onSuccess), sc.onSuccess == [], key, Arr([]));
    GetField(m2, "on_failure", DumpList(sc.onFailure), sc.onFailure == [], key, Arr([]));
    GetField(m3, "finally_steps", DumpList(sc.finallySteps), sc.finallySteps == [], key, Arr([]));
  }

  lemma CollectionKeys(sc: Scenario)
    ensures CollectionAt(sc, "before_steps") == if sc.before == [] then Arr([]) else DumpList(sc.before)
    ensures CollectionAt(sc, "steps") == if sc.steps == [] then Arr([]) else DumpList(sc.steps)
    ensures CollectionAt(sc, "on_success") == if sc.onSuccess == [] then Arr([]) else DumpList(sc.onSuccess)
    ensures CollectionAt(sc, "on_failure") == if sc.onFailure == [] then Arr([]) else DumpList(sc.onFailure)
    ensures CollectionAt(sc, "finally_steps") == if sc.finallySteps == [] then Arr([]) else DumpList(sc.finallySteps)
  {
  }

  /** Building what was written down gives the scenario back: every list from the field of its
      name, each of its steps with its own lists, payload and controls, absent fields standing
      for their defaults. */
  lemma BuildDumpedScenario(c: Coercions, sc: Scenario)
    requires ReadsNumbers(c) && ScenarioWritable(c, sc)
    ensures BuildScenario(c, DumpScenario(sc)) == Some(sc)
  {
    CollectionKeys(sc);
    DumpedCollection(sc, "before_steps");
    DumpedCollection(sc, "steps");
    DumpedCollection(sc, "on_success");
    DumpedCollection(sc, "on_failure");
    DumpedCollection(sc, "finally_steps");
    CollectionIsRead(c, sc, "before_steps", sc.before);
    CollectionIsRead(c, sc, "steps", sc.steps);
    CollectionIsRead(c, sc, "on_success", sc.onSuccess);
    CollectionIsRead(c, sc, "on_failure", sc.onFailure);
    CollectionIsRead(c, sc, "finally_steps", sc.finallySteps);
    assert "steps" in DumpScenario(sc).fields;
  }

  /** A built step makes one attempt more than its definition asks for retries, none being the
      default, and runs under the time limit the definition gives, if any. */
  lemma BuiltAttempts(c: Coercions, v: Value)
    requires Build(c, v).Some? && v.Obj?
    ensures var s, retry := Build(c, v).value, c.toInt(Json.GetOr(v.fields, "retry", Num(0.0)));
            retry.Some? && s.Attempts() == retry.value + 1
    ensures var s := Build(c, v).value;
            s.ctl.timeout == if "timeout_seconds" in v.fields && v.fields["timeout_seconds"] != Null
                             then c.toFloat(v.fields["timeout_seconds"]) else None
  {
  }

  // ---------------------------------------------------------------- validation

  /** Of each step the keys its type requires are there, and parallel blocks hold only
      parallel-safe steps. */
  ghost predicate Complete(s: Step) {
    && (IsAtomic(s.stype) ==> HasKeys(s.payload, RequiredKeys(s.stype)))
    && (s.stype.SelectOption? ==> "value" in s.payload || "visible_text" in s.payload || "index" in s.payload)
    && (s.stype.Parallel? ==> forall i :: 0 <= i < |s.steps| ==> IsParallelSafe(s.steps[i].stype))
    && AllComplete(s.steps) && AllComplete(s.trySteps) && AllComplete(s.catchSteps) && AllComplete(s.finallySteps)
  }

  ghost predicate AllComplete(steps: seq<Step>) {
    forall i :: 0 <= i < |steps| ==> Complete(steps[i])
  }

  lemma SelectKeys()
    ensures "value" !in CONTROL_KEYS && "visible_text" !in CONTROL_KEYS && "index" !in CONTROL_KEYS
  {
  }

  lemma RequiredAreNoControls(t: StepType)
    ensures forall i :: 0 <= i < |RequiredKeys(t)| ==> RequiredKeys(t)[i] !in CONTROL_KEYS
  {
  }

  /** The keys a written step has beside its controls are those of its parts. */
  lemma SameKeys(s: Step)
    requires Plain(s)
    ensures HasKeys(Dump(s).fields, RequiredKeys(s.stype)) <==> HasKeys(DumpParts(s), RequiredKeys(s.stype))
    ensures ("value" in Dump(s).fields || "visible_text" in Dump(s).fields || "index" in Dump(s).fields)
       <==> ("value" in DumpParts(s) || "visible_text" in DumpParts(s) || "index" in DumpParts(s))
  {
    var keys := RequiredKeys(s.stype);
    RequiredAreNoControls(s.stype);
    SelectKeys();
    PartsAreRead(s);
    if HasKeys(Dump(s).fields, keys) { assert forall i :: 0 <= i < |keys| ==> keys[i] in DumpParts(s); }
    if HasKeys(DumpParts(s), keys) { assert forall i :: 0 <= i < |keys| ==> keys[i] in Dump(s).fields; }
  }

  lemma AtomicValidates(c: Coercions, s: Step)
    requires Writable(c, s) && IsAtomic(s.stype)
    ensures Validates(c, Dump(s)) <==> Complete(s)
  {
    TypeIsRead(s);
    SameKeys(s);
  }

  /** A list that may be left out. */
  ghost predicate ValidIfThere(c: Coercions, fields: map<string, Value>, key: string) {
    key in fields ==> ValidatesList(c, fields[key])
  }

  lemma TryPartValidates(c: Coercions, s: Step, key: string, steps: seq<Step>)
    requires s.stype.Try? && (ValidatesList(c, DumpList(steps)) <==> AllComplete(steps))
    requires || (key == "try_steps" && steps == s.trySteps) || (key == "catch_steps" && steps == s.catchSteps)
             || (key == "finally_steps" && steps == s.finallySteps)
    ensures ValidIfThere(c, Dump(s).fields, key) <==> AllComplete(steps)
    ensures key == "try_steps" ==> key in Dump(s).fields
  {
    TryParts(s);
    PartKeys();
    DumpedPart(s, key);
  }

  lemma TryValidates(c: Coercions, v: Value, s: Step)
    requires v.Obj? && DefinedType(v) == Some(s.stype) && s.stype.Try? && s.steps == [] && "try_steps" in v.fields
    requires ValidIfThere(c, v.fields, "try_steps") <==> AllComplete(s.trySteps)
    requires ValidIfThere(c, v.fields, "catch_steps") <==> AllComplete(s.catchSteps)
    requires ValidIfThere(c, v.fields, "finally_steps") <==> AllComplete(s.finallySteps)
    ensures Validates(c, v) <==> Complete(s)
  {
  }

  lemma SafeTypesAreRead(c: Coercions, steps: seq<Step>)
    requires AllWritable(c, steps)
    ensures AllParallelSafeTypes(DumpList(steps).items)
       <==> forall i :: 0 <= i < |steps| ==> IsParallelSafe(steps[i].stype)
  {
    var items := DumpList(steps).items;
    forall i | 0 <= i < |steps| ensures DefinedType(items[i]) == Some(steps[i].stype) {
      assert Writable(c, steps[i]);
      TypeIsRead(steps[i]);
    }
  }

  lemma StepsValidate(c: Coercions, v: Value, s: Step)
    requires DefinedType(v) == Some(s.stype) && HasSteps(s.stype)
    requires s.trySteps == s.catchSteps == s.finallySteps == []
    requires "steps" in v.fields && v.fields["steps"].Arr?
    requires ValidatesList(c, v.fields["steps"]) <==> AllComplete(s.steps)
    requires AllParallelSafeTypes(v.fields["steps"].items)
        <==> forall i :: 0 <= i < |s.steps| ==> IsParallelSafe(s.steps[i].stype)
    requires s.stype.Repeat? ==> "times" in v.fields && c.toInt(v.fields["times"]) == Some(s.times) && s.times > 0
    ensures Validates(c, v) <==> Complete(s)
  {
    assert AllComplete(s.trySteps) && AllComplete(s.catchSteps) && AllComplete(s.finallySteps);
  }

  /** A definition written from a tree validates exactly when the tree is complete. */
  lemma {:induction false} ValidatesIffComplete(c: Coercions, s: Step)
    requires ReadsNumbers(c) && Writable(c, s)
    ensures Validates(c, Dump(s)) <==> Complete(s)
    decreases s, 1
  {
    if s.stype.Try? {
      TypeIsRead(s);
      ListValidates(c, s.trySteps);
      ListValidates(c, s.catchSteps);
      ListValidates(c, s.finallySteps);
      TryPartValidates(c, s, "try_steps", s.trySteps);
      TryPartValidates(c, s, "catch_steps", s.catchSteps);
      TryPartValidates(c, s, "finally_steps", s.finallySteps);
      TryValidates(c, Dump(s), s);
    } else if HasSteps(s.stype) {
      TypeIsRead(s);
      ListValidates(c, s.steps);
      StepsFields(c, s);
      SafeTypesAreRead(c, s.steps);
      StepsValidate(c, Dump(s), s);
    } else {
      AtomicValidates(c, s);
    }
  }

  lemma {:induction false} ListValidates(c: Coercions, steps: seq<Step>)
    requires ReadsNumbers(c) && AllWritable(c, steps)
    ensures ValidatesList(c, DumpList(steps)) <==> AllComplete(steps)
    decreases steps, 2
  {
    var items := DumpList(steps).items;
    forall i | 0 <= i < |steps| ensures Validates(c, items[i]) <==> Complete(steps[i]) {
      ValidatesIffComplete(c, steps[i]);
    }
  }
}
