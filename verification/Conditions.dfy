/** The `when` expressions of the scenario language (scenarios/runner.py). */
module Conditions {
  import opened Wrappers

  type Ctx = map<string, string>

  /** The five forms an expression can have. */
  datatype Form = Exists | NotExists | Equals | In | Matches

  function Prefix(f: Form): string {
    match f
    case Exists => "context_exists:"
    case NotExists => "context_not_exists:"
    case Equals => "context_equals:"
    case In => "context_in:"
    case Matches => "context_matches:"
  }

  /** The form whose prefix the expression starts with; prefixes are tried in order. */
  function FormOf(expression: string): Option<Form> {
    if Prefix(Exists) <= expression then Some(Exists)
    else if Prefix(NotExists) <= expression then Some(NotExists)
    else if Prefix(Equals) <= expression then Some(Equals)
    else if Prefix(In) <= expression then Some(In)
    else if Prefix(Matches) <= expression then Some(Matches)
    else None
  }

  function Get(ctx: Ctx, key: string): string {
    if key in ctx then ctx[key] else ""
  }

  /** Position of the first `c`, or the length. */
  function Find(s: string, c: char): (i: nat)
    ensures i <= |s|
    ensures i < |s| ==> s[i] == c
    ensures i < |s| <==> c in s
  {
    if s == [] || s[0] == c then 0 else 1 + Find(s[1..], c)
  }

  predicate IsSpace(c: char) {
    c == ' ' || '\t' <= c <= '\r' || '\U{1C}' <= c <= '\U{1F}'
  }

  function Strip(s: string): string {
    if s == [] then s
    else if IsSpace(s[0]) then Strip(s[1..])
    else if IsSpace(s[|s| - 1]) then Strip(s[..|s| - 1])
    else s
  }

  /** The non-blank items of a comma-separated list. */
  function ListedValues(values: string): set<string>
    decreases |values|
  {
    var i := Find(values, ',');
    var item := Strip(values[..i]);
    (if item == "" then {} else {item}) + if i == |values| then {} else ListedValues(values[i + 1..])
  }

  /** None is a raised exception. `search` is the regular-expression search, None
      for a pattern that does not compile. */
  function ShouldExecute(when: Option<string>, ctx: Ctx, search: (string, string) -> Option<bool>): Option<bool> {
    if when.None? then Some(true) else Evaluate(when.value, ctx, search)
  }

  function Evaluate(expression: string, ctx: Ctx, search: (string, string) -> Option<bool>): Option<bool> {
    var form := FormOf(expression);
    if form.None? then None
    else
      var raw := expression[|Prefix(form.value)|..];
      if form.value.Exists? then Some(Get(ctx, raw) != "")
      else if form.value.NotExists? then Some(Get(ctx, raw) == "")
      else
        var i := Find(raw, '=');
        if i == |raw| then None
        else
          var actual, expected := Get(ctx, raw[..i]), raw[i + 1..];
          match form.value
          case Equals => Some(actual == expected)
          case In => Some(actual in ListedValues(expected))
          case _ => search(expected, actual)
  }

  /** A condition the run can always evaluate: absent, a key test, or a comparison
      that names its key; a pattern must compile. */
  ghost predicate Evaluable(when: Option<string>, search: (string, string) -> Option<bool>) {
    when.None? ||
    var form := FormOf(when.value);
    && form.Some?
    && var raw := when.value[|Prefix(form.value)|..];
    || form.value.Exists? || form.value.NotExists?
    || (&& '=' in raw
        && (form.value.Matches? ==>
              Compiles(raw[Find(raw, '=') + 1..], search)))
  }

  ghost predicate Compiles(pattern: string, search: (string, string) -> Option<bool>) {
    forall actual :: search(pattern, actual).Some?
  }

  /** Being evaluable is exactly never raising, whatever the context holds. */
  lemma EvaluableNeverRaises(when: Option<string>, search: (string, string) -> Option<bool>)
    ensures Evaluable(when, search) <==> forall ctx :: ShouldExecute(when, ctx, search).Some?
  {
    if when.Some? {
      var form := FormOf(when.value);
      if (forall ctx :: ShouldExecute(when, ctx, search).Some?) {
        assert ShouldExecute(when, map[], search).Some?;
        if form.Some? && form.value.Matches? {
          var raw := when.value[|Prefix(form.value)|..];
          var i := Find(raw, '=');
          var pattern := raw[i + 1..];
          forall actual ensures search(pattern, actual).Some? {
            assert ShouldExecute(when, map[raw[..i] := actual], search).Some?;
          }
          assert Compiles(pattern, search);
        }
      }
    }
  }

  // ---------------------------------------------------------------- what each form asks

  /** The prefixes exclude each other, so the prefix names the form. */
  lemma PrefixNamesForm(f: Form, rest: string)
    ensures var expression := Prefix(f) + rest;
            FormOf(expression) == Some(f) && expression[|Prefix(f)|..] == rest
  {
    var expression := Prefix(f) + rest;
    assert expression[8] == Prefix(f)[8] && expression[9] == Prefix(f)[9];
    assert Prefix(f) <= expression;
    forall g | Prefix(g) <= expression ensures g == f {
      assert Prefix(g)[8] == expression[8] && Prefix(g)[9] == expression[9];
    }
  }

  lemma {:induction false} FindAfter(c: char, a: string, b: string)
    requires c !in a
    ensures Find(a + [c] + b, c) == |a|
    decreases a
  {
    var s := a + [c] + b;
    if a != [] {
      assert s[0] == a[0] && s[1..] == a[1..] + [c] + b;
      FindAfter(c, a[1..], b);
    }
  }

  /** What a condition on a key alone asks. */
  lemma ExistenceForms(key: string, ctx: Ctx, search: (string, string) -> Option<bool>)
    ensures Evaluate("context_exists:" + key, ctx, search) == Some(key in ctx && ctx[key] != "")
    ensures Evaluate("context_not_exists:" + key, ctx, search) == Some(key !in ctx || ctx[key] == "")
  {
    PrefixNamesForm(Exists, key);
    PrefixNamesForm(NotExists, key);
  }

  /** Names a key and something to compare its value with; an absent key counts as empty. */
  lemma Comparison(f: Form, key: string, expected: string, ctx: Ctx, search: (string, string) -> Option<bool>)
    requires (f.Equals? || f.In? || f.Matches?) && '=' !in key
    ensures var actual := if key in ctx then ctx[key] else "";
            Evaluate(Prefix(f) + (key + ['='] + expected), ctx, search)
            == (match f
                case Equals => Some(actual == expected)
                case In => Some(actual in ListedValues(expected))
                case _ => search(expected, actual))
  {
    var raw := key + ['='] + expected;
    PrefixNamesForm(f, raw);
    FindAfter('=', key, expected);
    assert raw[..|key|] == key && raw[|key| + 1..] == expected;
  }

  lemma EqualsForm(key: string, value: string, ctx: Ctx, search: (string, string) -> Option<bool>)
    requires '=' !in key
    ensures Evaluate("context_equals:" + (key + "=" + value), ctx, search)
         == Some((if key in ctx then ctx[key] else "") == value)
  {
    Comparison(Equals, key, value, ctx, search);
  }

  lemma MatchesForm(key: string, pattern: string, ctx: Ctx, search: (string, string) -> Option<bool>)
    requires '=' !in key
    ensures Evaluate("context_matches:" + (key + "=" + pattern), ctx, search)
         == search(pattern, if key in ctx then ctx[key] else "")
  {
    Comparison(Matches, key, pattern, ctx, search);
  }

  function Join(items: seq<string>): string {
    if items == [] then "" else if |items| == 1 then items[0] else items[0] + [','] + Join(items[1..])
  }

  /** The item without the white space around it. */
  ghost predicate IsStripped(item: string, s: string) {
    && (s != "" ==> !IsSpace(s[0]) && !IsSpace(s[|s| - 1]))
    && exists i, j :: 0 <= i <= j <= |item| && Around(item, s, i, j)
  }

  ghost predicate Around(item: string, s: string, i: nat, j: nat)
    requires i <= j <= |item|
  {
    s == item[i..j] && forall k :: 0 <= k < i || j <= k < |item| ==> IsSpace(item[k])
  }

  lemma AroundMore(item: string, rest: string, s: string, from: nat, i: nat, j: nat)
    requires from + |rest| <= |item| && rest == item[from..from + |rest|] && i <= j <= |rest| && Around(rest, s, i, j)
    requires forall k :: 0 <= k < from || from + |rest| <= k < |item| ==> IsSpace(item[k])
    ensures Around(item, s, from + i, from + j)
  {
    forall k | 0 <= k < j - i ensures s[k] == item[from + i..from + j][k] {
      assert s[k] == rest[i + k] == item[from..from + |rest|][i + k];
    }
    assert s == item[from + i..from + j];
    forall k | 0 <= k < from + i || from + j <= k < |item| ensures IsSpace(item[k]) {
      if from <= k < from + |rest| { assert item[k] == rest[k - from]; }
    }
  }

  lemma {:induction false} StripStrips(item: string)
    ensures IsStripped(item, Strip(item))
    decreases |item|
  {
    if item == "" {
      assert Around(item, "", 0, 0);
    } else if IsSpace(item[0]) || IsSpace(item[|item| - 1]) {
      var from := if IsSpace(item[0]) then 1 else 0;
      var rest := if IsSpace(item[0]) then item[1..] else item[..|item| - 1];
      StripStrips(rest);
      var i, j :| 0 <= i <= j <= |rest| && Around(rest, Strip(rest), i, j);
      AroundMore(item, rest, Strip(rest), from, i, j);
    } else {
      assert item[0..|item|] == item;
      assert Around(item, item, 0, |item|);
    }
  }

  lemma InnerSpan(item: string, s: string, i: nat, j: nat, s': string, i': nat, j': nat)
    requires i < j <= |item| && i' <= j' <= |item| && Around(item, s, i, j) && Around(item, s', i', j')
    requires !IsSpace(s[0]) && !IsSpace(s[|s| - 1])
    ensures i' <= i && j <= j'
  {
    assert !IsSpace(item[i]) && !IsSpace(item[j - 1]);
  }

  /** Only one string is the item stripped. */
  lemma StrippedIsUnique(item: string, s: string, s': string)
    requires IsStripped(item, s) && IsStripped(item, s')
    ensures s == s'
  {
    var i, j :| 0 <= i <= j <= |item| && Around(item, s, i, j);
    var i', j' :| 0 <= i' <= j' <= |item| && Around(item, s', i', j');
    if i < j { InnerSpan(item, s, i, j, s', i', j'); }
    if i' < j' { InnerSpan(item, s', i', j', s, i, j); }
  }

  lemma FindNone(c: char, s: string)
    requires c !in s
    ensures Find(s, c) == |s|
  {
  }

  lemma {:induction false} JoinedAreListed(items: seq<string>, value: string)
    requires items != [] && forall i :: 0 <= i < |items| ==> ',' !in items[i]
    ensures value in ListedValues(Join(items)) <==>
              value != "" && exists i :: 0 <= i < |items| && value == Strip(items[i])
    decreases |items|
  {
    var values := Join(items);
    if |items| == 1 {
      FindNone(',', values);
      assert values[..|values|] == items[0];
    } else {
      var rest := items[1..];
      FindAfter(',', items[0], Join(rest));
      assert values[..|items[0]|] == items[0] && values[|items[0]| + 1..] == Join(rest);
      JoinedAreListed(rest, value);
      assert forall i :: 0 < i < |items| ==> items[i] == rest[i - 1];
      assert forall i :: 0 <= i < |rest| ==> rest[i] == items[i + 1];
    }
  }

  /** A list is asked for the value among its items, each without the white space around it,
      blank ones not counting: an absent or empty value is in no list. */
  lemma InForm(key: string, items: seq<string>, ctx: Ctx, search: (string, string) -> Option<bool>)
    requires '=' !in key && items != [] && forall i :: 0 <= i < |items| ==> ',' !in items[i]
    ensures Evaluate("context_in:" + (key + "=" + Join(items)), ctx, search)
         == Some(key in ctx && ctx[key] != "" && exists i :: 0 <= i < |items| && IsStripped(items[i], ctx[key]))
  {
    var actual := if key in ctx then ctx[key] else "";
    Comparison(In, key, Join(items), ctx, search);
    JoinedAreListed(items, actual);
    forall i | 0 <= i < |items| ensures IsStripped(items[i], actual) <==> actual == Strip(items[i]) {
      StripStrips(items[i]);
      if IsStripped(items[i], actual) { StrippedIsUnique(items[i], actual, Strip(items[i])); }
    }
  }
}
