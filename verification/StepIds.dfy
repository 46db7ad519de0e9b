/** Step ids as the strings observers see, like `steps[2]>group[0]`. */
module StepIds {
  import opened Digits
  import opened Interpreter

  function PartName(p: Part): string {
    match p
    case BeforeSteps => "before_steps"
    case InSteps => "steps"
    case OnSuccess => "on_success"
    case OnFailure => "on_failure"
    case FinallyHooks => "finally_steps"
    case InGroup => "group"
    case InRepeat => "repeat"
    case InParallel => "parallel"
    case InTry => "try"
    case InCatch => "catch"
    case InFinally => "finally"
  }

  function SegmentText(s: Segment): string {
    PartName(s.part) + ['['] + (Decimal(s.index) + [']'])
  }

  function Render(id: StepId): string
    requires id != []
  {
    var n := |id| - 1;
    if n == 0 then SegmentText(id[0]) else Render(id[..n]) + ['>'] + SegmentText(id[n])
  }

  /** How a step inside a block is called. */
  lemma NestedIdIsSpelled(outer: Segment, inner: Segment)
    requires outer.index < 10 && inner.index < 10
    ensures Render([outer, inner])
         == PartName(outer.part) + ['[', Digit(outer.index), ']', '>'] + PartName(inner.part)
            + ['[', Digit(inner.index), ']']
  {
    assert [outer, inner][..1] == [outer];
    assert Decimal(outer.index) == [Digit(outer.index)] && Decimal(inner.index) == [Digit(inner.index)];
  }

  predicate IsNameChar(c: char) {
    'a' <= c <= 'z' || c == '_'
  }

  lemma PartNamesDiffer(p: Part, q: Part)
    requires PartName(p) == PartName(q)
    ensures p == q
  {
    var s, t := PartName(p), PartName(q);
    assert |s| == |t| && s[0] == t[0] && s[1] == t[1];
  }

  lemma NameCharsOnly(p: Part)
    ensures forall i :: 0 <= i < |PartName(p)| ==> IsNameChar(PartName(p)[i])
  {
  }

  lemma SegmentTextHasNo(s: Segment)
    ensures '>' !in SegmentText(s)
  {
    NameCharsOnly(s.part);
    assert forall i :: 0 <= i < |Decimal(s.index)| ==> IsDigit(Decimal(s.index)[i]);
  }

  lemma SegmentTextIsInjective(s: Segment, t: Segment)
    requires SegmentText(s) == SegmentText(t)
    ensures s == t
  {
    NameCharsOnly(s.part);
    NameCharsOnly(t.part);
    var a, b := Decimal(s.index) + [']'], Decimal(t.index) + [']'];
    FirstSplitIsUnique('[', PartName(s.part), a, PartName(t.part), b);
    PartNamesDiffer(s.part, t.part);
    assert a[..|a| - 1] == Decimal(s.index) && b[..|b| - 1] == Decimal(t.index);
    PadIsInjective(s.index, t.index, 1);
  }

  /** The last '>' of an id's text separates its last segment. */
  lemma RenderSplits(id: StepId)
    requires |id| > 1
    ensures '>' in Render(id)
    ensures Render(id) == Render(id[..|id| - 1]) + ['>'] + SegmentText(id[|id| - 1])
  {
    assert Render(id)[|Render(id[..|id| - 1])|] == '>';
  }

  /** Equal texts have equal last segments, and what is before them is equal too. */
  lemma LastSegmentsAgree(id: StepId, id': StepId)
    requires id != [] && id' != [] && Render(id) == Render(id')
    ensures id[|id| - 1] == id'[|id'| - 1]
    ensures |id| > 1 <==> |id'| > 1
    ensures |id| > 1 && |id'| > 1 ==> Render(id[..|id| - 1]) == Render(id'[..|id'| - 1])
  {
    var n, n' := |id| - 1, |id'| - 1;
    SegmentTextHasNo(id[n]);
    SegmentTextHasNo(id'[n']);
    if n > 0 { RenderSplits(id); }
    if n' > 0 { RenderSplits(id'); }
    if n > 0 {
      LastSplitIsUnique('>', Render(id[..n]), SegmentText(id[n]), Render(id'[..n']), SegmentText(id'[n']));
    }
    SegmentTextIsInjective(id[n], id'[n']);
  }

  lemma SameToTheLast(id: StepId, id': StepId)
    requires id != [] && id' != [] && id[..|id| - 1] == id'[..|id'| - 1] && id[|id| - 1] == id'[|id'| - 1]
    ensures id == id'
  {
    assert id == id[..|id| - 1] + [id[|id| - 1]];
    assert id' == id'[..|id'| - 1] + [id'[|id'| - 1]];
  }

  /** Different steps have different ids as strings. */
  lemma {:induction false} RenderIsInjective(id: StepId, id': StepId)
    requires id != [] && id' != []
    requires Render(id) == Render(id')
    ensures id == id'
    decreases |id|
  {
    LastSegmentsAgree(id, id');
    var n, n' := |id| - 1, |id'| - 1;
    if n > 0 {
      RenderIsInjective(id[..n], id'[..n']);
      SameToTheLast(id, id');
    }
  }
}
