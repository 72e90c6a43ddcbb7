/** The scope finders of apps/decision-engine/decision_engine/local_code.py. */
module Scope {
  import opened Source

  const MAX_EXCERPT_LINES := 14

  /** How far past the first line the braced finder looks. */
  const REACH := 241

  function Min(a: int, b: int): int { if a <= b then a else b }
  function Max(a: int, b: int): int { if a >= b then a else b }

  function Total(lines: seq<Line>): int { Max(1, |lines|) }

  function Clamp(lines: seq<Line>, line: int): int { Min(Max(1, line), Total(lines)) }

  /** The block begun at line f is closed on line j: an opening brace was seen and the depth is back to zero or
      below. */
  ghost predicate ClosedAt(lines: seq<Line>, f: int, j: int)
    requires 1 <= f
  {
    f <= j <= |lines| && Opened(lines, f, j) && Depth(lines, f, j) <= 0
  }

  ghost predicate FirstClose(lines: seq<Line>, f: int, j: int)
    requires 1 <= f
  {
    ClosedAt(lines, f, j) && forall i :: f <= i < j ==> !ClosedAt(lines, f, i)
  }

  /** What _braced_scope_range promises. */
  ghost predicate IsBracedScope(lines: seq<Line>, startLine: int, start: int, end: int)
    requires lines != []
  {
    && start == Clamp(lines, startLine)
    && ((FirstClose(lines, start, end) && end <= start + REACH)
        || (end == Min(|lines|, start + MAX_EXCERPT_LINES - 1)
            && forall j :: start <= j <= start + REACH ==> !ClosedAt(lines, start, j)))
  }

  method BracedScopeRange(lines: seq<Line>, startLine: int) returns (start: int, end: int)
    requires lines != []
    ensures IsBracedScope(lines, startLine, start, end)
  {
    start := Min(Max(1, startLine), Total(lines));
    var depth, found := 0, false;
    var idx := start;
    while idx < |lines| + 1
      invariant start <= idx <= |lines| + 1 && idx <= start + REACH
      invariant depth == Depth(lines, start, idx - 1) && found == Opened(lines, start, idx - 1)
      invariant forall j :: start <= j < idx ==> !ClosedAt(lines, start, j)
      decreases |lines| - idx
    {
      var line := lines[idx - 1];
      depth := depth + line.opens - line.closes;
      if line.opens > 0 {
        found := true;
      }
      assert found == Opened(lines, start, idx) by {
        assert At(lines, idx) == line;
      }
      if found && depth <= 0 {
        return start, idx;
      }
      if idx - start > 240 {
        break;
      }
      idx := idx + 1;
    }
    end := Min(Total(lines), start + MAX_EXCERPT_LINES - 1);
  }

  lemma BracedScopeUnique(lines: seq<Line>, startLine: int, s1: int, e1: int, s2: int, e2: int)
    requires lines != []
    requires IsBracedScope(lines, startLine, s1, e1) && IsBracedScope(lines, startLine, s2, e2)
    ensures s1 == s2 && e1 == e2
  {
    assert FirstClose(lines, s1, e1) && FirstClose(lines, s1, e2) ==> !(e1 < e2) && !(e2 < e1);
  }

  /** Line i ends a Python block begun with this indent. */
  predicate Dedents(lines: seq<Line>, base: nat, i: int)
    requires 1 <= i <= |lines|
  {
    var l := At(lines, i);
    !l.blank && l.indent <= base && l.startsBlock
  }

  ghost predicate IsPythonScope(lines: seq<Line>, startLine: int, start: int, end: int)
    requires lines != []
  {
    && start == Clamp(lines, startLine)
    && var base := At(lines, start).indent;
       || (start <= end < |lines| && Dedents(lines, base, end + 1) && forall i :: start < i <= end ==>
           !Dedents(lines, base, i))
       || (end == Min(|lines|, start + MAX_EXCERPT_LINES - 1) && forall i :: start < i <= |lines| ==>
           !Dedents(lines, base, i))
  }

  method PythonScopeRange(lines: seq<Line>, startLine: int) returns (start: int, end: int)
    requires lines != []
    ensures IsPythonScope(lines, startLine, start, end)
  {
    start := Min(Max(1, startLine), Total(lines));
    var base := lines[start - 1].indent;
    end := Min(Total(lines), start + MAX_EXCERPT_LINES - 1);
    for idx := start + 1 to |lines| + 1
      invariant forall i :: start < i < idx ==> !Dedents(lines, base, i)
      invariant end == Min(|lines|, start + MAX_EXCERPT_LINES - 1)
    {
      var line := lines[idx - 1];
      if line.blank {
        continue;
      }
      if line.indent <= base && line.startsBlock {
        end := idx - 1;
        break;
      }
    }
  }
}
