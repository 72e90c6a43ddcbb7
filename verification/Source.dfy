/** A source file as the local code analyser sees it: one record per line, with the regular-expression matches
    and character counts of that line given. */
module Source {
  import opened Prelude

  type Name = s: string | s != "" witness "f"

  datatype CallRef = CallRef(receiver: string, callee: string)

  datatype Declaration = Declaration(name: string, kind: string)

  datatype Line = Line(
    declares: Option<Declaration>,
    begins: Option<Name>,
    calls: seq<CallRef>,
    opens: nat,
    closes: nat,
    indent: nat,
    blank: bool,
    startsBlock: bool,
    secret: bool,
    text: string)

  /** Line i of the file, counted from 1. */
  function At(lines: seq<Line>, i: int): Line
    requires 1 <= i <= |lines|
  {
    lines[i - 1]
  }

  predicate HasBrace(l: Line) { l.opens > 0 || l.closes > 0 }

  /** Opening minus closing braces on lines from..last. */
  function Depth(lines: seq<Line>, from: int, last: int): int
    requires 1 <= from && last <= |lines|
    decreases last - from
  {
    if last < from then 0
    else Depth(lines, from, last - 1) + At(lines, last).opens - At(lines, last).closes
  }

  /** Some line among from..last holds an opening brace. */
  predicate Opened(lines: seq<Line>, from: int, last: int)
    requires 1 <= from && last <= |lines|
  {
    exists i :: from <= i <= last && At(lines, i).opens > 0
  }
}
