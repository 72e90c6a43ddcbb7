/** Which lines of a hit are shown: _line_range and _code_excerpt of local_code.py. */
module Excerpt {
  import opened Prelude
  import opened Source
  import opened Scope

  const MAX_LINE_CHARS := 180

  function MinOf(xs: seq<int>): (m: int)
    requires xs != []
    ensures m in xs && forall x :: x in xs ==> m <= x
  {
    if |xs| == 1 then xs[0]
    else
      assert xs == xs[..|xs| - 1] + [xs[|xs| - 1]];
      Min(MinOf(xs[..|xs| - 1]), xs[|xs| - 1])
  }

  function MaxOf(xs: seq<int>): (m: int)
    requires xs != []
    ensures m in xs && forall x :: x in xs ==> x <= m
  {
    if |xs| == 1 then xs[0]
    else
      assert xs == xs[..|xs| - 1] + [xs[|xs| - 1]];
      Max(MaxOf(xs[..|xs| - 1]), xs[|xs| - 1])
  }

  datatype Language = Python | Braced | Other

  function BoundedRange(start: int, end: int, total: int): (int, int) {
    var s := Max(1, Min(start, total));
    var e := Max(s, Min(end, total));
    if e - s + 1 <= MAX_EXCERPT_LINES then (s, e) else (s, Min(total, s + MAX_EXCERPT_LINES - 1))
  }

  method SymbolScope(lines: seq<Line>, symbolLine: int, language: Language) returns (start: int, end: int)
    requires lines != []
    ensures language.Python? ==> IsPythonScope(lines, symbolLine, start, end)
    ensures language.Braced? ==> IsBracedScope(lines, symbolLine, start, end)
    ensures 1 <= start && end <= |lines|
    ensures language.Other? ==> start == Max(1, symbolLine) && end == Min(|lines|, symbolLine + MAX_EXCERPT_LINES - 1)
  {
    match language {
      case Python => start, end := PythonScopeRange(lines, symbolLine);
      case Braced => start, end := BracedScopeRange(lines, symbolLine);
      case Other => start, end := Max(1, symbolLine), Min(Total(lines), symbolLine + MAX_EXCERPT_LINES - 1);
    }
  }

  /** The lines of xs in lo..hi, in order. */
  function Within(lo: int, hi: int, xs: seq<int>): (r: seq<int>)
    ensures forall x :: x in r <==> x in xs && lo <= x <= hi
  {
    if xs == [] then []
    else
      var last := xs[|xs| - 1];
      assert xs == xs[..|xs| - 1] + [last];
      Within(lo, hi, xs[..|xs| - 1]) + if lo <= last <= hi then [last] else []
  }

  /** The window around matched lines inside a scope; one of them is among its first 14 lines. */
  function ScopedWindow(lo: int, hi: int, scoped: seq<int>): (w: (int, int))
    requires scoped != [] && forall x :: x in scoped ==> lo <= x <= hi
    ensures lo <= w.0 && w.1 <= hi
    ensures exists x :: x in scoped && w.0 <= x <= w.1 && x < w.0 + MAX_EXCERPT_LINES
  {
    var first, last, focus := MinOf(scoped), MaxOf(scoped), scoped[0];
    assert focus in scoped;
    if last - first + 1 > MAX_EXCERPT_LINES then
      var start := Max(lo, focus - 3);
      assert start <= focus <= Min(hi, start + MAX_EXCERPT_LINES - 1);
      (start, Min(hi, start + MAX_EXCERPT_LINES - 1))
    else
      var start := Max(lo, first - 2);
      assert start <= first <= Min(hi, last + 4);
      (start, Min(hi, last + 4))
  }

  lemma BoundedKeeps(start: int, end: int, total: int, x: int)
    requires 1 <= total && 1 <= x <= total && start <= x <= end && x < start + MAX_EXCERPT_LINES
    ensures var (s, e) := BoundedRange(start, end, total); s <= x <= e
  {
  }

  /** The window is (0,0) only with neither symbol nor line; otherwise it lies inside the file, spans at most 14 lines
      and shows a matched line or the symbol's own line. */
  method LineRange(lines: seq<Line>, lineNumbers: seq<int>, symbolLine: Option<int>, language: Language)
    returns (start: int, end: int)
    requires lines != []
    ensures (start, end) == (0, 0) <==> symbolLine.None? && lineNumbers == []
    ensures symbolLine.Some? || lineNumbers != [] ==> 1 <= start <= end <= |lines| && end - start < MAX_EXCERPT_LINES
    ensures symbolLine.None? && lineNumbers != [] && 1 <= MinOf(lineNumbers) <= |lines| ==>
            start <= MinOf(lineNumbers) <= end
    ensures symbolLine.Some? && 1 <= symbolLine.value <= |lines| ==>
              start <= symbolLine.value <= end || exists line :: line in lineNumbers && start <= line <= end
  {
    hide IsPythonScope, IsBracedScope, ScopedWindow;
    var total := Total(lines);
    if symbolLine.Some? {
      var scopeStart, scopeEnd := SymbolScope(lines, symbolLine.value, language);
      var scoped := Within(scopeStart, scopeEnd, lineNumbers);
      if scoped != [] {
        var window := ScopedWindow(scopeStart, scopeEnd, scoped);
        start, end := window.0, window.1;
        ghost var x :| x in scoped && start <= x <= end && x < start + MAX_EXCERPT_LINES;
        BoundedKeeps(start, end, total, x);
        assert x in lineNumbers;
      } else {
        start := Max(1, symbolLine.value - 1);
        end := Min(total, symbolLine.value + 5);
        SymbolStays(symbolLine.value, total);
      }
    } else if lineNumbers != [] {
      start := Max(1, MinOf(lineNumbers) - 2);
      end := Min(total, MaxOf(lineNumbers) + 4);
      FirstStays(lineNumbers, total);
    } else {
      return 0, 0;
    }
    BoundedFits(start, end, total);
    var bounded := BoundedRange(start, end, total);
    hide BoundedRange;
    start, end := bounded.0, bounded.1;
  }

  lemma BoundedFits(start: int, end: int, total: int)
    requires 1 <= total
    ensures var (s, e) := BoundedRange(start, end, total); 1 <= s <= e <= total && e - s < MAX_EXCERPT_LINES
  {
  }

  lemma SymbolStays(line: int, total: int)
    requires 1 <= total
    ensures var (s, e) := BoundedRange(Max(1, line - 1), Min(total, line + 5), total);
            1 <= line <= total ==> s <= line <= e
  {
  }

  lemma FirstStays(lineNumbers: seq<int>, total: int)
    requires 1 <= total && lineNumbers != []
    ensures var (s, e) := BoundedRange(Max(1, MinOf(lineNumbers) - 2), Min(total, MaxOf(lineNumbers) + 4), total);
            1 <= MinOf(lineNumbers) <= total ==> s <= MinOf(lineNumbers) <= e
  {
    assert MinOf(lineNumbers) <= MaxOf(lineNumbers);
    hide MinOf, MaxOf;
  }

  datatype ExcerptLine = ExcerptLine(number: int, text: string)

  function Sanitize(l: Line): string {
    if l.secret then "<masked secret-like line>"
    else if |l.text| > MAX_LINE_CHARS then l.text[..MAX_LINE_CHARS] + "..."
    else l.text
  }

  /** Exactly the lines of the window that the file has, in order; a secret-like line never shows its text. */
  method CodeExcerpt(lines: seq<Line>, start: int, end: int) returns (excerpt: seq<ExcerptLine>)
    ensures start <= 0 || end < start ==> excerpt == []
    ensures start > 0 && end >= start ==> |excerpt| == Max(0, Min(end, |lines|) - start + 1)
    ensures forall i :: 0 <= i < |excerpt| ==>
              && excerpt[i].number == start + i <= |lines|
              && excerpt[i].text == Sanitize(At(lines, start + i))
              && |excerpt[i].text| <= MAX_LINE_CHARS + 3
              && (At(lines, start + i).secret ==> excerpt[i].text == "<masked secret-like line>")
  {
    excerpt := [];
    if start <= 0 || end < start {
      return;
    }
    var last := Min(end, |lines|);
    var n := start;
    while n <= last
      invariant start <= n <= Max(start, last + 1)
      invariant |excerpt| == n - start
      invariant forall i :: 0 <= i < |excerpt| ==>
                  && excerpt[i].number == start + i <= |lines|
                  && excerpt[i].text == Sanitize(At(lines, start + i))
                  && |excerpt[i].text| <= MAX_LINE_CHARS + 3
      decreases last - n
    {
      excerpt := excerpt + [ExcerptLine(n, Sanitize(lines[n - 1]))];
      n := n + 1;
    }
  }
}
