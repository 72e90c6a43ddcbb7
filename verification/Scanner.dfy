/** The Go and JS/TS line scanners of apps/decision-engine/decision_engine/local_code.py. */
module Scanner {
  import opened Prelude
  import opened Source
  import opened Scope

  datatype Symbol = Symbol(name: string, kind: string, line: int)
  datatype Edge = Edge(caller: string, callee: string, receiver: string, line: int)

  /** The scanner's variables; since is the line current was begun on. */
  datatype ScanState = ScanState(symbols: seq<Symbol>, edges: seq<Edge>, current: string, depth: int, since: int)

  const FRESH := ScanState([], [], "", 0, 0)

  /** The edges of one line: the function does not call itself. */
  function LineEdges(current: string, calls: seq<CallRef>, no: int): seq<Edge> {
    if calls == [] then []
    else
      var last := calls[|calls| - 1];
      LineEdges(current, calls[..|calls| - 1], no)
      + if last.callee == current then [] else [Edge(current, last.callee, last.receiver, no)]
  }

  /** The function declaration of a line is looked at only outside a function. */
  function Begin(st: ScanState, line: Line, no: int): ScanState {
    var declared := if line.declares.None? then st.symbols
                    else st.symbols + [Symbol(line.declares.value.name, line.declares.value.kind, no)];
    if st.current == "" && line.begins.Some? then
      ScanState(declared + [Symbol(line.begins.value, "function", no)], st.edges, line.begins.value, 0, no)
    else st.(symbols := declared)
  }

  function ScanLine(st: ScanState, line: Line, no: int): ScanState {
    var s := Begin(st, line, no);
    if s.current == "" then s
    else
      var depth := s.depth + line.opens - line.closes;
      s.(edges := s.edges + LineEdges(s.current, line.calls, no),
         depth := depth,
         current := if depth <= 0 && HasBrace(line) then "" else s.current)
  }

  function Scan(lines: seq<Line>): ScanState {
    if lines == [] then FRESH
    else ScanLine(Scan(lines[..|lines| - 1]), lines[|lines| - 1], |lines|)
  }

  method CollectEdges(current: string, calls: seq<CallRef>, no: int) returns (edges: seq<Edge>)
    ensures edges == LineEdges(current, calls, no)
  {
    edges := [];
    for k := 0 to |calls|
      invariant edges == LineEdges(current, calls[..k], no)
    {
      assert calls[..k + 1][..k] == calls[..k];
      if calls[k].callee == current {
        continue;
      }
      edges := edges + [Edge(current, calls[k].callee, calls[k].receiver, no)];
    }
    assert calls[..|calls|] == calls;
  }

  method AnalyzeBraced(lines: seq<Line>) returns (symbols: seq<Symbol>, edges: seq<Edge>)
    ensures symbols == Scan(lines).symbols && edges == Scan(lines).edges
  {
    symbols, edges := [], [];
    var current, depth := "", 0;
    ghost var since := 0;
    assert Scan(lines[..0]) == FRESH;
    hide Scan, LineEdges;
    for n := 0 to |lines|
      invariant ScanState(symbols, edges, current, depth, since) == Scan(lines[..n])
    {
      var line, no := lines[n], n + 1;
      ghost var begun := Begin(Scan(lines[..n]), line, no);
      ScanStep(lines, no);
      if line.declares.Some? {
        symbols := symbols + [Symbol(line.declares.value.name, line.declares.value.kind, no)];
      }
      if current == "" {
        if line.begins.Some? {
          current := line.begins.value;
          symbols := symbols + [Symbol(current, "function", no)];
          depth := 0;
          since := no;
        }
      }
      assert ScanState(symbols, edges, current, depth, since) == begun;
      hide Begin;
      if current != "" {
        var found := CollectEdges(current, line.calls, no);
        edges := edges + found;
        depth := depth + line.opens - line.closes;
        if depth <= 0 && (line.opens > 0 || line.closes > 0) {
          current := "";
        }
      }
    }
    assert lines[..|lines|] == lines;
  }

  // ---------------------------------------------------------------- when the scanner lets a function go

  /** The scanner's own rule, read from the function's line on. */
  ghost predicate ReleasedAt(lines: seq<Line>, f: int, j: int)
    requires 1 <= f
  {
    f <= j <= |lines| && HasBrace(At(lines, j)) && Depth(lines, f, j) <= 0
  }

  ghost predicate FirstRelease(lines: seq<Line>, f: int, j: int)
    requires 1 <= f
  {
    ReleasedAt(lines, f, j) && forall i :: f <= i < j ==> !ReleasedAt(lines, f, i)
  }

  /** The first line from f on that holds a brace at all holds an opening one. */
  ghost predicate FirstBraceOpens(lines: seq<Line>, f: int)
    requires 1 <= f
  {
    forall j :: f <= j <= |lines| && HasBrace(At(lines, j)) && (forall i :: f <= i < j ==> !HasBrace(At(lines, i)))
                ==> At(lines, j).opens > 0
  }

  lemma {:induction false} NoBraceNoDepth(lines: seq<Line>, f: int, j: int)
    requires 1 <= f && j <= |lines|
    requires forall i :: f <= i <= j ==> !HasBrace(At(lines, i))
    ensures Depth(lines, f, j) == 0 && !Opened(lines, f, j)
    decreases j - f
  {
    if f <= j {
      NoBraceNoDepth(lines, f, j - 1);
    }
  }

  /** Under FirstBraceOpens a release is a close. */
  lemma {:induction false} ReleaseIsClose(lines: seq<Line>, f: int, j: int, k: int)
    requires 1 <= f <= k <= j <= |lines| && FirstBraceOpens(lines, f)
    requires forall i :: f <= i < k ==> !HasBrace(At(lines, i))
    requires ReleasedAt(lines, f, j)
    ensures ClosedAt(lines, f, j)
    decreases j - k
  {
    if HasBrace(At(lines, k)) {
      assert At(lines, k).opens > 0;
    } else {
      ReleaseIsClose(lines, f, j, k + 1);
    }
  }

  /** A close has a release at or before it. */
  lemma {:induction false} CloseHasRelease(lines: seq<Line>, f: int, j: int)
    requires 1 <= f && ClosedAt(lines, f, j)
    ensures exists i :: f <= i <= j && ReleasedAt(lines, f, i)
    decreases j - f
  {
    if HasBrace(At(lines, j)) {
      assert ReleasedAt(lines, f, j);
    } else {
      assert ClosedAt(lines, f, j - 1);
      CloseHasRelease(lines, f, j - 1);
    }
  }

  lemma {:induction false} FirstReleaseExists(lines: seq<Line>, f: int, j: int) returns (i: int)
    requires 1 <= f && ReleasedAt(lines, f, j)
    ensures f <= i <= j && FirstRelease(lines, f, i)
    decreases j - f
  {
    if forall k :: f <= k < j ==> !ReleasedAt(lines, f, k) {
      i := j;
    } else {
      var k :| f <= k < j && ReleasedAt(lines, f, k);
      i := FirstReleaseExists(lines, f, k);
    }
  }

  lemma SameFirstLine(lines: seq<Line>, f: int, j: int)
    requires 1 <= f && FirstBraceOpens(lines, f)
    ensures FirstRelease(lines, f, j) <==> FirstClose(lines, f, j)
  {
    if FirstRelease(lines, f, j) {
      ReleaseIsClose(lines, f, j, f);
      forall i | f <= i < j
        ensures !ClosedAt(lines, f, i)
      {
        if ClosedAt(lines, f, i) {
          CloseHasRelease(lines, f, i);
          assert false;
        }
      }
    }
    if FirstClose(lines, f, j) {
      CloseHasRelease(lines, f, j);
      var k :| f <= k <= j && ReleasedAt(lines, f, k);
      var i := FirstReleaseExists(lines, f, k);
      ReleaseIsClose(lines, f, i, f);
    }
  }

  /** The scanner's first release is the first line on which the block is closed, however far down, exactly when the
      first brace-bearing line from f on opens a brace. */
  lemma ReleaseIsCloseIff(lines: seq<Line>, f: int)
    requires 1 <= f
    ensures (forall j :: FirstRelease(lines, f, j) <==> FirstClose(lines, f, j)) <==> FirstBraceOpens(lines, f)
  {
    if FirstBraceOpens(lines, f) {
      forall j
        ensures FirstRelease(lines, f, j) <==> FirstClose(lines, f, j)
      {
        SameFirstLine(lines, f, j);
      }
    } else {
      var j :| f <= j <= |lines| && FirstBraceLine(lines, f, j) && At(lines, j).opens == 0;
      LoneCloseReleases(lines, f, j);
      assert !FirstClose(lines, f, j);
    }
  }

  /** Line j is the first from f on that holds a brace. */
  ghost predicate FirstBraceLine(lines: seq<Line>, f: int, j: int)
    requires 1 <= f && j <= |lines|
  {
    f <= j && HasBrace(At(lines, j)) && forall i :: f <= i < j ==> !HasBrace(At(lines, i))
  }

  /** A first brace-bearing line that opens nothing releases the function without closing its block. */
  lemma LoneCloseReleases(lines: seq<Line>, f: int, j: int)
    requires 1 <= f <= j <= |lines| && FirstBraceLine(lines, f, j) && At(lines, j).opens == 0
    ensures FirstRelease(lines, f, j) && !Opened(lines, f, j) && !FirstBraceOpens(lines, f)
  {
    NoBraceNoDepth(lines, f, j - 1);
    assert Depth(lines, f, j) < 0;
  }

  // ---------------------------------------------------------------- the scanner and the scope range

  /** The block begun at line f closes no further down than the scope finder looks. */
  ghost predicate ClosesInReach(lines: seq<Line>, f: int)
    requires 1 <= f
  {
    exists j :: f <= j <= f + REACH && ClosedAt(lines, f, j)
  }

  /** The scope range ends where the block closes, or, if that is not within reach, after 14 lines. */
  lemma RangeEnds(lines: seq<Line>, f: int, end: int)
    requires 1 <= f <= |lines| && IsBracedScope(lines, f, f, end)
    ensures f <= end <= |lines|
    ensures ClosesInReach(lines, f) ==> FirstClose(lines, f, end)
    ensures !ClosesInReach(lines, f) ==>
              end == Min(|lines|, f + MAX_EXCERPT_LINES - 1) && forall j :: f <= j <= f + REACH ==>
                  !ClosedAt(lines, f, j)
  {
    if ClosesInReach(lines, f) {
      var j :| f <= j <= f + REACH && ClosedAt(lines, f, j);
    }
  }

  /** A release closes the block unless the first brace-bearing line opens nothing, and then it is that line. */
  lemma ReleaseCloses(lines: seq<Line>, f: int, j: int)
    requires 1 <= f <= |lines| && FirstRelease(lines, f, j)
    ensures if FirstBraceOpens(lines, f) then FirstClose(lines, f, j)
            else FirstBraceLine(lines, f, j) && At(lines, j).opens == 0
  {
    if FirstBraceOpens(lines, f) {
      SameFirstLine(lines, f, j);
    } else {
      var k :| f <= k <= |lines| && FirstBraceLine(lines, f, k) && At(lines, k).opens == 0;
      LoneCloseReleases(lines, f, k);
      assert j == k;
    }
  }

  /** The scanner ends a function on the line the scope finder returns, for every file and every line f, exactly when
      the first brace-bearing line opens a brace and the block closes within reach; or when it does not close within
      reach and the line 14 lines down, or the last of the file, happens to be the first to hold a brace and opens
      none. */
  lemma ReleaseIsScopeEndIff(lines: seq<Line>, f: int, end: int)
    requires 1 <= f <= |lines| && IsBracedScope(lines, f, f, end)
    ensures FirstRelease(lines, f, end)
            <==> || (FirstBraceOpens(lines, f) && ClosesInReach(lines, f))
                 || (&& !ClosesInReach(lines, f) && end == Min(|lines|, f + MAX_EXCERPT_LINES - 1)
                     && FirstBraceLine(lines, f, end) && At(lines, end).opens == 0)
  {
    RangeEnds(lines, f, end);
    hide IsBracedScope;
    if FirstRelease(lines, f, end) {
      ReleaseCloses(lines, f, end);
    }
    if FirstBraceOpens(lines, f) {
      SameFirstLine(lines, f, end);
    }
    if FirstBraceLine(lines, f, end) && At(lines, end).opens == 0 {
      LoneCloseReleases(lines, f, end);
    }
  }

  /** The block does not close within reach, and the first brace-bearing line among f..end, if any, opens a brace. */
  ghost predicate Overruns(lines: seq<Line>, f: int, end: int)
    requires 1 <= f && end <= |lines|
  {
    !ClosesInReach(lines, f) && forall j :: f <= j <= end && FirstBraceLine(lines, f, j) ==> At(lines, j).opens > 0
  }

  /** Nothing releases the function up to the end of its scope range exactly when it overruns the range. */
  lemma OverrunsIffUnreleased(lines: seq<Line>, f: int, end: int)
    requires 1 <= f <= |lines| && IsBracedScope(lines, f, f, end)
    ensures f <= end <= |lines| && (Overruns(lines, f, end) <==> forall i :: f <= i <= end ==> !ReleasedAt(lines, f, i))
  {
    RangeEnds(lines, f, end);
    hide IsBracedScope;
    if ClosesInReach(lines, f) {
      CloseHasRelease(lines, f, end);
    } else if Overruns(lines, f, end) {
      forall i | f <= i <= end
        ensures !ReleasedAt(lines, f, i)
      {
        if ReleasedAt(lines, f, i) {
          ReleaseClosesBy(lines, f, i, end);
          assert false;
        }
      }
    } else {
      var j :| f <= j <= end && FirstBraceLine(lines, f, j) && At(lines, j).opens == 0;
      LoneCloseReleases(lines, f, j);
    }
  }

  /** A release on a line up to end comes with a close there, when the first brace-bearing line up to end opens a
      brace. */
  lemma ReleaseClosesBy(lines: seq<Line>, f: int, i: int, end: int)
    requires 1 <= f <= i <= end <= |lines| && ReleasedAt(lines, f, i)
    requires forall j :: f <= j <= end && FirstBraceLine(lines, f, j) ==> At(lines, j).opens > 0
    ensures exists j :: f <= j <= i && ClosedAt(lines, f, j)
  {
    var k := FirstReleaseExists(lines, f, i);
    if !ClosedAt(lines, f, k) {
      assert !FirstBraceOpens(lines, f) by {
        if FirstBraceOpens(lines, f) {
          SameFirstLine(lines, f, k);
          assert false;
        }
      }
      ReleaseCloses(lines, f, k);
      assert false;
    }
  }

  /** n blank lines between an opening and a closing brace. */
  function LongFunction(name: Name, n: nat): seq<Line> {
    [Braces(1, 0).(begins := Some(name))] + seq(n, _ => Braces(0, 0)) + [Braces(0, 1)]
  }

  function Braces(opens: nat, closes: nat): Line {
    Line(None, None, [], opens, closes, 0, false, false, false, "")
  }

  lemma {:induction false} DepthStaysOne(name: Name, n: nat, j: int)
    requires 1 <= j <= n + 1
    ensures Depth(LongFunction(name, n), 1, j) == 1
  {
    var lines := LongFunction(name, n);
    if j > 1 {
      DepthStaysOne(name, n, j - 1);
      assert At(lines, j) == Braces(0, 0);
    } else {
      assert Depth(lines, 1, 0) == 0;
    }
  }

  /** However long a function is beyond reach, its first brace-bearing line opens and its first release is its first
      close, yet its scope range ends on line 14 and the scanner holds it beyond. */
  lemma LongFunctionOverruns(name: Name, n: nat)
    requires n >= REACH
    ensures var lines := LongFunction(name, n);
            && FirstBraceOpens(lines, 1) && FirstRelease(lines, 1, n + 2) && FirstClose(lines, 1, n + 2)
            && IsBracedScope(lines, 1, 1, MAX_EXCERPT_LINES) && Overruns(lines, 1, MAX_EXCERPT_LINES)
            && Begins(lines, 1)
  {
    var lines := LongFunction(name, n);
    assert At(lines, 1).opens == 1 && At(lines, n + 2) == Braces(0, 1);
    forall j | 1 <= j <= n + 1
      ensures Depth(lines, 1, j) == 1
    {
      DepthStaysOne(name, n, j);
    }
    assert Opened(lines, 1, n + 2) && Depth(lines, 1, n + 2) == 0;
    SameFirstLine(lines, 1, n + 2);
    assert lines[..0] == [];
  }

  // ---------------------------------------------------------------- whole scans

  /** The scanner begins a function on line f. */
  predicate Begins(lines: seq<Line>, f: int) {
    1 <= f <= |lines| && Scan(lines[..f - 1]).current == "" && At(lines, f).begins.Some?
  }

  lemma ScanStep(lines: seq<Line>, i: int)
    requires 1 <= i <= |lines|
    ensures Scan(lines[..i]) == ScanLine(Scan(lines[..i - 1]), At(lines, i), i)
  {
    assert lines[..i][..i - 1] == lines[..i - 1];
  }

  /** The scanner holds a function begun on f, at the right depth, until its first release. */
  lemma {:induction false} HoldsUntilRelease(lines: seq<Line>, f: int, i: int)
    requires Begins(lines, f) && f <= i <= |lines|
    requires forall k :: f <= k < i ==> !ReleasedAt(lines, f, k)
    ensures var st := Scan(lines[..i]);
            if ReleasedAt(lines, f, i) then st.current == ""
            else st.current == At(lines, f).begins.value && st.since == f && st.depth == Depth(lines, f, i)
    decreases i - f
  {
    ScanStep(lines, i);
    if i > f {
      HoldsUntilRelease(lines, f, i - 1);
    } else {
      assert Depth(lines, f, f - 1) == 0;
    }
  }

  /** On a function whose first brace-bearing line opens and whose block closes within reach, the scanner holds the
      function on every line of the scope range and lets it go on exactly the range's last line. */
  lemma ScannerMatchesScope(lines: seq<Line>, f: int, end: int)
    requires Begins(lines, f) && FirstBraceOpens(lines, f) && ClosesInReach(lines, f)
    requires IsBracedScope(lines, f, f, end)
    ensures f <= end <= |lines|
    ensures Scan(lines[..end]).current == ""
    ensures forall i :: f <= i < end ==>
            Scan(lines[..i]).current == At(lines, f).begins.value && Scan(lines[..i]).since == f
  {
    SameFirstLine(lines, f, end);
    HoldsUntilRelease(lines, f, end);
    forall i | f <= i < end
      ensures Scan(lines[..i]).current == At(lines, f).begins.value && Scan(lines[..i]).since == f
    {
      HoldsUntilRelease(lines, f, i);
    }
  }

  /** Edge e comes from a function begun on line f, not released before e's line, whose symbol was emitted. */
  ghost predicate CallerOf(lines: seq<Line>, symbols: seq<Symbol>, e: Edge, f: int) {
    && Begins(lines, f) && f <= e.line <= |lines|
    && At(lines, f).begins.value == e.caller
    && Symbol(e.caller, "function", f) in symbols
    && (forall i :: f <= i < e.line ==> !ReleasedAt(lines, f, i))
    && CallRef(e.receiver, e.callee) in At(lines, e.line).calls
    && e.callee != e.caller
  }

  /** The function held after n lines, if any: begun on since, not released yet, at the recorded depth. */
  ghost predicate Holding(lines: seq<Line>, n: int)
    requires 0 <= n <= |lines|
  {
    var st := Scan(lines[..n]);
    st.current != "" ==>
      && Begins(lines, st.since) && st.since <= n
      && At(lines, st.since).begins.value == st.current
      && st.depth == Depth(lines, st.since, n)
      && (forall i :: st.since <= i <= n ==> !ReleasedAt(lines, st.since, i))
      && Symbol(st.current, "function", st.since) in st.symbols
  }

  lemma {:induction false} AlwaysHolding(lines: seq<Line>, n: int)
    requires 0 <= n <= |lines|
    ensures Holding(lines, n)
  {
    hide Holding;
    if n > 0 {
      AlwaysHolding(lines, n - 1);
      HoldsNext(lines, n);
    } else {
      NothingHeld(lines);
    }
  }

  lemma NothingHeld(lines: seq<Line>)
    ensures Holding(lines, 0)
  {
  }

  lemma HoldsNext(lines: seq<Line>, n: int)
    requires 0 < n <= |lines| && Holding(lines, n - 1)
    ensures Holding(lines, n)
  {
    hide Scan, LineEdges;
    ScanStep(lines, n);
    var before, st := Scan(lines[..n - 1]), Scan(lines[..n]);
    if st.current != "" {
      if before.current == "" {
        assert Begins(lines, n) && st.since == n;
        assert Depth(lines, n, n - 1) == 0;
      } else {
        assert st.since == before.since && st.current == before.current;
        hide Begins;
      }
    }
  }

  lemma {:induction false} LineEdgeMember(current: string, calls: seq<CallRef>, no: int, e: Edge)
    requires e in LineEdges(current, calls, no)
    ensures e.caller == current && e.callee != current && e.line == no && CallRef(e.receiver, e.callee) in calls
  {
    var n := |calls| - 1;
    if e in LineEdges(current, calls[..n], no) {
      LineEdgeMember(current, calls[..n], no, e);
    } else {
      assert calls[n] in calls;
    }
  }

  /** Every edge of a scan was emitted while its caller was held. */
  lemma {:induction false} EdgesHaveCallers(lines: seq<Line>, n: int, e: Edge) returns (f: int)
    requires 0 <= n <= |lines| && e in Scan(lines[..n]).edges
    ensures CallerOf(lines, Scan(lines[..n]).symbols, e, f)
  {
    f := 0;
    if n > 0 {
      hide Scan, CallerOf;
      if e in Scan(lines[..n - 1]).edges {
        f := EdgesHaveCallers(lines, n - 1, e);
        SymbolsStay(lines, n, e, f);
      } else {
        f := EdgeJustRead(lines, n, e);
      }
    }
  }

  lemma SymbolsStay(lines: seq<Line>, n: int, e: Edge, f: int)
    requires 0 < n <= |lines| && CallerOf(lines, Scan(lines[..n - 1]).symbols, e, f)
    ensures CallerOf(lines, Scan(lines[..n]).symbols, e, f)
  {
    hide Scan, LineEdges, Begins;
    ScanStep(lines, n);
  }

  lemma EdgeJustRead(lines: seq<Line>, n: int, e: Edge) returns (f: int)
    requires 0 < n <= |lines| && e in Scan(lines[..n]).edges && e !in Scan(lines[..n - 1]).edges
    ensures CallerOf(lines, Scan(lines[..n]).symbols, e, f)
  {
    hide Scan, LineEdges;
    ScanStep(lines, n);
    AlwaysHolding(lines, n - 1);
    var s := Begin(Scan(lines[..n - 1]), At(lines, n), n);
    f := s.since;
    LineEdgeMember(s.current, At(lines, n).calls, n, e);
  }

  /** The scanner still holds a function after the end of its scope range exactly when the function overruns it. */
  lemma HeldPastScopeIff(lines: seq<Line>, f: int, end: int)
    requires Begins(lines, f) && IsBracedScope(lines, f, f, end)
    ensures f <= end <= |lines|
    ensures Overruns(lines, f, end)
            <==> forall i :: f <= i <= end ==>
                Scan(lines[..i]).current == At(lines, f).begins.value && Scan(lines[..i]).since == f
  {
    OverrunsIffUnreleased(lines, f, end);
    hide IsBracedScope, Overruns, Scan;
    if forall i :: f <= i <= end ==> !ReleasedAt(lines, f, i) {
      forall i | f <= i <= end
        ensures Scan(lines[..i]).current == At(lines, f).begins.value && Scan(lines[..i]).since == f
      {
        HoldsUntilRelease(lines, f, i);
      }
    } else {
      var k :| f <= k <= end && ReleasedAt(lines, f, k);
      var i := FirstReleaseExists(lines, f, k);
      HoldsUntilRelease(lines, f, i);
    }
  }

  /** Every edge comes from a function symbol emitted at or above it, and lies in that function's scope range unless the
      function overruns the range. */
  lemma EdgesLieInScope(lines: seq<Line>, e: Edge) returns (f: int)
    requires e in Scan(lines).edges
    ensures CallerOf(lines, Scan(lines).symbols, e, f)
    ensures forall end :: IsBracedScope(lines, f, f, end) ==> f <= e.line && (e.line <= end || Overruns(lines, f, end))
  {
    assert lines[..|lines|] == lines;
    f := EdgesHaveCallers(lines, |lines|, e);
    hide Scan;
    forall end | IsBracedScope(lines, f, f, end)
      ensures f <= e.line && (e.line <= end || Overruns(lines, f, end))
    {
      OverrunsIffUnreleased(lines, f, end);
    }
  }

  lemma {:induction false} EdgesStay(lines: seq<Line>, n: int, e: Edge)
    requires 0 <= n <= |lines| && e in Scan(lines[..n]).edges
    ensures e in Scan(lines).edges
    decreases |lines| - n
  {
    if n == |lines| {
      assert lines[..n] == lines;
    } else {
      ScanStep(lines, n + 1);
      hide Scan;
      EdgesStay(lines, n + 1, e);
    }
  }

  lemma {:induction false} EdgeOfCall(current: string, calls: seq<CallRef>, no: int, call: CallRef)
    requires call in calls && call.callee != current
    ensures Edge(current, call.callee, call.receiver, no) in LineEdges(current, calls, no)
  {
    var n := |calls| - 1;
    assert calls == calls[..n] + [calls[n]];
    if call in calls[..n] {
      EdgeOfCall(current, calls[..n], no, call);
    }
  }

  /** A call on a line that the scanner enters with a function becomes an edge of that function. */
  lemma CallBecomesEdge(lines: seq<Line>, n: int, call: CallRef)
    requires 0 < n <= |lines| && call in At(lines, n).calls
    requires Scan(lines[..n - 1]).current != "" && call.callee != Scan(lines[..n - 1]).current
    ensures Edge(Scan(lines[..n - 1]).current, call.callee, call.receiver, n) in Scan(lines[..n]).edges
  {
    hide Scan, LineEdges;
    ScanStep(lines, n);
    EdgeOfCall(Scan(lines[..n - 1]).current, At(lines, n).calls, n, call);
  }

  lemma HeldAtEnd(lines: seq<Line>, f: int, end: int)
    requires Begins(lines, f) && IsBracedScope(lines, f, f, end) && Overruns(lines, f, end)
    ensures f <= end <= |lines| && Scan(lines[..end]).current == At(lines, f).begins.value
  {
    OverrunsIffUnreleased(lines, f, end);
    hide IsBracedScope, Overruns, Scan;
    HoldsUntilRelease(lines, f, end);
  }

  /** And then edges do leave it: a call on the line after the range becomes an edge of the function. */
  lemma OverrunLeavesScope(lines: seq<Line>, f: int, end: int, call: CallRef)
    requires Begins(lines, f) && IsBracedScope(lines, f, f, end) && Overruns(lines, f, end)
    requires end < |lines| && call in At(lines, end + 1).calls && call.callee != At(lines, f).begins.value
    ensures Edge(At(lines, f).begins.value, call.callee, call.receiver, end + 1) in Scan(lines).edges
  {
    hide IsBracedScope, Overruns, Scan, ReleasedAt;
    HeldAtEnd(lines, f, end);
    hide Begins;
    CallBecomesEdge(lines, end + 1, call);
    EdgesStay(lines, end + 1, Edge(At(lines, f).begins.value, call.callee, call.receiver, end + 1));
  }
}
