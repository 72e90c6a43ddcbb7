/** What the Go and JS/TS scanner emits, read off the lines of the file. */
module ScanLaws {
  import opened Prelude
  import opened Source
  import opened Scanner

  // ---------------------------------------------------------------- which functions begin

  /** A function begins on line f and is not released before line n. */
  ghost predicate Runs(lines: seq<Line>, f: int, n: int)
    decreases f
  {
    && 1 <= f <= n <= |lines| && At(lines, f).begins.Some?
    && (forall g :: 1 <= g < f ==> !Runs(lines, g, f))
    && (forall i :: f <= i < n ==> !ReleasedAt(lines, f, i))
  }

  /** No function begun above line n still runs there. */
  ghost predicate Free(lines: seq<Line>, n: int)
    requires n <= |lines|
  {
    forall f :: 1 <= f < n ==> !Runs(lines, f, n)
  }

  lemma {:induction false} FreeIffNotHeld(lines: seq<Line>, n: int)
    requires 1 <= n <= |lines|
    ensures Free(lines, n) <==> Scan(lines[..n - 1]).current == ""
    decreases n
  {
    hide Scan, ReleasedAt;
    var f := 0;
    if !Free(lines, n) {
      f :| 1 <= f < n && Runs(lines, f, n);
    }
    forall f | 1 <= f < n
      ensures Runs(lines, f, n) <==> Begins(lines, f) && forall i :: f <= i < n ==> !ReleasedAt(lines, f, i)
    {
      FreeIffNotHeld(lines, f);
    }
    hide Runs;
    if !Free(lines, n) {
      HoldsUntilRelease(lines, f, n - 1);
    }
    AlwaysHolding(lines, n - 1);
    assert Scan(lines[..n - 1]).current != "" ==> Runs(lines, Scan(lines[..n - 1]).since, n);
  }

  lemma RunsIffHeld(lines: seq<Line>, f: int, n: int)
    requires 1 <= n <= |lines|
    ensures Runs(lines, f, n) <==> f <= n && Begins(lines, f) && forall i :: f <= i < n ==> !ReleasedAt(lines, f, i)
  {
    hide Scan, ReleasedAt;
    if 1 <= f <= n {
      FreeIffNotHeld(lines, f);
    }
  }

  lemma OneRuns(lines: seq<Line>, f: int, g: int, n: int)
    requires Runs(lines, f, n) && Runs(lines, g, n)
    ensures f == g
  {
    var first, second := if f < g then f else g, if f < g then g else f;
    assert first < second ==> !Runs(lines, first, second);
  }

  // ---------------------------------------------------------------- line by line

  /** The edges that a line gives the function of this name: its calls in order, those of itself left out. */
  function EdgesOf(name: string, calls: seq<CallRef>, no: int): seq<Edge> {
    Map((c: CallRef) => Edge(name, c.callee, c.receiver, no), Filter((c: CallRef) => c.callee != name, calls))
  }

  lemma {:induction false} LineEdgesAre(name: string, calls: seq<CallRef>, no: int)
    ensures LineEdges(name, calls, no) == EdgesOf(name, calls, no)
  {
    if calls != [] {
      LineEdgesAre(name, calls[..|calls| - 1], no);
    }
  }

  /** The symbols of a line: what its declaration pattern matches, and the function that begins there. */
  ghost function SymbolsOn(lines: seq<Line>, n: int): seq<Symbol>
    requires 1 <= n <= |lines|
  {
    var line := At(lines, n);
    (if line.declares.Some? then [Symbol(line.declares.value.name, line.declares.value.kind, n)] else [])
    + (if Runs(lines, n, n) then [Symbol(line.begins.value, "function", n)] else [])
  }

  /** Each line adds its symbols and, if a function runs there, the edges that its calls give that function. */
  lemma LineReads(lines: seq<Line>, n: int)
    requires 1 <= n <= |lines|
    ensures var before, after := Scan(lines[..n - 1]), Scan(lines[..n]);
            && after.symbols == before.symbols + SymbolsOn(lines, n)
            && (forall f :: Runs(lines, f, n) ==>
                  after.edges == before.edges + EdgesOf(At(lines, f).begins.value, At(lines, n).calls, n))
            && ((forall f :: !Runs(lines, f, n)) ==> after.edges == before.edges)
  {
    var before, after := Scan(lines[..n - 1]), Scan(lines[..n]);
    ScanStep(lines, n);
    FreeIffNotHeld(lines, n);
    AlwaysHolding(lines, n - 1);
    var begun := Begin(before, At(lines, n), n);
    LineEdgesAre(begun.current, At(lines, n).calls, n);
    hide Scan, LineEdges, EdgesOf, Holding, ReleasedAt;
    HolderRuns(lines, n);
    forall f | Runs(lines, f, n)
      ensures f == begun.since && begun.current == At(lines, f).begins.value != ""
    {
      RunsIsHolder(lines, f, n);
    }
  }

  lemma HolderRuns(lines: seq<Line>, n: int)
    requires 1 <= n <= |lines|
    ensures var begun := Begin(Scan(lines[..n - 1]), At(lines, n), n);
            begun.current != "" ==> Runs(lines, begun.since, n)
  {
    AlwaysHolding(lines, n - 1);
    FreeIffNotHeld(lines, n);
    var before := Scan(lines[..n - 1]);
    hide Scan, ReleasedAt, Free;
    if before.current != "" {
      RunsIffHeld(lines, before.since, n);
    }
  }

  lemma RunsIsHolder(lines: seq<Line>, f: int, n: int)
    requires Runs(lines, f, n)
    ensures var begun := Begin(Scan(lines[..n - 1]), At(lines, n), n);
            f == begun.since && begun.current == At(lines, f).begins.value
  {
    RunsIffHeld(lines, f, n);
    hide Scan, ReleasedAt, Runs;
    if f < n {
      HoldsUntilRelease(lines, f, n - 1);
    }
  }

  // ---------------------------------------------------------------- whole files

  /** The function begun on line f runs on the edge's line and calls the callee there, and is not the callee. */
  ghost predicate Makes(lines: seq<Line>, f: int, e: Edge) {
    && Runs(lines, f, e.line) && At(lines, f).begins.value == e.caller
    && CallRef(e.receiver, e.callee) in At(lines, e.line).calls && e.callee != e.caller
  }

  ghost predicate Made(lines: seq<Line>, e: Edge) { exists f :: Makes(lines, f, e) }

  lemma InEdgesOf(name: string, calls: seq<CallRef>, no: int, e: Edge)
    ensures e in EdgesOf(name, calls, no)
            <==> e.caller == name && e.line == no && CallRef(e.receiver, e.callee) in calls && e.callee != name
  {
    var kept := Filter((c: CallRef) => c.callee != name, calls);
    var made := EdgesOf(name, calls, no);
    FilterMember((c: CallRef) => c.callee != name, calls, CallRef(e.receiver, e.callee));
    InMap(name, kept, no, e);
  }

  lemma InMap(name: string, calls: seq<CallRef>, no: int, e: Edge)
    ensures var made := Map((c: CallRef) => Edge(name, c.callee, c.receiver, no), calls);
            e in made <==> e.caller == name && e.line == no && CallRef(e.receiver, e.callee) in calls
  {
    var made := Map((c: CallRef) => Edge(name, c.callee, c.receiver, no), calls);
    if e in made {
      var i :| 0 <= i < |made| && made[i] == e;
      assert calls[i] == CallRef(e.receiver, e.callee);
    }
    if e.caller == name && e.line == no && CallRef(e.receiver, e.callee) in calls {
      var i :| 0 <= i < |calls| && calls[i] == CallRef(e.receiver, e.callee);
      assert made[i] == e;
    }
  }

  lemma {:induction false} EdgesBy(lines: seq<Line>, n: int, e: Edge)
    requires 0 <= n <= |lines|
    ensures e in Scan(lines[..n]).edges <==> e.line <= n && Made(lines, e)
  {
    if n == 0 {
      assert Scan(lines[..0]) == FRESH;
    } else {
      LineReads(lines, n);
      EdgesBy(lines, n - 1, e);
      hide Scan, EdgesOf, SymbolsOn, Runs;
      if f :| Runs(lines, f, n) {
        InEdgesOf(At(lines, f).begins.value, At(lines, n).calls, n, e);
        NewEdge(lines, f, n, e);
      }
    }
  }

  lemma NewEdge(lines: seq<Line>, f: int, n: int, e: Edge)
    requires Runs(lines, f, n)
    ensures e.line == n ==> (Made(lines, e) <==> Makes(lines, f, e))
  {
    if e.line == n && Made(lines, e) {
      var g :| Makes(lines, g, e);
      OneRuns(lines, f, g, n);
    }
  }

  /** The edges of a scan are exactly the calls made on lines where a function runs, other than of itself. */
  lemma EdgesExactly(lines: seq<Line>, e: Edge)
    ensures e in Scan(lines).edges <==> Made(lines, e)
  {
    assert lines[..|lines|] == lines;
    EdgesBy(lines, |lines|, e);
    hide Scan, Free;
  }

  lemma OnItsLine(lines: seq<Line>, n: int, s: Symbol)
    requires 1 <= n <= |lines|
    ensures s in SymbolsOn(lines, n) ==> s.line == n
  {
    hide Runs;
  }

  lemma {:induction false} SymbolsBy(lines: seq<Line>, n: int, s: Symbol)
    requires 0 <= n <= |lines|
    ensures s in Scan(lines[..n]).symbols <==> 1 <= s.line <= n && s in SymbolsOn(lines, s.line)
  {
    if n == 0 {
      assert Scan(lines[..0]) == FRESH;
    } else {
      LineReads(lines, n);
      SymbolsBy(lines, n - 1, s);
      hide Scan, EdgesOf, Runs, SymbolsOn;
      OnItsLine(lines, n, s);
    }
  }

  /** The symbols of a scan are exactly the declarations and the functions that begin, each on its line. */
  lemma SymbolsExactly(lines: seq<Line>, s: Symbol)
    ensures s in Scan(lines).symbols
            <==> && 1 <= s.line <= |lines|
                 && var line := At(lines, s.line);
                    || line.declares == Some(Declaration(s.name, s.kind))
                    || (line.begins == Some(s.name) && s.kind == "function" && Free(lines, s.line))
  {
    assert lines[..|lines|] == lines;
    SymbolsBy(lines, |lines|, s);
    hide Scan, Free;
    if 1 <= s.line <= |lines| {
      InSymbolsOn(lines, s.line, s);
      hide SymbolsOn;
    }
  }

  lemma InSymbolsOn(lines: seq<Line>, n: int, s: Symbol)
    requires 1 <= n <= |lines|
    ensures s in SymbolsOn(lines, n)
            <==> && s.line == n
                 && var line := At(lines, n);
                    || line.declares == Some(Declaration(s.name, s.kind))
                    || (line.begins == Some(s.name) && s.kind == "function" && Free(lines, n))
  {
    var line := At(lines, n);
    assert Runs(lines, n, n) <==> line.begins.Some? && Free(lines, n);
    hide Runs, Free;
    assert line.declares == Some(Declaration(s.name, s.kind))
           <==> line.declares.Some? && line.declares.value.name == s.name && line.declares.value.kind == s.kind;
  }
}
