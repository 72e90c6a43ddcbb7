/** What the Java scanner emits, read off the lines of the file. */
module JavaLaws {
  import opened Prelude
  import opened Text
  import opened TypeList
  import opened Source
  import opened Scanner
  import opened JavaScanner

  // ---------------------------------------------------------------- which methods begin

  /** Line f starts a method that has a block or may have one. */
  predicate Starts(lines: seq<JavaLine>, f: int) {
    1 <= f <= |lines| && var l := LineAt(lines, f); l.startsMethod.Some? && (l.semicolon ==> l.line.opens > 0)
  }

  /** A method begins on line f and is not released before line n. */
  ghost predicate MethodRuns(lines: seq<JavaLine>, f: int, n: int)
    decreases f
  {
    && Starts(lines, f) && f <= n <= |lines|
    && (forall g :: 1 <= g < f ==> !MethodRuns(lines, g, f))
    && (forall i :: f <= i < n ==> !ReleasedAt(Plain(lines), f, i))
  }

  /** No method begun above line n still runs there. */
  ghost predicate Outside(lines: seq<JavaLine>, n: int)
    requires n <= |lines|
  {
    forall f :: 1 <= f < n ==> !MethodRuns(lines, f, n)
  }

  lemma {:induction false} OutsideIffNotHeld(lines: seq<JavaLine>, n: int)
    requires 1 <= n <= |lines|
    ensures Outside(lines, n) <==> JavaScan(lines[..n - 1]).currentMethod == ""
    decreases n
  {
    hide JavaScan, ReleasedAt, MethodName;
    var f := 0;
    if !Outside(lines, n) {
      f :| 1 <= f < n && MethodRuns(lines, f, n);
    }
    forall f | 1 <= f < n
      ensures MethodRuns(lines, f, n)
              <==> MethodBegins(lines, f) && forall i :: f <= i < n ==> !ReleasedAt(Plain(lines), f, i)
    {
      OutsideIffNotHeld(lines, f);
    }
    hide MethodRuns;
    if !Outside(lines, n) {
      HeldInside(lines, f, n - 1);
    }
    AlwaysHoldingMethod(lines, n - 1);
    assert JavaScan(lines[..n - 1]).currentMethod != "" ==> MethodRuns(lines, JavaScan(lines[..n - 1]).since, n);
  }

  lemma MethodRunsIffHeld(lines: seq<JavaLine>, f: int, n: int)
    requires 1 <= n <= |lines|
    ensures MethodRuns(lines, f, n)
            <==> && f <= n && MethodBegins(lines, f)
                 && forall i :: f <= i < n ==> !ReleasedAt(Plain(lines), f, i)
  {
    hide JavaScan, ReleasedAt;
    if 1 <= f <= n {
      OutsideIffNotHeld(lines, f);
    }
  }

  lemma OneMethodRuns(lines: seq<JavaLine>, f: int, g: int, n: int)
    requires MethodRuns(lines, f, n) && MethodRuns(lines, g, n)
    ensures f == g
  {
    var first, second := if f < g then f else g, if f < g then g else f;
    assert first < second ==> !MethodRuns(lines, first, second);
  }

  // ---------------------------------------------------------------- field types

  /** The type of the last field of this name that stands by line n where the class declared last is the owner and no
      method runs. */
  ghost function DeclaredType(lines: seq<JavaLine>, n: nat, owner: string, name: string): string
    requires n <= |lines|
  {
    if n == 0 || owner == "" then ""
    else
      var field := LineAt(lines, n).declaresField;
      if field.Some? && field.value.name == name && ClassAt(lines, n) == owner && Outside(lines, n)
      then SimpleType(field.value.typeText)
      else DeclaredType(lines, n - 1, owner, name)
  }

  lemma {:induction false} DeclaredTypeIs(lines: seq<JavaLine>, n: nat, owner: string, name: string)
    requires n <= |lines|
    ensures FieldTypeAt(lines, n, owner, name) == DeclaredType(lines, n, owner, name)
  {
    hide JavaScan, SimpleType, ClassAt, Outside;
    if n > 0 {
      OutsideIffNotHeld(lines, n);
      DeclaredTypeIs(lines, n - 1, owner, name);
    }
  }

  // ---------------------------------------------------------------- line by line

  /** The name a method started on line f is filed under. */
  function FullName(lines: seq<JavaLine>, f: int): string
    requires 1 <= f <= |lines| && LineAt(lines, f).startsMethod.Some?
  {
    var owner, name := ClassAt(lines, f), LineAt(lines, f).startsMethod.value;
    if owner == "" then name else owner + "." + name
  }

  /** The edge of a call on line n from the method begun on line f: its receiver has the type that the class declared
      last by line n gives it. */
  ghost function EdgeFrom(lines: seq<JavaLine>, f: int, n: int, c: CallRef): JavaEdge
    requires 1 <= f <= n <= |lines| && LineAt(lines, f).startsMethod.Some?
  {
    JavaEdge(FullName(lines, f), c.callee, n, c.receiver, DeclaredType(lines, f, ClassAt(lines, n), c.receiver))
  }

  /** The edges of a list of calls, in order, those of the method itself left out. */
  ghost function EdgesFrom(lines: seq<JavaLine>, f: int, n: int, calls: seq<CallRef>): seq<JavaEdge>
    requires 1 <= f <= n <= |lines| && LineAt(lines, f).startsMethod.Some?
  {
    if calls == [] then []
    else
      var last := calls[|calls| - 1];
      EdgesFrom(lines, f, n, calls[..|calls| - 1])
      + if last.callee == LineAt(lines, f).startsMethod.value then [] else [EdgeFrom(lines, f, n, last)]
  }

  /** The state in which line n is read holds the method begun on line f. */
  lemma RunsIsHeld(lines: seq<JavaLine>, f: int, n: int)
    requires MethodRuns(lines, f, n)
    ensures InsideLine(lines, n).currentMethod == FullName(lines, f) != "" && InsideLine(lines, n).since == f
  {
    MethodRunsIffHeld(lines, f, n);
    NamesAreNotEmpty(lines, f);
    hide MethodRuns, JavaScan, ReleasedAt, RelationsOf, SimpleType, Recorded, ClassAt;
    if f < n {
      HoldsMethodUntilRelease(lines, f, n - 1);
    } else {
      ClassFollows(lines, n - 1);
      ClassOnLine(lines, n);
    }
  }

  lemma HeldRuns(lines: seq<JavaLine>, n: int)
    requires 1 <= n <= |lines| && InsideLine(lines, n).currentMethod != ""
    ensures MethodRuns(lines, InsideLine(lines, n).since, n)
  {
    HeldOnLine(lines, n);
    hide InsideLine, JavaScan, ReleasedAt;
    MethodRunsIffHeld(lines, InsideLine(lines, n).since, n);
  }

  lemma OneEdgeFrom(lines: seq<JavaLine>, f: int, n: int, c: CallRef)
    requires MethodRuns(lines, f, n)
    ensures var st := InsideLine(lines, n);
            JavaEdge(st.currentMethod, c.callee, n, c.receiver, TypeOf(st.fieldTypes, st.currentClass, c.receiver))
            == EdgeFrom(lines, f, n, c)
    ensures AfterDot(InsideLine(lines, n).currentMethod) == LineAt(lines, f).startsMethod.value
  {
    RunsIsHeld(lines, f, n);
    hide InsideLine, JavaScan, MethodRuns, DeclaredType, TypeOf, ClassAt, AfterDot;
    ReceiverTypeOnLine(lines, n, c.receiver);
    DeclaredTypeIs(lines, f, ClassAt(lines, n), c.receiver);
    SimpleNameOf(ClassAt(lines, f), LineAt(lines, f).startsMethod.value);
  }

  lemma {:induction false} CallEdgesAre(lines: seq<JavaLine>, f: int, n: int, calls: seq<CallRef>)
    requires MethodRuns(lines, f, n)
    ensures CallEdges(InsideLine(lines, n), calls, n) == EdgesFrom(lines, f, n, calls)
  {
    if calls != [] {
      CallEdgesAre(lines, f, n, calls[..|calls| - 1]);
      hide InsideLine, MethodRuns, TypeOf, AfterDot, EdgeFrom;
      OneEdgeFrom(lines, f, n, calls[|calls| - 1]);
    }
  }

  /** The symbols of a line read under this class: the class it declares, and the method started there outside of
      methods, even one that ends at once. */
  function SymbolsRead(l: JavaLine, no: int, owner: string, outside: bool): seq<JavaSymbol> {
    (if l.declaresClass.Some? then [JavaSymbol(l.declaresClass.value.name, l.declaresClass.value.kind, no, "")] else [])
    + (if l.startsMethod.Some? && outside then
         var name := l.startsMethod.value;
         [JavaSymbol(if owner == "" then name else owner + "." + name, "method", no, owner)]
       else [])
  }

  ghost function JavaSymbolsOn(lines: seq<JavaLine>, n: int): seq<JavaSymbol>
    requires 1 <= n <= |lines|
  {
    SymbolsRead(LineAt(lines, n), n, ClassAt(lines, n), Outside(lines, n))
  }

  lemma SymbolsEntered(st: JavaState, l: JavaLine, no: int)
    ensures Entering(st, l, no).symbols
            == st.symbols + SymbolsRead(l, no, ReadClass(st, l, no).currentClass, st.currentMethod == "")
  {
    hide RelationsOf, SimpleType, Recorded;
  }

  lemma ClassReadHere(lines: seq<JavaLine>, n: int)
    requires 1 <= n <= |lines|
    ensures ReadClass(JavaScan(lines[..n - 1]), LineAt(lines, n), n).currentClass == ClassAt(lines, n)
  {
    ClassFollows(lines, n);
    JavaStep(lines, n);
    ClassAfterLine(JavaScan(lines[..n - 1]), LineAt(lines, n), n);
    hide JavaScan, Entering, ReadClass, ReadBody, ClassAt;
  }

  lemma SymbolsSettle(lines: seq<JavaLine>, n: int)
    requires 1 <= n <= |lines|
    ensures JavaScan(lines[..n]).symbols == Entering(JavaScan(lines[..n - 1]), LineAt(lines, n), n).symbols
  {
    LineOutcome(lines, n);
    hide JavaScan, Entering, CallEdges;
  }

  lemma SymbolsOfLine(lines: seq<JavaLine>, n: int)
    requires 1 <= n <= |lines|
    ensures JavaScan(lines[..n]).symbols == JavaScan(lines[..n - 1]).symbols + JavaSymbolsOn(lines, n)
  {
    var before, l := JavaScan(lines[..n - 1]), LineAt(lines, n);
    OutsideIffNotHeld(lines, n);
    ClassReadHere(lines, n);
    hide JavaScan, Outside, Entering, ReadClass, SymbolsRead, ClassAt;
    SymbolsSettle(lines, n);
    SymbolsEntered(before, l, n);
  }

  /** Each line adds its symbols and, if a method runs there, the edges that its calls give that method. */
  lemma JavaLineReads(lines: seq<JavaLine>, n: int)
    requires 1 <= n <= |lines|
    ensures var before, after := JavaScan(lines[..n - 1]), JavaScan(lines[..n]);
            && after.symbols == before.symbols + JavaSymbolsOn(lines, n)
            && (forall f :: MethodRuns(lines, f, n) ==>
                  after.edges == before.edges + EdgesFrom(lines, f, n, LineAt(lines, n).line.calls))
            && ((forall f :: !MethodRuns(lines, f, n)) ==> after.edges == before.edges)
  {
    SymbolsOfLine(lines, n);
    LineOutcome(lines, n);
    hide JavaScan, InsideLine, JavaSymbolsOn;
    if InsideLine(lines, n).currentMethod != "" {
      HeldRuns(lines, n);
    }
    forall f | MethodRuns(lines, f, n)
      ensures CallEdges(InsideLine(lines, n), LineAt(lines, n).line.calls, n)
              == EdgesFrom(lines, f, n, LineAt(lines, n).line.calls)
      ensures InsideLine(lines, n).currentMethod != ""
    {
      RunsIsHeld(lines, f, n);
      CallEdgesAre(lines, f, n, LineAt(lines, n).line.calls);
    }
  }

  // ---------------------------------------------------------------- whole files

  /** The method begun on line f runs on the edge's line and calls the callee there, which is not the method itself; the
      receiver has the type that the class declared last by that line gives it. */
  ghost predicate MethodMakes(lines: seq<JavaLine>, f: int, e: JavaEdge) {
    && MethodRuns(lines, f, e.line) && e.caller == FullName(lines, f)
    && CallRef(e.receiver, e.callee) in LineAt(lines, e.line).line.calls
    && e.callee != LineAt(lines, f).startsMethod.value
    && e.receiverType == DeclaredType(lines, f, ClassAt(lines, e.line), e.receiver)
  }

  ghost predicate MadeByMethod(lines: seq<JavaLine>, e: JavaEdge) { exists f :: MethodMakes(lines, f, e) }

  lemma {:induction false} InEdgesFrom(lines: seq<JavaLine>, f: int, n: int, calls: seq<CallRef>, e: JavaEdge)
    requires 1 <= f <= n <= |lines| && LineAt(lines, f).startsMethod.Some?
    ensures e in EdgesFrom(lines, f, n, calls)
            <==> && CallRef(e.receiver, e.callee) in calls && e.callee != LineAt(lines, f).startsMethod.value
                 && e == EdgeFrom(lines, f, n, CallRef(e.receiver, e.callee))
  {
    if calls != [] {
      var front, last := calls[..|calls| - 1], calls[|calls| - 1];
      assert calls == front + [last];
      InEdgesFrom(lines, f, n, front, e);
      hide FullName, DeclaredType, ClassAt;
    }
  }

  lemma NewJavaEdge(lines: seq<JavaLine>, f: int, n: int, e: JavaEdge)
    requires MethodRuns(lines, f, n) && e.line == n
    ensures MadeByMethod(lines, e) <==> e in EdgesFrom(lines, f, n, LineAt(lines, n).line.calls)
  {
    InEdgesFrom(lines, f, n, LineAt(lines, n).line.calls, e);
    hide EdgesFrom, DeclaredType, FullName, ClassAt;
    if MadeByMethod(lines, e) {
      var g :| MethodMakes(lines, g, e);
      OneMethodRuns(lines, f, g, n);
    }
    hide MethodRuns;
    assert MethodMakes(lines, f, e) <==> e in EdgesFrom(lines, f, n, LineAt(lines, n).line.calls);
  }

  lemma {:induction false} JavaEdgesBy(lines: seq<JavaLine>, n: int, e: JavaEdge)
    requires 0 <= n <= |lines|
    ensures e in JavaScan(lines[..n]).edges <==> e.line <= n && MadeByMethod(lines, e)
  {
    if n == 0 {
      assert JavaScan(lines[..0]) == NOTHING_READ;
    } else {
      JavaLineReads(lines, n);
      JavaEdgesBy(lines, n - 1, e);
      hide JavaScan, MethodRuns, EdgesFrom, DeclaredType, FullName, ClassAt, JavaSymbolsOn;
      if f :| MethodRuns(lines, f, n) {
        LineOfEdges(lines, f, n, e);
        if e.line == n {
          NewJavaEdge(lines, f, n, e);
        }
      }
    }
  }

  lemma LineOfEdges(lines: seq<JavaLine>, f: int, n: int, e: JavaEdge)
    requires MethodRuns(lines, f, n)
    ensures e in EdgesFrom(lines, f, n, LineAt(lines, n).line.calls) ==> e.line == n
  {
    InEdgesFrom(lines, f, n, LineAt(lines, n).line.calls, e);
    hide EdgesFrom, DeclaredType, FullName, ClassAt;
  }

  /** The edges of a Java scan are exactly the calls made on lines where a method runs, other than of itself, with the
      type recorded for the receiver. */
  lemma JavaEdgesExactly(lines: seq<JavaLine>, e: JavaEdge)
    ensures e in JavaScan(lines).edges <==> MadeByMethod(lines, e)
  {
    assert lines[..|lines|] == lines;
    JavaEdgesBy(lines, |lines|, e);
    hide JavaScan, DeclaredType, FullName, ClassAt;
  }

  lemma {:induction false} JavaSymbolsBy(lines: seq<JavaLine>, n: int, s: JavaSymbol)
    requires 0 <= n <= |lines|
    ensures s in JavaScan(lines[..n]).symbols <==> 1 <= s.line <= n && s in JavaSymbolsOn(lines, s.line)
  {
    if n == 0 {
      assert JavaScan(lines[..0]) == NOTHING_READ;
    } else {
      SymbolsOfLine(lines, n);
      JavaSymbolsBy(lines, n - 1, s);
      InJavaSymbolsOn(lines, n, s);
      hide JavaScan, JavaSymbolsOn;
    }
  }

  lemma InJavaSymbolsOn(lines: seq<JavaLine>, n: int, s: JavaSymbol)
    requires 1 <= n <= |lines|
    ensures s in JavaSymbolsOn(lines, n)
            <==> && s.line == n
                 && var l := LineAt(lines, n);
                    || (l.declaresClass.Some? && s.name == l.declaresClass.value.name
                        && s.kind == l.declaresClass.value.kind && s.owner == "")
                    || (l.startsMethod.Some? && Outside(lines, n) && s.name == FullName(lines, n)
                        && s.kind == "method" && s.owner == ClassAt(lines, n))
  {
    hide ClassAt, Outside;
  }

  /** The symbols of a Java scan are exactly the classes it declares and the methods started where none runs, the latter
      named after and owned by the class declared last. */
  lemma JavaSymbolsExactly(lines: seq<JavaLine>, s: JavaSymbol)
    ensures s in JavaScan(lines).symbols
            <==> && 1 <= s.line <= |lines|
                 && var l := LineAt(lines, s.line);
                    || (l.declaresClass.Some? && s.name == l.declaresClass.value.name
                        && s.kind == l.declaresClass.value.kind && s.owner == "")
                    || (l.startsMethod.Some? && Outside(lines, s.line) && s.name == FullName(lines, s.line)
                        && s.kind == "method" && s.owner == ClassAt(lines, s.line))
  {
    assert lines[..|lines|] == lines;
    JavaSymbolsBy(lines, |lines|, s);
    if 1 <= s.line <= |lines| {
      InJavaSymbolsOn(lines, s.line, s);
    }
    hide JavaScan, FullName, ClassAt, Outside, JavaSymbolsOn;
  }
}
