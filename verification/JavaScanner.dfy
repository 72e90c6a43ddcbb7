/** The Java line scanner of apps/decision-engine/decision_engine/local_code.py, which also keeps the current class, the
    types of its fields and the interfaces it implements. */
module JavaScanner {
  import opened Prelude
  import opened Text
  import opened Source
  import opened Scope
  import opened TypeList
  import opened Scanner

  type Identifier = s: string | s != "" && '.' !in s witness "f"

  datatype ClassDecl = ClassDecl(name: Identifier, kind: string, interfaces: string)
  datatype FieldDecl = FieldDecl(typeText: string, name: Identifier)

  /** A line with what the class, field and method patterns match on it. */
  datatype JavaLine = JavaLine(line: Line, declaresClass: Option<ClassDecl>, declaresField: Option<FieldDecl>,
                               startsMethod: Option<Identifier>, semicolon: bool)

  datatype JavaSymbol = JavaSymbol(name: string, kind: string, line: int, owner: string)
  datatype JavaEdge = JavaEdge(caller: string, callee: string, line: int, receiver: string, receiverType: string)
  datatype Implements = Implements(typeName: string, interfaceName: string, line: int)

  /** The scanner's variables; since is the line the current method was begun on. */
  datatype JavaState = JavaState(
    symbols: seq<JavaSymbol>, edges: seq<JavaEdge>, relations: seq<Implements>,
    currentClass: string, currentMethod: string, depth: int, fieldTypes: map<string, map<string, string>>, since: int)

  const NOTHING_READ := JavaState([], [], [], "", "", 0, map[], 0)

  function Recorded(types: map<string, map<string, string>>, owner: string): map<string, string> {
    if owner in types then types[owner] else map[]
  }

  function TypeOf(types: map<string, map<string, string>>, owner: string, name: string): string {
    if name in Recorded(types, owner) then Recorded(types, owner)[name] else ""
  }

  function RelationsOf(c: ClassDecl, no: int): seq<Implements> {
    Related(c, no, NonEmpty(Map(SimpleType, Pieces(c.interfaces))))
  }

  function Related(c: ClassDecl, no: int, names: seq<string>): seq<Implements> {
    Map((t: string) => Implements(c.name, t, no), names)
  }

  function ReadClass(st: JavaState, l: JavaLine, no: int): JavaState {
    match l.declaresClass
    case None => st
    case Some(c) =>
      st.(currentClass := c.name,
          fieldTypes := st.fieldTypes[c.name := Recorded(st.fieldTypes, c.name)],
          symbols := st.symbols + [JavaSymbol(c.name, c.kind, no, "")],
          relations := st.relations + RelationsOf(c, no))
  }

  /** Fields count only inside a class and outside its methods. */
  function ReadField(st: JavaState, l: JavaLine): JavaState {
    if st.currentClass != "" && st.currentMethod == "" && l.declaresField.Some? then
      var f := l.declaresField.value;
      var known := Recorded(st.fieldTypes, st.currentClass);
      st.(fieldTypes := st.fieldTypes[st.currentClass := known[f.name := SimpleType(f.typeText)]])
    else st
  }

  function Qualified(owner: string, name: string): string { if owner != "" then owner + "." + name else name }

  /** A declaration that ends in a semicolon without a block begins nothing. */
  function ReadMethod(st: JavaState, l: JavaLine, no: int): JavaState {
    if st.currentMethod == "" && l.startsMethod.Some? then
      var name := Qualified(st.currentClass, l.startsMethod.value);
      st.(symbols := st.symbols + [JavaSymbol(name, "method", no, st.currentClass)],
          currentMethod := if l.semicolon && l.line.opens == 0 then "" else name,
          depth := 0, since := no)
    else st
  }

  function CallEdges(st: JavaState, calls: seq<CallRef>, no: int): seq<JavaEdge> {
    if calls == [] then []
    else
      var last := calls[|calls| - 1];
      CallEdges(st, calls[..|calls| - 1], no)
      + if last.callee == AfterDot(st.currentMethod) then []
        else [JavaEdge(st.currentMethod, last.callee, no, last.receiver,
                       TypeOf(st.fieldTypes, st.currentClass, last.receiver))]
  }

  function ReadBody(st: JavaState, l: JavaLine, no: int): JavaState {
    if st.currentMethod == "" then st
    else
      var depth := st.depth + l.line.opens - l.line.closes;
      st.(edges := st.edges + CallEdges(st, l.line.calls, no), depth := depth,
          currentMethod := if depth <= 0 && HasBrace(l.line) then "" else st.currentMethod)
  }

  /** The state in which line no's method body is read. */
  function Entering(st: JavaState, l: JavaLine, no: int): JavaState {
    ReadMethod(ReadField(ReadClass(st, l, no), l), l, no)
  }

  function JavaScan(lines: seq<JavaLine>): JavaState {
    if lines == [] then NOTHING_READ
    else
      var last, no := lines[|lines| - 1], |lines|;
      ReadBody(Entering(JavaScan(lines[..no - 1]), last, no), last, no)
  }

  /** The edges of one line inside a method, and the method and depth after it. */
  method ReadCalls(ghost st: JavaState, l: JavaLine, no: int, current: string, types: map<string, string>, before: int)
    returns (edges: seq<JavaEdge>, depth: int, currentMethod: string)
    requires current == st.currentMethod != "" && types == Recorded(st.fieldTypes, st.currentClass)
             && before == st.depth
    ensures ReadBody(st, l, no) == st.(edges := st.edges + edges, depth := depth, currentMethod := currentMethod)
  {
    edges, currentMethod := [], current;
    var calls := l.line.calls;
    for k := 0 to |calls|
      invariant edges == CallEdges(st, calls[..k], no)
    {
      assert calls[..k + 1][..k] == calls[..k];
      var call := calls[k];
      if call.callee == AfterDot(current) {
        continue;
      }
      var receiverType := if call.receiver in types then types[call.receiver] else "";
      edges := edges + [JavaEdge(current, call.callee, no, call.receiver, receiverType)];
    }
    assert calls[..|calls|] == calls;
    depth := before + l.line.opens - l.line.closes;
    if depth <= 0 && (l.line.opens > 0 || l.line.closes > 0) {
      currentMethod := "";
    }
  }

  method CollectRelations(c: ClassDecl, no: int) returns (relations: seq<Implements>)
    ensures relations == RelationsOf(c, no)
  {
    hide SimpleType, NonEmpty, Pieces;
    var names := SplitJavaTypes(c.interfaces);
    relations := [];
    for k := 0 to |names|
      invariant relations == Related(c, no, names[..k])
    {
      relations := relations + [Implements(c.name, names[k], no)];
    }
    assert names[..|names|] == names;
  }

  method ReadFieldAndMethod(ghost st: JavaState, l: JavaLine, no: int, currentClass: string,
                            types: map<string, map<string, string>>, known: seq<JavaSymbol>)
    returns (fieldTypes: map<string, map<string, string>>, symbols: seq<JavaSymbol>, currentMethod: string)
    requires st.currentMethod == "" && currentClass == st.currentClass && types == st.fieldTypes && known == st.symbols
    ensures var after := ReadMethod(ReadField(st, l), l, no);
            fieldTypes == after.fieldTypes && symbols == after.symbols && currentMethod == after.currentMethod
  {
    hide Recorded, Qualified, SimpleType;
    fieldTypes, symbols, currentMethod := types, known, "";
    if currentClass != "" && l.declaresField.Some? {
      var f := l.declaresField.value;
      fieldTypes := fieldTypes[currentClass := Recorded(fieldTypes, currentClass)[f.name := SimpleType(f.typeText)]];
    }
    if l.startsMethod.Some? {
      currentMethod := Qualified(currentClass, l.startsMethod.value);
      symbols := symbols + [JavaSymbol(currentMethod, "method", no, currentClass)];
      if l.semicolon && l.line.opens == 0 {
        currentMethod := "";
      }
    }
  }

  method AnalyzeJava(lines: seq<JavaLine>)
    returns (symbols: seq<JavaSymbol>, edges: seq<JavaEdge>, relations: seq<Implements>)
    ensures var st := JavaScan(lines); symbols == st.symbols && edges == st.edges && relations == st.relations
  {
    symbols, edges, relations := [], [], [];
    var currentClass, currentMethod, depth := "", "", 0;
    var fieldTypes: map<string, map<string, string>> := map[];
    ghost var since := 0;
    assert JavaScan(lines[..0]) == NOTHING_READ;
    hide JavaScan, TypeOf, Recorded, Qualified, RelationsOf, SimpleType, CallEdges;
    for n := 0 to |lines|
      invariant JavaState(symbols, edges, relations, currentClass, currentMethod, depth, fieldTypes, since)
                == JavaScan(lines[..n])
    {
      var l, no := lines[n], n + 1;
      ghost var before := JavaScan(lines[..n]);
      JavaStep(lines, no);
      if l.declaresClass.Some? {
        var c := l.declaresClass.value;
        currentClass := c.name;
        fieldTypes := fieldTypes[c.name := Recorded(fieldTypes, c.name)];
        symbols := symbols + [JavaSymbol(c.name, c.kind, no, "")];
        var found := CollectRelations(c, no);
        relations := relations + found;
      }
      ghost var classRead := ReadClass(before, l, no);
      assert JavaState(symbols, edges, relations, currentClass, currentMethod, depth, fieldTypes, since) == classRead;
      if currentMethod == "" {
        if l.startsMethod.Some? {
          depth := 0;
          since := no;
        }
        fieldTypes, symbols, currentMethod := ReadFieldAndMethod(classRead, l, no, currentClass, fieldTypes, symbols);
      }
      ghost var inside := Entering(before, l, no);
      assert JavaState(symbols, edges, relations, currentClass, currentMethod, depth, fieldTypes, since) == inside;
      hide ReadClass, ReadField, ReadMethod, Entering;
      if currentMethod != "" {
        var found: seq<JavaEdge>;
        found, depth, currentMethod := ReadCalls(inside, l, no, currentMethod, Recorded(fieldTypes, currentClass),
                                                 depth);
        edges := edges + found;
      }
    }
    assert lines[..|lines|] == lines;
  }

  // ---------------------------------------------------------------- the method held on a line

  function Plain(lines: seq<JavaLine>): seq<Line> { Map((l: JavaLine) => l.line, lines) }

  function LineAt(lines: seq<JavaLine>, i: int): JavaLine
    requires 1 <= i <= |lines|
  {
    lines[i - 1]
  }

  /** The last class declared on lines 1..n. */
  function ClassAt(lines: seq<JavaLine>, n: nat): string
    requires n <= |lines|
  {
    if n == 0 then "" else if lines[n - 1].declaresClass.Some? then lines[n - 1].declaresClass.value.name
                      else ClassAt(lines, n - 1)
  }

  /** The scanner begins a method on line f. */
  predicate MethodBegins(lines: seq<JavaLine>, f: int) {
    && 1 <= f <= |lines| && JavaScan(lines[..f - 1]).currentMethod == ""
    && LineAt(lines, f).startsMethod.Some? && !(LineAt(lines, f).semicolon && LineAt(lines, f).line.opens == 0)
  }

  function MethodName(lines: seq<JavaLine>, f: int): string
    requires 1 <= f <= |lines| && LineAt(lines, f).startsMethod.Some?
  {
    Qualified(ClassAt(lines, f), LineAt(lines, f).startsMethod.value)
  }

  lemma JavaStep(lines: seq<JavaLine>, n: int)
    requires 1 <= n <= |lines|
    ensures JavaScan(lines[..n]) == ReadBody(Entering(JavaScan(lines[..n - 1]), LineAt(lines, n), n), LineAt(lines, n),
                                             n)
  {
    assert lines[..n][..n - 1] == lines[..n - 1];
  }

  lemma {:induction false} ClassFollows(lines: seq<JavaLine>, n: nat)
    requires n <= |lines|
    ensures JavaScan(lines[..n]).currentClass == ClassAt(lines, n)
  {
    if n > 0 {
      ClassFollows(lines, n - 1);
      JavaStep(lines, n);
      hide JavaScan, CallEdges, RelationsOf, SimpleType;
    }
  }

  /** The method held after line n, if any, was begun on since and is not released yet. */
  ghost predicate HoldingMethod(lines: seq<JavaLine>, n: nat)
    requires n <= |lines|
  {
    var st := JavaScan(lines[..n]);
    st.currentMethod != "" ==>
      && MethodBegins(lines, st.since) && st.since <= n
      && st.currentMethod == MethodName(lines, st.since)
      && st.depth == Depth(Plain(lines), st.since, n)
      && (forall i :: st.since <= i <= n ==> !ReleasedAt(Plain(lines), st.since, i))
      && JavaSymbol(st.currentMethod, "method", st.since, ClassAt(lines, st.since)) in st.symbols
  }

  lemma {:induction false} AlwaysHoldingMethod(lines: seq<JavaLine>, n: nat)
    requires n <= |lines|
    ensures HoldingMethod(lines, n)
  {
    hide HoldingMethod;
    if n > 0 {
      AlwaysHoldingMethod(lines, n - 1);
      HoldsNext(lines, n);
    } else {
      NothingHeld(lines);
    }
  }

  lemma NothingHeld(lines: seq<JavaLine>)
    ensures HoldingMethod(lines, 0)
  {
  }

  lemma HoldsNext(lines: seq<JavaLine>, n: nat)
    requires 0 < n <= |lines| && HoldingMethod(lines, n - 1)
    ensures HoldingMethod(lines, n)
  {
    hide JavaScan, CallEdges, RelationsOf, SimpleType, Recorded, Qualified;
    JavaStep(lines, n);
    ClassFollows(lines, n);
    var l, before, st := LineAt(lines, n), JavaScan(lines[..n - 1]), JavaScan(lines[..n]);
    assert Plain(lines)[n - 1] == l.line;
    if st.currentMethod != "" {
      if before.currentMethod == "" {
        assert st.since == n && MethodBegins(lines, n);
        assert Depth(Plain(lines), n, n - 1) == 0;
      } else {
        assert st.since == before.since && st.currentMethod == before.currentMethod;
        hide MethodBegins, MethodName;
      }
    }
  }

  /** A method is held, at the right depth, until its first release. */
  lemma {:induction false} HoldsMethodUntilRelease(lines: seq<JavaLine>, f: int, i: int)
    requires MethodBegins(lines, f) && f <= i <= |lines|
    requires forall k :: f <= k < i ==> !ReleasedAt(Plain(lines), f, k)
    ensures var st := JavaScan(lines[..i]);
            if ReleasedAt(Plain(lines), f, i) then st.currentMethod == ""
            else st.currentMethod == MethodName(lines, f) && st.since == f && st.depth == Depth(Plain(lines), f, i)
    decreases i - f
  {
    hide JavaScan, CallEdges, RelationsOf, SimpleType, Recorded, Qualified;
    JavaStep(lines, i);
    if i > f {
      HoldsMethodUntilRelease(lines, f, i - 1);
      NamesAreNotEmpty(lines, f);
      hide MethodBegins, MethodName;
    } else {
      ClassFollows(lines, i);
      NamesAreNotEmpty(lines, f);
      assert Depth(Plain(lines), f, f - 1) == 0;
    }
  }

  lemma NamesAreNotEmpty(lines: seq<JavaLine>, f: int)
    requires MethodBegins(lines, f)
    ensures MethodName(lines, f) != ""
  {
  }

  /** On a method whose first brace-bearing line opens and whose block closes within reach, the scanner holds the method
      on every line of the scope range and lets it go on exactly the range's last line. */
  lemma JavaMatchesScope(lines: seq<JavaLine>, f: int, end: int)
    requires MethodBegins(lines, f) && FirstBraceOpens(Plain(lines), f) && ClosesInReach(Plain(lines), f)
    requires IsBracedScope(Plain(lines), f, f, end)
    ensures f <= end <= |lines|
    ensures JavaScan(lines[..end]).currentMethod == ""
    ensures forall i :: f <= i < end ==>
            JavaScan(lines[..i]).currentMethod == MethodName(lines, f) && JavaScan(lines[..i]).since == f
  {
    SameFirstLine(Plain(lines), f, end);
    hide JavaScan, MethodBegins, MethodName;
    HoldsMethodUntilRelease(lines, f, end);
    forall i | f <= i < end
      ensures JavaScan(lines[..i]).currentMethod == MethodName(lines, f) && JavaScan(lines[..i]).since == f
    {
      HoldsMethodUntilRelease(lines, f, i);
    }
  }

  /** The scanner still holds a method after the end of its scope range exactly when the method overruns it. */
  lemma MethodHeldPastScopeIff(lines: seq<JavaLine>, f: int, end: int)
    requires MethodBegins(lines, f) && IsBracedScope(Plain(lines), f, f, end)
    ensures f <= end <= |lines|
    ensures Overruns(Plain(lines), f, end)
            <==> forall i :: f <= i <= end ==>
                   JavaScan(lines[..i]).currentMethod == MethodName(lines, f) && JavaScan(lines[..i]).since == f
  {
    var plain := Plain(lines);
    OverrunsIffUnreleased(plain, f, end);
    NamesAreNotEmpty(lines, f);
    hide IsBracedScope, Overruns, JavaScan, MethodBegins, MethodName;
    if forall i :: f <= i <= end ==> !ReleasedAt(plain, f, i) {
      forall i | f <= i <= end
        ensures JavaScan(lines[..i]).currentMethod == MethodName(lines, f) && JavaScan(lines[..i]).since == f
      {
        HoldsMethodUntilRelease(lines, f, i);
      }
    } else {
      var k :| f <= k <= end && ReleasedAt(plain, f, k);
      var i := FirstReleaseExists(plain, f, k);
      HoldsMethodUntilRelease(lines, f, i);
    }
  }

  // ---------------------------------------------------------------- field types

  /** The type of the last field of this name declared by line n in a class of this name, outside its methods. */
  function FieldTypeAt(lines: seq<JavaLine>, n: nat, owner: string, name: string): string
    requires n <= |lines|
  {
    if n == 0 then ""
    else
      var l := lines[n - 1];
      if Adds(l, ClassAt(lines, n), JavaScan(lines[..n - 1]).currentMethod, owner, name)
      then SimpleType(l.declaresField.value.typeText)
      else FieldTypeAt(lines, n - 1, owner, name)
  }

  /** The field that this line adds to this class, if any. */
  predicate Adds(l: JavaLine, currentClass: string, currentMethod: string, owner: string, name: string) {
    owner != "" && currentClass == owner && currentMethod == "" && l.declaresField.Some?
        && l.declaresField.value.name == name
  }

  lemma TypesAfterLine(st: JavaState, l: JavaLine, no: int, owner: string, name: string)
    ensures TypeOf(ReadBody(Entering(st, l, no), l, no).fieldTypes, owner, name)
            == if Adds(l, ReadClass(st, l, no).currentClass, st.currentMethod, owner, name)
               then SimpleType(l.declaresField.value.typeText)
               else TypeOf(st.fieldTypes, owner, name)
  {
    hide RelationsOf, SimpleType, Qualified, CallEdges;
  }

  lemma ClassAfterLine(st: JavaState, l: JavaLine, no: int)
    ensures ReadBody(Entering(st, l, no), l, no).currentClass == ReadClass(st, l, no).currentClass
  {
    hide RelationsOf, SimpleType, Qualified, CallEdges;
  }

  lemma {:induction false} TypesFollow(lines: seq<JavaLine>, n: nat, owner: string, name: string)
    requires n <= |lines|
    ensures TypeOf(JavaScan(lines[..n]).fieldTypes, owner, name) == FieldTypeAt(lines, n, owner, name)
  {
    if n == 0 {
      assert JavaScan(lines[..0]) == NOTHING_READ;
    } else {
      hide JavaScan, Entering, ReadBody, ReadClass, SimpleType, TypeOf, ClassAt;
      var before, l := JavaScan(lines[..n - 1]), lines[n - 1];
      JavaStep(lines, n);
      ClassFollows(lines, n);
      TypesFollow(lines, n - 1, owner, name);
      TypesAfterLine(before, l, n, owner, name);
      ClassAfterLine(before, l, n);
      assert FieldTypeAt(lines, n, owner, name)
             == if Adds(l, ClassAt(lines, n), before.currentMethod, owner, name)
                then SimpleType(l.declaresField.value.typeText)
                else FieldTypeAt(lines, n - 1, owner, name);
    }
  }

  /** Inside a method no field is recorded. */
  lemma {:induction false} TypesFreeze(lines: seq<JavaLine>, f: int, n: int, owner: string, name: string)
    requires 1 <= f <= n <= |lines|
    requires forall k :: f <= k < n ==> JavaScan(lines[..k]).currentMethod != ""
    ensures FieldTypeAt(lines, n, owner, name) == FieldTypeAt(lines, f, owner, name)
    decreases n - f
  {
    hide JavaScan, FieldTypeAt;
    if f < n {
      TypesStayInside(lines, n, owner, name);
      TypesFreeze(lines, f, n - 1, owner, name);
    }
  }

  lemma HeldInside(lines: seq<JavaLine>, f: int, n: int)
    requires MethodBegins(lines, f) && f <= n <= |lines|
    requires forall k :: f <= k <= n ==> !ReleasedAt(Plain(lines), f, k)
    ensures JavaScan(lines[..n]).currentMethod != ""
  {
    hide JavaScan;
    NamesAreNotEmpty(lines, f);
    HoldsMethodUntilRelease(lines, f, n);
  }

  lemma TypesStayInside(lines: seq<JavaLine>, n: nat, owner: string, name: string)
    requires 0 < n <= |lines| && JavaScan(lines[..n - 1]).currentMethod != ""
    ensures FieldTypeAt(lines, n, owner, name) == FieldTypeAt(lines, n - 1, owner, name)
  {
    hide JavaScan, SimpleType, ClassAt;
  }

  // ---------------------------------------------------------------- edges

  /** Edge e comes from a method begun on line f, not released before e's line, whose symbol was emitted there; its
      receiver's type is what the fields declared before the method say for the class declared last by e's line. */
  ghost predicate FromMethod(lines: seq<JavaLine>, symbols: seq<JavaSymbol>, e: JavaEdge, f: int) {
    && MethodBegins(lines, f) && f <= e.line <= |lines|
    && e.caller == MethodName(lines, f)
    && JavaSymbol(e.caller, "method", f, ClassAt(lines, f)) in symbols
    && (forall i :: f <= i < e.line ==> !ReleasedAt(Plain(lines), f, i))
    && CallRef(e.receiver, e.callee) in LineAt(lines, e.line).line.calls
    && e.callee != LineAt(lines, f).startsMethod.value
    && e.receiverType == FieldTypeAt(lines, f, ClassAt(lines, e.line), e.receiver)
  }

  lemma {:induction false} CallEdgeMember(st: JavaState, calls: seq<CallRef>, no: int, e: JavaEdge)
    requires e in CallEdges(st, calls, no)
    ensures e.caller == st.currentMethod && e.callee != AfterDot(st.currentMethod) && e.line == no
    ensures CallRef(e.receiver, e.callee) in calls
    ensures e.receiverType == TypeOf(st.fieldTypes, st.currentClass, e.receiver)
  {
    var n := |calls| - 1;
    if e in CallEdges(st, calls[..n], no) {
      CallEdgeMember(st, calls[..n], no, e);
    } else {
      assert calls[n] in calls;
    }
  }

  /** The simple name of a qualified method is the method's own name. */
  lemma SimpleNameOf(owner: string, name: Identifier)
    ensures AfterDot(Qualified(owner, name)) == name
  {
    NoDots(name);
    if owner != "" {
      PastLastAfter(owner + ".", name, '.');
    }
  }

  lemma {:induction false} NoDots(s: string)
    requires '.' !in s
    ensures PastLast(s, '.') == 0
  {
    if s != "" {
      NoDots(s[..|s| - 1]);
    }
  }

  /** Every edge of a scan was emitted while its method was held. */
  lemma {:induction false} EdgesHaveMethods(lines: seq<JavaLine>, n: nat, e: JavaEdge) returns (f: int)
    requires n <= |lines| && e in JavaScan(lines[..n]).edges
    ensures FromMethod(lines, JavaScan(lines[..n]).symbols, e, f)
  {
    if n > 0 {
      JavaStep(lines, n);
      var before := JavaScan(lines[..n - 1]);
      var inside := Entering(before, LineAt(lines, n), n);
      if e in before.edges {
        f := EdgesHaveMethods(lines, n - 1, e);
        hide FromMethod;
        SymbolsStay(lines, n, e, f);
      } else {
        f := EdgeJustRead(lines, n, e);
      }
    } else {
      f := 0;
    }
  }

  lemma SymbolsStay(lines: seq<JavaLine>, n: nat, e: JavaEdge, f: int)
    requires 0 < n <= |lines| && FromMethod(lines, JavaScan(lines[..n - 1]).symbols, e, f)
    ensures FromMethod(lines, JavaScan(lines[..n]).symbols, e, f)
  {
    JavaStep(lines, n);
    hide JavaScan, CallEdges, RelationsOf, SimpleType, Recorded, MethodBegins, MethodName;
  }

  /** The state in which the calls of line n are read. */
  function InsideLine(lines: seq<JavaLine>, n: nat): JavaState
    requires 0 < n <= |lines|
  {
    Entering(JavaScan(lines[..n - 1]), LineAt(lines, n), n)
  }

  /** This state holds the method begun on line f, not released before line n. */
  ghost predicate Holds(lines: seq<JavaLine>, st: JavaState, f: int, n: nat) {
    && f <= n && MethodBegins(lines, f) && st.currentMethod == MethodName(lines, f)
    && (forall i :: f <= i < n ==> !ReleasedAt(Plain(lines), f, i))
    && JavaSymbol(st.currentMethod, "method", f, ClassAt(lines, f)) in st.symbols
  }

  lemma HeldOnLine(lines: seq<JavaLine>, n: nat)
    requires 0 < n <= |lines| && InsideLine(lines, n).currentMethod != ""
    ensures Holds(lines, InsideLine(lines, n), InsideLine(lines, n).since, n)
  {
    hide JavaScan, Holds, Entering;
    if JavaScan(lines[..n - 1]).currentMethod == "" {
      BegunOnLine(lines, n);
    } else {
      HeldFromBefore(lines, n);
    }
  }

  lemma BegunOnLine(lines: seq<JavaLine>, n: nat)
    requires 0 < n <= |lines| && InsideLine(lines, n).currentMethod != ""
             && JavaScan(lines[..n - 1]).currentMethod == ""
    ensures InsideLine(lines, n).since == n && Holds(lines, InsideLine(lines, n), n, n)
  {
    ClassOnLine(lines, n);
    hide JavaScan, RelationsOf, SimpleType, Recorded, Qualified, ClassAt;
  }

  lemma HeldFromBefore(lines: seq<JavaLine>, n: nat)
    requires 0 < n <= |lines| && JavaScan(lines[..n - 1]).currentMethod != ""
    ensures Holds(lines, InsideLine(lines, n), InsideLine(lines, n).since, n)
  {
    AlwaysHoldingMethod(lines, n - 1);
    hide JavaScan, RelationsOf, SimpleType, Recorded, Qualified, ClassAt, MethodBegins, MethodName, ReleasedAt;
  }

  lemma ClassOnLine(lines: seq<JavaLine>, n: nat)
    requires 0 < n <= |lines|
    ensures InsideLine(lines, n).currentClass == ClassAt(lines, n)
  {
    ClassFollows(lines, n - 1);
    hide JavaScan, RelationsOf, SimpleType, Recorded, Qualified;
  }

  lemma LineOutcome(lines: seq<JavaLine>, n: nat)
    requires 0 < n <= |lines|
    ensures var before, st, inside := JavaScan(lines[..n - 1]), JavaScan(lines[..n]), InsideLine(lines, n);
            && st.symbols == inside.symbols && st.fieldTypes == inside.fieldTypes
               && st.currentClass == inside.currentClass
            && st.edges == before.edges
                           + if inside.currentMethod == "" then []
                             else CallEdges(inside, LineAt(lines, n).line.calls, n)
  {
    JavaStep(lines, n);
    hide JavaScan, RelationsOf, SimpleType, Recorded, Qualified, CallEdges;
  }

  lemma ReceiverTypeOnLine(lines: seq<JavaLine>, n: nat, receiver: string)
    requires 0 < n <= |lines| && InsideLine(lines, n).currentMethod != ""
    ensures var st := InsideLine(lines, n);
            && 1 <= st.since <= n
            && TypeOf(st.fieldTypes, st.currentClass, receiver)
               == FieldTypeAt(lines, st.since, ClassAt(lines, n), receiver)
  {
    var f := InsideLine(lines, n).since;
    HeldOnLine(lines, n);
    LineOutcome(lines, n);
    ClassFollows(lines, n);
    TypesFollow(lines, n, ClassAt(lines, n), receiver);
    hide JavaScan, InsideLine, TypeOf, FieldTypeAt, ReleasedAt;
    forall k | f <= k < n
      ensures JavaScan(lines[..k]).currentMethod != ""
    {
      HeldInside(lines, f, k);
    }
    assert 1 <= f;
    hide MethodBegins, MethodName, Plain;
    TypesFreeze(lines, f, n, ClassAt(lines, n), receiver);
  }

  lemma EdgeJustRead(lines: seq<JavaLine>, n: nat, e: JavaEdge) returns (f: int)
    requires 0 < n <= |lines| && e in JavaScan(lines[..n]).edges && e !in JavaScan(lines[..n - 1]).edges
    ensures FromMethod(lines, JavaScan(lines[..n]).symbols, e, f)
  {
    var inside := InsideLine(lines, n);
    f := inside.since;
    hide JavaScan, InsideLine, CallEdges, FieldTypeAt, ReleasedAt, TypeOf, AfterDot;
    LineOutcome(lines, n);
    HeldOnLine(lines, n);
    ReceiverTypeOnLine(lines, n, e.receiver);
    CallEdgeMember(inside, LineAt(lines, n).line.calls, n, e);
    SimpleNameOf(ClassAt(lines, f), LineAt(lines, f).startsMethod.value);
  }

  // ---------------------------------------------------------------- the class asked and the class around

  ghost predicate LastClassOn(lines: seq<JavaLine>, k: int, n: int)
    requires 1 <= k <= n <= |lines|
  {
    LineAt(lines, k).declaresClass.Some? && forall j :: k < j <= n ==> LineAt(lines, j).declaresClass.None?
  }

  /** A class is declared on line k whose block has not closed before line n. */
  ghost predicate OpenAt(lines: seq<JavaLine>, k: int, n: int)
    requires 1 <= k <= n <= |lines|
  {
    LineAt(lines, k).declaresClass.Some? && forall j :: k <= j < n ==> !ClosedAt(Plain(lines), k, j)
  }

  /** The last class declared on lines 1..m whose block is still open at line n: for m = n the class around line n. */
  ghost function Around(lines: seq<JavaLine>, n: nat, m: nat): string
    requires m <= n <= |lines|
  {
    if m == 0 then ""
    else if OpenAt(lines, m, n) then LineAt(lines, m).declaresClass.value.name
    else Around(lines, n, m - 1)
  }

  ghost function EnclosingClass(lines: seq<JavaLine>, n: nat): string
    requires n <= |lines|
  {
    Around(lines, n, n)
  }

  /** Line j declares the class around line n. */
  ghost predicate InnermostOpen(lines: seq<JavaLine>, j: int, n: int, m: int)
    requires 1 <= j <= m <= n <= |lines|
  {
    OpenAt(lines, j, n) && forall i :: j < i <= m ==> !OpenAt(lines, i, n)
  }

  lemma {:induction false} AroundIs(lines: seq<JavaLine>, n: nat, m: nat, j: int)
    requires 1 <= j <= m <= n <= |lines| && InnermostOpen(lines, j, n, m)
    ensures Around(lines, n, m) == LineAt(lines, j).declaresClass.value.name
  {
    if j < m {
      AroundIs(lines, n, m - 1, j);
    }
  }

  lemma {:induction false} AroundExists(lines: seq<JavaLine>, n: nat, m: nat)
    requires m <= n <= |lines| && Around(lines, n, m) != ""
    ensures exists j :: 1 <= j <= m && InnermostOpen(lines, j, n, m)
  {
    if OpenAt(lines, m, n) {
      assert InnermostOpen(lines, m, n, m);
    } else {
      AroundExists(lines, n, m - 1);
      var j :| 1 <= j <= m - 1 && InnermostOpen(lines, j, n, m - 1);
      assert InnermostOpen(lines, j, n, m);
    }
  }

  lemma {:induction false} ClassAtIs(lines: seq<JavaLine>, n: nat, k: int)
    requires 1 <= k <= n <= |lines| && LastClassOn(lines, k, n)
    ensures ClassAt(lines, n) == LineAt(lines, k).declaresClass.value.name
  {
    if k < n {
      assert LineAt(lines, n).declaresClass.None?;
      assert LastClassOn(lines, k, n - 1);
      ClassAtIs(lines, n - 1, k);
    }
  }

  lemma {:induction false} ClassAtExists(lines: seq<JavaLine>, n: nat)
    requires n <= |lines|
    ensures if ClassAt(lines, n) == "" then forall k :: 1 <= k <= n ==> LineAt(lines, k).declaresClass.None?
            else exists k :: 1 <= k <= n && LastClassOn(lines, k, n)
  {
    if n > 0 {
      if LineAt(lines, n).declaresClass.Some? {
        assert LastClassOn(lines, n, n);
      } else {
        ClassAtExists(lines, n - 1);
        if ClassAt(lines, n) != "" {
          var k :| 1 <= k <= n - 1 && LastClassOn(lines, k, n - 1);
          assert LastClassOn(lines, k, n);
        }
      }
    }
  }

  /** No class is declared by line n; or the class around line f and the class declared last by line n, which may be one
      and the same, have the same name. */
  ghost predicate AsksAround(lines: seq<JavaLine>, f: int, n: int)
    requires 1 <= f <= n <= |lines|
  {
    || (forall k :: 1 <= k <= n ==> LineAt(lines, k).declaresClass.None?)
    || exists j, k :: 1 <= j <= f && 1 <= k <= n && InnermostOpen(lines, j, f, f) && LastClassOn(lines, k, n)
                      && LineAt(lines, j).declaresClass.value.name == LineAt(lines, k).declaresClass.value.name
  }

  /** The class declared last by line n, which the scanner asks there, is the class around line f exactly then. With n =
      f this says when a method is filed under the class around it. */
  lemma AskedIsAroundIff(lines: seq<JavaLine>, f: int, n: int)
    requires 1 <= f <= n <= |lines|
    ensures ClassAt(lines, n) == EnclosingClass(lines, f) <==> AsksAround(lines, f, n)
  {
    ClassAtExists(lines, n);
    if ClassAt(lines, n) == "" {
      if EnclosingClass(lines, f) != "" {
        AroundExists(lines, f, f);
      }
    } else {
      var k :| 1 <= k <= n && LastClassOn(lines, k, n);
      ClassAtIs(lines, n, k);
      hide LastClassOn, ClassAt;
      if EnclosingClass(lines, f) != "" {
        AroundExists(lines, f, f);
        var j :| 1 <= j <= f && InnermostOpen(lines, j, f, f);
        AroundIs(lines, f, f, j);
      }
      if AsksAround(lines, f, n) && !(forall i :: 1 <= i <= n ==> LineAt(lines, i).declaresClass.None?) {
        var j, k' :| 1 <= j <= f && 1 <= k' <= n && InnermostOpen(lines, j, f, f) && LastClassOn(lines, k', n)
                     && LineAt(lines, j).declaresClass.value.name == LineAt(lines, k').declaresClass.value.name;
        AroundIs(lines, f, f, j);
        ClassAtIs(lines, n, k');
      }
    }
  }

  /** No class is declared on lines f+1..n, or the last one declared there has this name. */
  ghost predicate SameClassThrough(lines: seq<JavaLine>, f: int, n: int, name: string)
    requires 1 <= f <= n <= |lines|
  {
    || (forall k :: f < k <= n ==> LineAt(lines, k).declaresClass.None?)
    || exists k :: f < k <= n && LastClassOn(lines, k, n) && LineAt(lines, k).declaresClass.value.name == name
  }

  /** Calls on line n ask the class that the method begun on line f is filed under exactly when no class is declared in
      between or the last one declared there has the same name. */
  lemma {:induction false} FiledClassIff(lines: seq<JavaLine>, f: int, n: int)
    requires 1 <= f <= n <= |lines|
    ensures ClassAt(lines, n) == ClassAt(lines, f) <==> SameClassThrough(lines, f, n, ClassAt(lines, f))
    decreases n - f
  {
    if f < n {
      if LineAt(lines, n).declaresClass.Some? {
        assert LastClassOn(lines, n, n);
      } else {
        FiledClassIff(lines, f, n - 1);
        assert forall k :: f < k < n ==> (LastClassOn(lines, k, n) <==> LastClassOn(lines, k, n - 1));
      }
    }
  }

  /** Every edge lies in its method's scope range unless the method overruns it. The class asked for its receiver is the
      class around the method exactly under AsksAround, and the class the method is filed under exactly under
      SameClassThrough; then the receiver has the type recorded for that class. */
  lemma JavaEdgesLieInScope(lines: seq<JavaLine>, e: JavaEdge) returns (f: int)
    requires e in JavaScan(lines).edges
    ensures FromMethod(lines, JavaScan(lines).symbols, e, f)
    ensures forall end :: IsBracedScope(Plain(lines), f, f, end) ==>
              f <= e.line && (e.line <= end || Overruns(Plain(lines), f, end))
    ensures ClassAt(lines, e.line) == EnclosingClass(lines, f) <==> AsksAround(lines, f, e.line)
    ensures AsksAround(lines, f, e.line) ==>
              e.receiverType == FieldTypeAt(lines, f, EnclosingClass(lines, f), e.receiver)
    ensures ClassAt(lines, e.line) == ClassAt(lines, f) <==> SameClassThrough(lines, f, e.line, ClassAt(lines, f))
    ensures SameClassThrough(lines, f, e.line, ClassAt(lines, f)) ==>
              e.receiverType == FieldTypeAt(lines, f, ClassAt(lines, f), e.receiver)
  {
    assert lines[..|lines|] == lines;
    f := EdgesHaveMethods(lines, |lines|, e);
    AskedIsAroundIff(lines, f, e.line);
    FiledClassIff(lines, f, e.line);
    hide JavaScan, AsksAround, SameClassThrough, EnclosingClass, FieldTypeAt, MethodBegins;
    forall end | IsBracedScope(Plain(lines), f, f, end)
      ensures f <= e.line && (e.line <= end || Overruns(Plain(lines), f, end))
    {
      OverrunsIffUnreleased(Plain(lines), f, end);
    }
  }

  // ---------------------------------------------------------------- a call that consults the wrong class

  function Bare(opens: nat, calls: seq<CallRef>): JavaLine {
    JavaLine(Line(None, None, calls, opens, 0, 0, false, false, false, ""), None, None, None, false)
  }

  /** class a { typeText f; m() { class c { ... f.g() */
  function Nested(a: Identifier, c: Identifier, m: Identifier, f: Identifier, g: string,
                  typeText: string): seq<JavaLine> {
    [Bare(1, []).(declaresClass := Some(ClassDecl(a, "class", ""))),
     Bare(0, []).(declaresField := Some(FieldDecl(typeText, f)), semicolon := true),
     Bare(1, []).(startsMethod := Some(m)),
     Bare(1, []).(declaresClass := Some(ClassDecl(c, "class", ""))),
     Bare(0, [CallRef(f, g)])]
  }

  lemma ClassRead(a: Identifier, c: Identifier, m: Identifier, f: Identifier, g: string, typeText: string)
    ensures var st := JavaScan(Nested(a, c, m, f, g, typeText)[..1]);
            st.currentClass == a && st.currentMethod == "" && st.edges == [] && st.fieldTypes == map[a := map[]]
  {
    var lines := Nested(a, c, m, f, g, typeText);
    assert JavaScan(lines[..0]) == NOTHING_READ;
    hide JavaScan, RelationsOf, SimpleType, CallEdges;
    JavaStep(lines, 1);
  }

  lemma ClassAndFieldRead(a: Identifier, c: Identifier, m: Identifier, f: Identifier, g: string, typeText: string)
    ensures var st := JavaScan(Nested(a, c, m, f, g, typeText)[..2]);
            && st.currentClass == a && st.currentMethod == "" && st.edges == []
            && st.fieldTypes == map[a := map[f := SimpleType(typeText)]]
  {
    ClassRead(a, c, m, f, g, typeText);
    hide JavaScan, RelationsOf, SimpleType, CallEdges;
    JavaStep(Nested(a, c, m, f, g, typeText), 2);
  }

  lemma NestedBegins(a: Identifier, c: Identifier, m: Identifier, f: Identifier, g: string, typeText: string)
    ensures var lines := Nested(a, c, m, f, g, typeText);
            var st := JavaScan(lines[..3]);
            && st.currentClass == a && st.currentMethod == a + "." + m && st.depth == 1 && st.since == 3
               && st.edges == []
            && st.fieldTypes == map[a := map[f := SimpleType(typeText)]]
            && MethodBegins(lines, 3)
  {
    ClassAndFieldRead(a, c, m, f, g, typeText);
    hide JavaScan, RelationsOf, SimpleType;
    JavaStep(Nested(a, c, m, f, g, typeText), 3);
  }

  /** For every field whose type has a name, a call on it after a class declared inside the method gets no receiver
      type. */
  lemma NestedClassMisleads(a: Identifier, c: Identifier, m: Identifier, f: Identifier, g: string, typeText: string)
    requires a != c && g != m && SimpleType(typeText) != ""
    ensures var lines := Nested(a, c, m, f, g, typeText);
            var e := JavaEdge(a + "." + m, g, 5, f, "");
            && MethodBegins(lines, 3) && JavaScan(lines).edges == [e] && EnclosingClass(lines, 3) == a
            && FieldTypeAt(lines, 3, a, f) == SimpleType(typeText) != e.receiverType
  {
    var lines := Nested(a, c, m, f, g, typeText);
    FirstClassIsAround(lines, 3, a);
    hide JavaScan, SimpleType, EnclosingClass, FieldTypeAt, Nested;
    NestedBegins(a, c, m, f, g, typeText);
    TypesFollow(lines, 3, a, f);
    NestedEnds(a, c, m, f, g, typeText);
  }

  /** The class on line 1 is around line n when it has not closed before and every later one up to n has. */
  lemma FirstClassIsAround(lines: seq<JavaLine>, n: nat, a: Identifier)
    requires 3 <= n <= 4 && n <= |lines| && LineAt(lines, 1).declaresClass == Some(ClassDecl(a, "class", ""))
    requires LineAt(lines, 1).line.opens == 1 && LineAt(lines, 1).line.closes == 0
    requires LineAt(lines, 2).line.opens == 0 && LineAt(lines, 2).line.closes == 0
    requires n == 4 ==> LineAt(lines, 3).line.opens == 1 && LineAt(lines, 3).line.closes == 1
    requires forall i :: 1 < i <= n && i != 3 ==> LineAt(lines, i).declaresClass.None?
    requires n == 3 ==> LineAt(lines, 3).declaresClass.None?
    ensures EnclosingClass(lines, n) == a
    ensures n == 4 ==> ClosedAt(Plain(lines), 3, 3)
  {
    var plain := Plain(lines);
    assert At(plain, 1) == LineAt(lines, 1).line && At(plain, 2) == LineAt(lines, 2).line;
    assert Depth(plain, 1, 0) == 0 && Depth(plain, 1, 1) == 1;
    assert Depth(plain, 1, 2) == 1;
    if n == 4 {
      assert At(plain, 3) == LineAt(lines, 3).line;
      assert Depth(plain, 1, 3) == 1;
      assert Depth(plain, 3, 2) == 0 && Depth(plain, 3, 3) == 0;
      assert ClosedAt(plain, 3, 3);
    }
    assert OpenAt(lines, 1, n);
    assert InnermostOpen(lines, 1, n, n);
    AroundIs(lines, n, n, 1);
  }

  lemma InnerClassRead(a: Identifier, c: Identifier, m: Identifier, f: Identifier, g: string, typeText: string)
    requires a != c
    ensures var st := JavaScan(Nested(a, c, m, f, g, typeText)[..4]);
            && st.currentClass == c && st.currentMethod == a + "." + m && st.edges == []
            && TypeOf(st.fieldTypes, c, f) == ""
  {
    NestedBegins(a, c, m, f, g, typeText);
    hide JavaScan, RelationsOf, SimpleType;
    JavaStep(Nested(a, c, m, f, g, typeText), 4);
  }

  lemma OneCallEdge(st: JavaState, call: CallRef, no: int)
    requires call.callee != AfterDot(st.currentMethod)
    ensures CallEdges(st, [call], no)
            == [JavaEdge(st.currentMethod, call.callee, no, call.receiver,
                         TypeOf(st.fieldTypes, st.currentClass, call.receiver))]
  {
    assert [call][..0] == [];
    assert CallEdges(st, [], no) == [];
  }

  lemma BareEnters(st: JavaState, calls: seq<CallRef>, no: int)
    requires st.currentMethod != ""
    ensures Entering(st, Bare(0, calls), no) == st
  {
  }

  lemma NestedEnds(a: Identifier, c: Identifier, m: Identifier, f: Identifier, g: string, typeText: string)
    requires a != c && g != m
    ensures JavaScan(Nested(a, c, m, f, g, typeText)).edges == [JavaEdge(a + "." + m, g, 5, f, "")]
  {
    var lines := Nested(a, c, m, f, g, typeText);
    assert lines[..5] == lines && LineAt(lines, 5) == Bare(0, [CallRef(f, g)]);
    assert Qualified(a, m) == a + "." + m;
    hide JavaScan, Nested, TypeOf, AfterDot, CallEdges, Entering, Bare;
    InnerClassRead(a, c, m, f, g, typeText);
    SimpleNameOf(a, m);
    LineOutcome(lines, 5);
    var st := JavaScan(lines[..4]);
    BareEnters(st, [CallRef(f, g)], 5);
    OneCallEdge(st, CallRef(f, g), 5);
    assert Bare(0, [CallRef(f, g)]).line.calls == [CallRef(f, g)] by {
      BareCalls([CallRef(f, g)]);
    }
  }

  lemma BareCalls(calls: seq<CallRef>)
    ensures Bare(0, calls).line.calls == calls
  {
  }

  /** class a { typeText f; class c { } m() { f.g() */
  function WithMember(a: Identifier, c: Identifier, m: Identifier, f: Identifier, g: string,
                      typeText: string): seq<JavaLine> {
    Nested(a, c, m, f, g, typeText)[..2]
    + [Bare(1, []).(declaresClass := Some(ClassDecl(c, "class", "")), line := Bare(1, []).line.(closes := 1)),
       Bare(1, []).(startsMethod := Some(m)),
       Bare(0, [CallRef(f, g)])]
  }

  lemma MemberRead(a: Identifier, c: Identifier, m: Identifier, f: Identifier, g: string, typeText: string)
    requires a != c
    ensures var st := JavaScan(WithMember(a, c, m, f, g, typeText)[..3]);
            && st.currentClass == c && st.currentMethod == "" && st.edges == []
            && st.fieldTypes == map[a := map[f := SimpleType(typeText)], c := map[]]
  {
    var lines := WithMember(a, c, m, f, g, typeText);
    ClassAndFieldRead(a, c, m, f, g, typeText);
    assert lines[..2] == Nested(a, c, m, f, g, typeText)[..2];
    hide JavaScan, RelationsOf, SimpleType, CallEdges;
    JavaStep(lines, 3);
  }

  lemma MethodAfterMember(a: Identifier, c: Identifier, m: Identifier, f: Identifier, g: string, typeText: string)
    requires a != c
    ensures var lines := WithMember(a, c, m, f, g, typeText);
            var st := JavaScan(lines[..4]);
            && MethodBegins(lines, 4) && st.currentClass == c && st.currentMethod == c + "." + m && st.edges == []
            && st.fieldTypes == map[a := map[f := SimpleType(typeText)], c := map[]]
  {
    MemberRead(a, c, m, f, g, typeText);
    hide JavaScan, RelationsOf, SimpleType;
    JavaStep(WithMember(a, c, m, f, g, typeText), 4);
  }

  /** For every field whose type has a name, a method after a member class that has closed again is filed under that
      class, and a call on the field gets no receiver type, although no class is declared inside the method. */
  lemma MemberClassMisleads(a: Identifier, c: Identifier, m: Identifier, f: Identifier, g: string, typeText: string)
    requires a != c && g != m && SimpleType(typeText) != ""
    ensures var lines := WithMember(a, c, m, f, g, typeText);
            var e := JavaEdge(c + "." + m, g, 5, f, "");
            && MethodBegins(lines, 4) && JavaScan(lines).edges == [e]
            && EnclosingClass(lines, 4) == a && ClosedAt(Plain(lines), 3, 3)
            && FieldTypeAt(lines, 4, a, f) == SimpleType(typeText) != e.receiverType
  {
    var lines := WithMember(a, c, m, f, g, typeText);
    FirstClassIsAround(lines, 4, a);
    hide JavaScan, SimpleType, EnclosingClass, FieldTypeAt, WithMember, ClosedAt;
    MethodAfterMember(a, c, m, f, g, typeText);
    TypesFollow(lines, 4, a, f);
    CallAfterMember(a, c, m, f, g, typeText);
  }

  lemma CallAfterMember(a: Identifier, c: Identifier, m: Identifier, f: Identifier, g: string, typeText: string)
    requires a != c && g != m
    ensures JavaScan(WithMember(a, c, m, f, g, typeText)).edges == [JavaEdge(c + "." + m, g, 5, f, "")]
  {
    var lines := WithMember(a, c, m, f, g, typeText);
    assert lines[..5] == lines && LineAt(lines, 5) == Bare(0, [CallRef(f, g)]);
    assert Qualified(c, m) == c + "." + m;
    MethodAfterMember(a, c, m, f, g, typeText);
    var st := JavaScan(lines[..4]);
    assert TypeOf(st.fieldTypes, c, f) == "";
    hide JavaScan, WithMember, TypeOf, AfterDot, CallEdges, Entering, Bare, SimpleType;
    SimpleNameOf(c, m);
    LineOutcome(lines, 5);
    BareEnters(st, [CallRef(f, g)], 5);
    OneCallEdge(st, CallRef(f, g), 5);
    BareCalls([CallRef(f, g)]);
  }

  // ---------------------------------------------------------------- implemented interfaces

  lemma RelationsAfterLine(st: JavaState, l: JavaLine, no: int)
    ensures ReadBody(Entering(st, l, no), l, no).relations
            == st.relations + if l.declaresClass.Some? then RelationsOf(l.declaresClass.value, no) else []
  {
    hide RelationsOf, SimpleType, Qualified, CallEdges;
  }

  lemma RelationsOnLine(c: ClassDecl, no: int, r: Implements)
    requires r in RelationsOf(c, no)
    ensures r.line == no
  {
  }

  /** A relation is recorded exactly when the line it names declares a class that implements its interface. */
  lemma {:induction false} RelationsExactly(lines: seq<JavaLine>, n: nat, r: Implements)
    requires n <= |lines|
    ensures r in JavaScan(lines[..n]).relations
            <==> && 1 <= r.line <= n && LineAt(lines, r.line).declaresClass.Some?
                 && r in RelationsOf(LineAt(lines, r.line).declaresClass.value, r.line)
  {
    if n == 0 {
      assert JavaScan(lines[..0]) == NOTHING_READ;
    } else {
      hide JavaScan, ReadBody, Entering, RelationsOf;
      RelationsExactly(lines, n - 1, r);
      JavaStep(lines, n);
      var l := LineAt(lines, n);
      RelationsAfterLine(JavaScan(lines[..n - 1]), l, n);
      if l.declaresClass.Some? && r in RelationsOf(l.declaresClass.value, n) {
        RelationsOnLine(l.declaresClass.value, n, r);
      }
    }
  }

  /** A class declared to implement a comma-joined list of types is recorded as implementing exactly their simple
      names. */
  lemma InterfacesAreRecorded(lines: seq<JavaLine>, no: int, ts: seq<string>, name: string)
    requires 1 <= no <= |lines| && LineAt(lines, no).declaresClass.Some?
    requires ts != [] && Listable(ts) && LineAt(lines, no).declaresClass.value.interfaces == Join(ts, ',')
    requires forall t :: t in ts ==> SimpleType(t) != ""
    ensures Implements(LineAt(lines, no).declaresClass.value.name, name, no) in JavaScan(lines).relations
            <==> exists i :: 0 <= i < |ts| && SimpleType(ts[i]) == name
  {
    var c := LineAt(lines, no).declaresClass.value;
    RelationsOfList(c, no, ts, name);
    hide RelationsOf, JavaScan, SimpleType;
    RelationsExactly(lines, |lines|, Implements(c.name, name, no));
    assert lines[..|lines|] == lines;
  }

  lemma RelationsAreSimpleNames(c: ClassDecl, no: int, ts: seq<string>)
    requires ts != [] && Listable(ts) && c.interfaces == Join(ts, ',')
    requires forall t :: t in ts ==> SimpleType(t) != ""
    ensures RelationsOf(c, no) == Related(c, no, Map(SimpleType, ts))
  {
    SplitOfJoin(ts);
    hide Related, SimpleType, NonEmpty, Pieces, Listable, Join;
  }

  lemma RelationsOfList(c: ClassDecl, no: int, ts: seq<string>, name: string)
    requires ts != [] && Listable(ts) && c.interfaces == Join(ts, ',')
    requires forall t :: t in ts ==> SimpleType(t) != ""
    ensures Implements(c.name, name, no) in RelationsOf(c, no) <==>
            exists i :: 0 <= i < |ts| && SimpleType(ts[i]) == name
  {
    var names := Map(SimpleType, ts);
    RelationsAreSimpleNames(c, no, ts);
    hide *;
    RelatedMember(c, no, names, name);
    assert name in names <==> exists i :: 0 <= i < |ts| && SimpleType(ts[i]) == name;
  }

  lemma RelatedMember(c: ClassDecl, no: int, names: seq<string>, name: string)
    ensures Implements(c.name, name, no) in Related(c, no, names) <==> name in names
  {
    var related := Related(c, no, names);
    assert forall i :: 0 <= i < |names| ==> related[i] == Implements(c.name, names[i], no);
    if name in names {
      var i :| 0 <= i < |names| && names[i] == name;
      assert related[i] == Implements(c.name, name, no);
    }
  }
}
