/** What the Python visitor emits, read off the positions of the syntax tree. */
module TreePositions {
  import opened Prelude
  import opened Text
  import opened Visitor

  // ---------------------------------------------------------------- positions

  /** A definition that stands around a node. */
  datatype Def = Def(name: Identifier, isFunction: bool)

  function Children(node: Node): seq<Node> {
    match node
    case ClassDef(_, _, children) => children
    case FunctionDef(_, _, children) => children
    case Call(func, args, _) => [func] + args
    case Name(_) => []
    case Attribute(value, _) => [value]
    case Other(children) => children
  }

  /** The definition that a node puts around its children, if it is one. */
  function Own(node: Node): seq<Def> {
    match node
    case ClassDef(name, _, _) => [Def(name, false)]
    case FunctionDef(name, _, _) => [Def(name, true)]
    case _ => []
  }

  type Position = seq<nat>

  /** The node that a list of child indices leads to. */
  function At(node: Node, pos: Position): Option<Node> {
    if pos == [] then Some(node)
    else if pos[0] < |Children(node)| then At(Children(node)[pos[0]], pos[1..])
    else None
  }

  /** The definitions around that node, outermost first. */
  function Around(node: Node, pos: Position): seq<Def> {
    if pos == [] || pos[0] >= |Children(node)| then []
    else Own(node) + Around(Children(node)[pos[0]], pos[1..])
  }

  /** Parents stand before their children, and earlier children before later ones. */
  predicate Before(p: Position, q: Position) {
    q != [] && (p == [] || p[0] < q[0] || (p[0] == q[0] && Before(p[1..], q[1..])))
  }

  function Names(defs: seq<Def>): (r: seq<string>)
    ensures |r| == |defs|
  {
    Map((d: Def) => d.name, defs)
  }

  /** Definition k is the innermost function of these. */
  predicate Innermost(defs: seq<Def>, k: nat) {
    k < |defs| && defs[k].isFunction && forall j :: k < j < |defs| ==> !defs[j].isFunction
  }

  /** A definition gives a symbol named by the definitions around it and itself, with the definitions around it as
      owner; a call with a callee name gives an edge from the innermost function around it, and none without such a
      function. */
  ghost predicate Gives(defs: seq<Def>, node: Node, e: Event) {
    match node
    case ClassDef(name, line, _) =>
      e == Symbol(Join(Names(defs) + [name], '.'), false, line, Join(Names(defs), '.'))
    case FunctionDef(name, line, _) =>
      e == Symbol(Join(Names(defs) + [name], '.'), true, line, Join(Names(defs), '.'))
    case Call(func, _, line) =>
      CalleeName(func) != "" && exists k: nat :: Innermost(defs, k) && e == EdgeOf(defs, k, func, line)
    case _ => false
  }

  function EdgeOf(defs: seq<Def>, k: nat, func: Node, line: int): Event
    requires k < |defs|
  {
    Edge(Join(Names(defs)[..k + 1], '.'), CalleeName(func), line)
  }

  /** The node at this position of the tree gives this event. */
  ghost predicate GivenAt(tree: Node, pos: Position, e: Event) {
    At(tree, pos).Some? && Gives(Around(tree, pos), At(tree, pos).value, e)
  }

  // ---------------------------------------------------------------- names

  lemma {:induction false} DottedIsJoin(path: seq<string>)
    ensures Dotted(path) == Join(path, '.')
  {
    if |path| > 1 {
      DottedIsJoin(path[..|path| - 1]);
    }
  }

  lemma {:induction false} DottedNamesSomething(defs: seq<Def>)
    requires defs != []
    ensures Dotted(Names(defs)) != ""
  {
    assert |Names(defs)| == |defs|;
    if |defs| == 1 {
      assert Names(defs)[0] == defs[0].name;
    }
  }

  /** The current function of the visitor inside these definitions. */
  function Caller(defs: seq<Def>): string {
    if defs == [] then ""
    else if defs[|defs| - 1].isFunction then Dotted(Names(defs))
    else Caller(defs[..|defs| - 1])
  }

  lemma NamesSnoc(defs: seq<Def>, d: Def)
    ensures Names(defs + [d]) == Names(defs) + [d.name]
    ensures Caller(defs + [d]) == if d.isFunction then Dotted(Names(defs) + [d.name]) else Caller(defs)
  {
    var all := defs + [d];
    assert all[..|all| - 1] == defs;
    assert Names(all) == Names(defs) + [d.name];
  }

  ghost predicate NamesInnermost(defs: seq<Def>, k: nat, name: string) {
    Innermost(defs, k) && name == Join(Names(defs)[..k + 1], '.')
  }

  lemma {:induction false} CallerIsInnermost(defs: seq<Def>)
    ensures Caller(defs) == "" ==> forall k: nat :: !Innermost(defs, k)
    ensures Caller(defs) != "" ==> exists k: nat :: NamesInnermost(defs, k, Caller(defs))
  {
    if defs != [] {
      var n := |defs| - 1;
      if defs[n].isFunction {
        DottedIsJoin(Names(defs));
        DottedNamesSomething(defs);
        assert Names(defs)[..n + 1] == Names(defs);
        assert NamesInnermost(defs, n, Caller(defs));
      } else {
        CallerIsInnermost(defs[..n]);
        assert forall k: nat :: Innermost(defs, k) <==> Innermost(defs[..n], k);
        if Caller(defs) != "" {
          var k: nat :| NamesInnermost(defs[..n], k, Caller(defs[..n]));
          assert Names(defs[..n])[..k + 1] == Names(defs)[..k + 1];
          assert NamesInnermost(defs, k, Caller(defs));
        }
      }
    }
  }

  // ---------------------------------------------------------------- the trace with its positions

  /** What the traversal emits at a node itself. */
  function Here(node: Node, path: seq<string>, caller: string): seq<Event> {
    match node
    case ClassDef(name, line, _) => [Symbol(Dotted(path + [name]), false, line, Dotted(path))]
    case FunctionDef(name, line, _) => [Symbol(Dotted(path + [name]), true, line, Dotted(path))]
    case Call(func, _, line) => CallEdge(caller, func, line)
    case _ => []
  }

  lemma HereGives(defs: seq<Def>, node: Node, e: Event)
    ensures e in Here(node, Names(defs), Caller(defs)) <==> Gives(defs, node, e)
    ensures |Here(node, Names(defs), Caller(defs))| <= 1
  {
    match node {
      case ClassDef(name, _, _) =>
        DottedIsJoin(Names(defs) + [name]);
        DottedIsJoin(Names(defs));
      case FunctionDef(name, _, _) =>
        DottedIsJoin(Names(defs) + [name]);
        DottedIsJoin(Names(defs));
      case Call(func, _, line) => EdgeGives(defs, func, line, e);
      case _ =>
    }
  }

  lemma EdgeGives(defs: seq<Def>, func: Node, line: int, e: Event)
    ensures e in CallEdge(Caller(defs), func, line)
            <==> CalleeName(func) != "" && exists k: nat :: Innermost(defs, k) && e == EdgeOf(defs, k, func, line)
  {
    CallerIsInnermost(defs);
    hide Caller, CalleeName, Join, Names;
    if Caller(defs) != "" {
      var k: nat :| NamesInnermost(defs, k, Caller(defs));
      assert forall j: nat :: Innermost(defs, j) ==> j == k;
      assert EdgeOf(defs, k, func, line) == Edge(Caller(defs), CalleeName(func), line);
    }
  }

  datatype Placed = Placed(pos: Position, event: Event)

  function Under(i: nat, p: Placed): Placed { p.(pos := [i] + p.pos) }

  function Moved(i: nat, ps: seq<Placed>): (r: seq<Placed>)
    ensures |r| == |ps|
  {
    Map((p: Placed) => Under(i, p), ps)
  }

  function AtRoot(events: seq<Event>): (r: seq<Placed>)
    ensures |r| == |events|
  {
    Map((e: Event) => Placed([], e), events)
  }

  /** The events of a subtree with the positions they come from. */
  function Places(node: Node, defs: seq<Def>): seq<Placed>
    decreases node, |Children(node)| + 1
  {
    AtRoot(Here(node, Names(defs), Caller(defs))) + PlacesFrom(node, defs + Own(node), 0)
  }

  function PlacesFrom(node: Node, defs: seq<Def>, i: nat): seq<Placed>
    requires i <= |Children(node)|
    decreases node, |Children(node)| - i
  {
    if i == |Children(node)| then []
    else Moved(i, Places(Children(node)[i], defs)) + PlacesFrom(node, defs, i + 1)
  }

  function Events(ps: seq<Placed>): (r: seq<Event>)
    ensures |r| == |ps|
  {
    Map((p: Placed) => p.event, ps)
  }

  lemma EventsAppend(a: seq<Placed>, b: seq<Placed>)
    ensures Events(a + b) == Events(a) + Events(b)
  {
  }

  lemma EventsMoved(i: nat, ps: seq<Placed>)
    ensures Events(Moved(i, ps)) == Events(ps)
  {
  }

  lemma {:induction false} PlacesTrace(node: Node, defs: seq<Def>)
    ensures Events(Places(node, defs)) == Trace(node, Names(defs), Caller(defs))
    decreases node, |Children(node)| + 1
  {
    var path, caller := Names(defs), Caller(defs);
    var here := Here(node, path, caller);
    PlacesFromTrace(node, defs + Own(node), 0);
    assert Events(AtRoot(here)) == here;
    EventsAppend(AtRoot(here), PlacesFrom(node, defs + Own(node), 0));
    assert Children(node)[0..] == Children(node);
    InsideOwn(node, defs);
    hide Events, Places, PlacesFrom, Names, Caller;
    OneLevel(node, path, caller);
  }

  lemma InsideOwn(node: Node, defs: seq<Def>)
    ensures Names(defs + Own(node)) == Within(node, Names(defs), Caller(defs)).0
    ensures Caller(defs + Own(node)) == Within(node, Names(defs), Caller(defs)).1
  {
    if Own(node) == [] {
      assert defs + [] == defs;
    } else {
      NamesSnoc(defs, Own(node)[0]);
    }
  }

  /** The path and the current function that the children of a node are visited with. */
  function Within(node: Node, path: seq<string>, caller: string): (seq<string>, string) {
    match node
    case ClassDef(name, _, _) => (path + [name], caller)
    case FunctionDef(name, _, _) => (path + [name], Dotted(path + [name]))
    case _ => (path, caller)
  }

  lemma OneLevel(node: Node, path: seq<string>, caller: string)
    ensures var (inside, current) := Within(node, path, caller);
            Trace(node, path, caller) == Here(node, path, caller) + TraceAll(Children(node), inside, current)
  {
    hide Dotted, CallEdge;
    match node {
      case Call(func, args, _) =>
        assert ([func] + args)[1..] == args;
      case Attribute(value, _) =>
        assert TraceAll([value], path, caller) == Trace(value, path, caller) + TraceAll([value][1..], path, caller);
      case _ =>
    }
  }

  lemma {:induction false} PlacesFromTrace(node: Node, defs: seq<Def>, i: nat)
    requires i <= |Children(node)|
    ensures Events(PlacesFrom(node, defs, i)) == TraceAll(Children(node)[i..], Names(defs), Caller(defs))
    decreases node, |Children(node)| - i
  {
    var rest := Children(node)[i..];
    if i < |Children(node)| {
      var child := Children(node)[i];
      PlacesTrace(child, defs);
      PlacesFromTrace(node, defs, i + 1);
      EventsMoved(i, Places(child, defs));
      EventsAppend(Moved(i, Places(child, defs)), PlacesFrom(node, defs, i + 1));
      assert rest[0] == child && rest[1..] == Children(node)[i + 1..];
      hide Events, Places, Names, Caller, Trace;
    }
  }

  // ---------------------------------------------------------------- which events, and where

  /** The same, for what stands at or behind child i, seen from inside the node. */
  ghost predicate GivenBelow(node: Node, defs: seq<Def>, i: nat, p: Placed) {
    && p.pos != [] && i <= p.pos[0] < |Children(node)|
    && GivenInside(Children(node)[p.pos[0]], defs, Placed(p.pos[1..], p.event))
  }

  ghost predicate GivenInside(node: Node, defs: seq<Def>, p: Placed) {
    At(node, p.pos).Some? && Gives(defs + Around(node, p.pos), At(node, p.pos).value, p.event)
  }

  lemma {:induction false} PlacesMembers(node: Node, defs: seq<Def>, p: Placed)
    ensures p in Places(node, defs) <==> GivenInside(node, defs, p)
    decreases node, |Children(node)| + 1
  {
    var here := Here(node, Names(defs), Caller(defs));
    var own := AtRoot(here);
    PlacesFromMembers(node, defs + Own(node), 0, p);
    HereGives(defs, node, p.event);
    assert p in own <==> p.pos == [] && p.event in here by {
      if p.pos == [] && p.event in here {
        var i :| 0 <= i < |here| && here[i] == p.event;
        assert own[i] == p;
      }
    }
    hide Here, PlacesFrom, Gives;
    InsideIff(node, defs, p);
  }

  lemma InsideIff(node: Node, defs: seq<Def>, p: Placed)
    ensures GivenInside(node, defs, p)
            <==> if p.pos == [] then Gives(defs, node, p.event) else GivenBelow(node, defs + Own(node), 0, p)
  {
    hide Gives, Own;
    if p.pos == [] {
      assert defs + [] == defs;
    } else if p.pos[0] < |Children(node)| {
      var child, rest := Children(node)[p.pos[0]], p.pos[1..];
      assert defs + Own(node) + Around(child, rest) == defs + (Own(node) + Around(child, rest));
    }
  }

  lemma {:induction false} PlacesFromMembers(node: Node, defs: seq<Def>, i: nat, p: Placed)
    requires i <= |Children(node)|
    ensures p in PlacesFrom(node, defs, i) <==> GivenBelow(node, defs, i, p)
    decreases node, |Children(node)| - i
  {
    if i < |Children(node)| {
      var child := Children(node)[i];
      PlacesFromMembers(node, defs, i + 1, p);
      MovedMembers(i, Places(child, defs), p);
      if p.pos != [] && p.pos[0] == i {
        PlacesMembers(child, defs, Placed(p.pos[1..], p.event));
      }
      hide Places, GivenInside;
    }
  }

  lemma MovedMembers(i: nat, ps: seq<Placed>, p: Placed)
    ensures p in Moved(i, ps)
            <==> p.pos != [] && p.pos[0] == i && Placed(p.pos[1..], p.event) in ps
  {
    var moved := Moved(i, ps);
    if p.pos != [] && p.pos[0] == i && Placed(p.pos[1..], p.event) in ps {
      var k :| 0 <= k < |ps| && ps[k] == Placed(p.pos[1..], p.event);
      assert moved[k] == p;
    }
    if p in moved {
      var k :| 0 <= k < |moved| && moved[k] == p;
      assert p == Under(i, ps[k]) && p.pos[1..] == ps[k].pos;
    }
  }

  ghost predicate InOrder(ps: seq<Placed>) {
    forall i, j :: 0 <= i < j < |ps| ==> Before(ps[i].pos, ps[j].pos)
  }

  lemma InOrderAppend(a: seq<Placed>, b: seq<Placed>)
    requires InOrder(a) && InOrder(b)
    requires forall p, q :: p in a && q in b ==> Before(p.pos, q.pos)
    ensures InOrder(a + b)
  {
  }

  lemma InOrderMoved(i: nat, ps: seq<Placed>)
    requires InOrder(ps)
    ensures InOrder(Moved(i, ps))
  {
    var moved := Moved(i, ps);
    forall k, l | 0 <= k < l < |moved|
      ensures Before(moved[k].pos, moved[l].pos)
    {
      assert moved[k].pos[1..] == ps[k].pos && moved[l].pos[1..] == ps[l].pos;
    }
  }

  lemma {:induction false} PlacesInOrder(node: Node, defs: seq<Def>)
    ensures InOrder(Places(node, defs))
    decreases node, |Children(node)| + 1
  {
    var here := Here(node, Names(defs), Caller(defs));
    var own := AtRoot(here);
    var below := PlacesFrom(node, defs + Own(node), 0);
    PlacesFromInOrder(node, defs + Own(node), 0);
    HereGives(defs, node, Edge("", "", 0));
    forall p, q | p in own && q in below
      ensures Before(p.pos, q.pos)
    {
      PlacesFromMembers(node, defs + Own(node), 0, q);
    }
    hide Here, PlacesFrom, Before;
    InOrderAppend(own, below);
  }

  lemma {:induction false} PlacesFromInOrder(node: Node, defs: seq<Def>, i: nat)
    requires i <= |Children(node)|
    ensures InOrder(PlacesFrom(node, defs, i))
    decreases node, |Children(node)| - i
  {
    if i < |Children(node)| {
      var places := Places(Children(node)[i], defs);
      var moved, rest := Moved(i, places), PlacesFrom(node, defs, i + 1);
      PlacesInOrder(Children(node)[i], defs);
      PlacesFromInOrder(node, defs, i + 1);
      InOrderMoved(i, places);
      forall p, q | p in moved && q in rest
        ensures Before(p.pos, q.pos)
      {
        EarlierChild(node, defs, i, p, q);
      }
      hide Places, PlacesFrom, Before, InOrder, Moved;
      InOrderAppend(moved, rest);
      PlacesStep(node, defs, i);
    }
  }

  lemma PlacesStep(node: Node, defs: seq<Def>, i: nat)
    requires i < |Children(node)|
    ensures PlacesFrom(node, defs, i) == Moved(i, Places(Children(node)[i], defs))
                                         + PlacesFrom(node, defs, i + 1)
  {
  }

  lemma EarlierChild(node: Node, defs: seq<Def>, i: nat, p: Placed, q: Placed)
    requires i < |Children(node)| && q in PlacesFrom(node, defs, i + 1)
    requires p in Moved(i, Places(Children(node)[i], defs))
    ensures Before(p.pos, q.pos)
  {
    MovedMembers(i, Places(Children(node)[i], defs), p);
    PlacesFromMembers(node, defs, i + 1, q);
    hide Places, PlacesFrom;
  }

  // ---------------------------------------------------------------- the theorem

  /** ps lists, parents first and children from the left, the positions of the tree that give an event, with the
      event. */
  ghost predicate Lists(tree: Node, ps: seq<Placed>) {
    && (forall i, j :: 0 <= i < j < |ps| ==> Before(ps[i].pos, ps[j].pos))
    && (forall p :: p in ps <==> GivenAt(tree, p.pos, p.event))
  }

  /** The trace of a file is exactly the events that the positions of its tree give, in preorder, each once. */
  lemma TraceExactly(tree: Node)
    ensures exists ps :: Lists(tree, ps) && Events(ps) == Trace(tree, [], "")
  {
    var ps := Places(tree, []);
    PlacesTrace(tree, []);
    PlacesInOrder(tree, []);
    forall p
      ensures p in ps <==> GivenAt(tree, p.pos, p.event)
    {
      PlacesMembers(tree, [], p);
      assert [] + Around(tree, p.pos) == Around(tree, p.pos);
    }
    assert Names([]) == [] && Caller([]) == "";
    hide Places, GivenAt, Trace, Events;
    assert Lists(tree, ps);
  }

  /** Some position of the tree gives the event. */
  ghost predicate Given(tree: Node, e: Event) { exists pos :: GivenAt(tree, pos, e) }

  lemma InTraceIffGiven(tree: Node, e: Event)
    ensures e in Trace(tree, [], "") <==> Given(tree, e)
  {
    TraceExactly(tree);
    hide Trace, GivenAt, Events;
    var ps: seq<Placed> :| Lists(tree, ps) && Events(ps) == Trace(tree, [], "");
    InEvents(ps, e);
    if e in Events(ps) {
      var pos :| Placed(pos, e) in ps;
      assert GivenAt(tree, Placed(pos, e).pos, Placed(pos, e).event);
    }
    if Given(tree, e) {
      var pos :| GivenAt(tree, pos, e);
      assert GivenAt(tree, Placed(pos, e).pos, Placed(pos, e).event);
    }
  }

  lemma InEvents(ps: seq<Placed>, e: Event)
    ensures e in Events(ps) <==> exists pos :: Placed(pos, e) in ps
  {
    if e in Events(ps) {
      var i :| 0 <= i < |ps| && Events(ps)[i] == e;
      assert ps[i] == Placed(ps[i].pos, e);
    }
    if pos :| Placed(pos, e) in ps {
      var i :| 0 <= i < |ps| && ps[i] == Placed(pos, e);
      assert Events(ps)[i] == e;
    }
  }

  /** A file's symbols are exactly those its class and function definitions give, its edges exactly those its calls
      give. */
  lemma AnalysisExactly(tree: Node, e: Event)
    ensures e in Symbols(Trace(tree, [], "")) <==> e.Symbol? && Given(tree, e)
    ensures e in Edges(Trace(tree, [], "")) <==> e.Edge? && Given(tree, e)
  {
    InTraceIffGiven(tree, e);
    SymbolsAndEdges(Trace(tree, [], ""), e);
    hide Trace, Given, Symbols, Edges;
  }

  lemma SymbolsAndEdges(trace: seq<Event>, e: Event)
    ensures e in Symbols(trace) <==> e in trace && e.Symbol?
    ensures e in Edges(trace) <==> e in trace && e.Edge?
  {
    FilterMember((e: Event) => e.Symbol?, trace, e);
    FilterMember((e: Event) => e.Edge?, trace, e);
  }

  // ---------------------------------------------------------------- callee names

  /** base.a.b.c */
  function Chain(base: Node, attrs: seq<Identifier>): Node {
    if attrs == [] then base else Attribute(Chain(base, attrs[..|attrs| - 1]), attrs[|attrs| - 1])
  }

  /** What a chain of attributes hangs on: a name, or what a call calls. */
  function Head(base: Node): seq<string> {
    match base
    case Name(id) => [id]
    case Call(func, _, _) => if CalleeName(func) == "" then [] else [CalleeName(func)]
    case _ => []
  }

  /** A callee is named by the name or the call it hangs on, if any, and its attributes, joined with dots. */
  lemma {:induction false} CalleeNameOfChain(base: Node, attrs: seq<Identifier>)
    requires !base.Attribute?
    ensures CalleeName(Chain(base, attrs)) == Join(Head(base) + attrs, '.')
  {
    if attrs == [] {
      NameOfHead(base);
      assert Head(base) + attrs == Head(base);
    } else {
      var n := |attrs| - 1;
      var parts := Head(base) + attrs[..n];
      CalleeNameOfChain(base, attrs[..n]);
      HeadIsFirm(base, attrs[..n]);
      assert Head(base) + attrs == parts + [attrs[n]];
      assert CalleeName(Chain(base, attrs)) == AttributeName(CalleeName(Chain(base, attrs[..n])), attrs[n]);
      hide CalleeName, Chain, Head, Join;
      JoinedName(parts, attrs[n]);
    }
  }

  function AttributeName(parent: string, attr: string): string {
    if parent != "" then parent + "." + attr else attr
  }

  lemma JoinedName(parts: seq<string>, attr: string)
    requires Join(parts, '.') == "" <==> parts == []
    ensures Join(parts + [attr], '.') == AttributeName(Join(parts, '.'), attr)
  {
    if parts == [] {
      assert parts + [attr] == [attr];
    } else {
      hide Join;
      JoinSnoc(parts, attr, '.');
    }
  }

  lemma NameOfHead(base: Node)
    requires !base.Attribute?
    ensures CalleeName(base) == Join(Head(base), '.')
  {
  }

  lemma HeadIsFirm(base: Node, attrs: seq<Identifier>)
    ensures Join(Head(base) + attrs, '.') == "" <==> Head(base) + attrs == []
  {
    var parts := Head(base) + attrs;
    if |parts| == 1 {
      assert parts[0] in parts && (parts[0] in Head(base) || parts[0] in attrs);
    }
  }
}
