/** The Python AST visitor of apps/decision-engine/decision_engine/local_code.py. */
module Visitor {
  import opened Prelude

  /** Identifiers are never empty. */
  type Identifier = s: string | s != "" witness "f"

  /** A syntax tree; children are listed in the order generic_visit walks them. */
  datatype Node =
    | ClassDef(name: Identifier, line: int, children: seq<Node>)
    | FunctionDef(name: Identifier, line: int, children: seq<Node>)
    | Call(func: Node, args: seq<Node>, line: int)
    | Name(id: Identifier)
    | Attribute(value: Node, attr: Identifier)
    | Other(children: seq<Node>)

  datatype Event =
    | Symbol(name: string, isFunction: bool, line: int, owner: string)
    | Edge(caller: string, callee: string, line: int)

  function Dotted(path: seq<string>): string {
    if path == [] then ""
    else if |path| == 1 then path[0]
    else Dotted(path[..|path| - 1]) + "." + path[|path| - 1]
  }

  function CalleeName(node: Node): string {
    match node
    case Name(id) => id
    case Attribute(value, attr) =>
      var parent := CalleeName(value);
      if parent != "" then parent + "." + attr else attr
    case Call(func, _, _) => CalleeName(func)
    case _ => ""
  }

  function CallEdge(caller: string, func: Node, line: int): seq<Event> {
    if caller != "" && CalleeName(func) != "" then [Edge(caller, CalleeName(func), line)] else []
  }

  // ---------------------------------------------------------------- the pure traversal

  /** Preorder, with the path of enclosing definitions and the enclosing function as arguments. */
  function Trace(node: Node, path: seq<string>, caller: string): seq<Event>
    decreases node, 1
  {
    match node
    case ClassDef(name, line, children) =>
      [Symbol(Dotted(path + [name]), false, line, Dotted(path))] + TraceAll(children, path + [name], caller)
    case FunctionDef(name, line, children) =>
      [Symbol(Dotted(path + [name]), true, line, Dotted(path))]
          + TraceAll(children, path + [name], Dotted(path + [name]))
    case Call(func, args, line) =>
      CallEdge(caller, func, line) + (Trace(func, path, caller) + TraceAll(args, path, caller))
    case Name(_) => []
    case Attribute(value, _) => Trace(value, path, caller)
    case Other(children) => TraceAll(children, path, caller)
  }

  function TraceAll(nodes: seq<Node>, path: seq<string>, caller: string): seq<Event>
    decreases nodes, 0
  {
    if nodes == [] then [] else Trace(nodes[0], path, caller) + TraceAll(nodes[1..], path, caller)
  }

  function Symbols(events: seq<Event>): seq<Event> { Filter((e: Event) => e.Symbol?, events) }
  function Edges(events: seq<Event>): seq<Event> { Filter((e: Event) => e.Edge?, events) }

  // ---------------------------------------------------------------- the visitor with its mutable stack

  class AstVisitor {
    var ownerStack: seq<string>
    var currentCallable: string
    var symbols: seq<Event>
    var callEdges: seq<Event>
    ghost var emitted: seq<Event>

    ghost predicate Valid()
      reads this
    {
      symbols == Symbols(emitted) && callEdges == Edges(emitted)
    }

    constructor ()
      ensures Valid() && ownerStack == [] && currentCallable == "" && emitted == []
    {
      ownerStack, currentCallable, symbols, callEdges, emitted := [], "", [], [], [];
    }

    method EmitSymbol(name: string, isFunction: bool, line: int, owner: string)
      requires Valid()
      modifies this`symbols, this`emitted
      ensures Valid() && emitted == old(emitted) + [Symbol(name, isFunction, line, owner)]
    {
      SplitAppend(emitted, [Symbol(name, isFunction, line, owner)]);
      symbols := symbols + [Symbol(name, isFunction, line, owner)];
      emitted := emitted + [Symbol(name, isFunction, line, owner)];
    }

    method EmitEdge(caller: string, callee: string, line: int)
      requires Valid()
      modifies this`callEdges, this`emitted
      ensures Valid() && emitted == old(emitted) + [Edge(caller, callee, line)]
    {
      SplitAppend(emitted, [Edge(caller, callee, line)]);
      callEdges := callEdges + [Edge(caller, callee, line)];
      emitted := emitted + [Edge(caller, callee, line)];
    }

    /** Stack and current function are as before, and exactly the pure traversal's events were added. */
    method Visit(node: Node)
      requires Valid()
      modifies this
      ensures Valid()
      ensures ownerStack == old(ownerStack) && currentCallable == old(currentCallable)
      ensures emitted == old(emitted) + Trace(node, old(ownerStack), old(currentCallable))
      decreases node, 1
    {
      match node {
        case ClassDef(name, line, children) => VisitClassDef(name, line, children);
        case FunctionDef(name, line, children) => VisitFunction(name, line, children);
        case Call(_, _, _) => VisitCall(node);
        case Name(_) =>
        case Attribute(value, _) => Visit(value);
        case Other(children) => GenericVisit(children);
      }
    }

    method VisitClassDef(name: Identifier, line: int, children: seq<Node>)
      requires Valid()
      modifies this
      ensures Valid()
      ensures ownerStack == old(ownerStack) && currentCallable == old(currentCallable)
      ensures emitted == old(emitted) + Trace(ClassDef(name, line, children), old(ownerStack), old(currentCallable))
      decreases children, 2
    {
      hide Symbols, Edges, Dotted;
      EmitSymbol(Dotted(ownerStack + [name]), false, line, Dotted(ownerStack));
      ownerStack := ownerStack + [name];
      GenericVisit(children);
      ownerStack := ownerStack[..|ownerStack| - 1];
    }

    method VisitFunction(name: Identifier, line: int, children: seq<Node>)
      requires Valid()
      modifies this
      ensures Valid()
      ensures ownerStack == old(ownerStack) && currentCallable == old(currentCallable)
      ensures emitted == old(emitted) + Trace(FunctionDef(name, line, children), old(ownerStack), old(currentCallable))
      decreases children, 2
    {
      hide Symbols, Edges, Dotted;
      var qualified := Dotted(ownerStack + [name]);
      EmitSymbol(qualified, true, line, Dotted(ownerStack));
      var previous := currentCallable;
      currentCallable := qualified;
      ownerStack := ownerStack + [name];
      GenericVisit(children);
      ownerStack := ownerStack[..|ownerStack| - 1];
      currentCallable := previous;
    }

    method VisitCall(node: Node)
      requires Valid() && node.Call?
      modifies this
      ensures Valid()
      ensures ownerStack == old(ownerStack) && currentCallable == old(currentCallable)
      ensures emitted == old(emitted) + Trace(node, old(ownerStack), old(currentCallable))
      decreases node, 0
    {
      hide Symbols, Edges, CalleeName;
      if currentCallable != "" {
        var callee := CalleeName(node.func);
        if callee != "" {
          EmitEdge(currentCallable, callee, node.line);
        }
      }
      assert emitted == old(emitted) + CallEdge(currentCallable, node.func, node.line);
      Visit(node.func);
      GenericVisit(node.args);
    }

    method GenericVisit(nodes: seq<Node>)
      requires Valid()
      modifies this
      ensures Valid()
      ensures ownerStack == old(ownerStack) && currentCallable == old(currentCallable)
      ensures emitted == old(emitted) + TraceAll(nodes, old(ownerStack), old(currentCallable))
      decreases nodes, 0
    {
      var i := 0;
      while i < |nodes|
        invariant i <= |nodes|
        invariant Valid() && ownerStack == old(ownerStack) && currentCallable == old(currentCallable)
        invariant old(emitted) + TraceAll(nodes, ownerStack, currentCallable)
                  == emitted + TraceAll(nodes[i..], ownerStack, currentCallable)
      {
        ghost var before := emitted;
        Visit(nodes[i]);
        assert nodes[i..][0] == nodes[i] && nodes[i..][1..] == nodes[i + 1..];
        i := i + 1;
      }
    }
  }

  method AnalyzePython(tree: Node) returns (symbols: seq<Event>, callEdges: seq<Event>)
    ensures symbols == Symbols(Trace(tree, [], "")) && callEdges == Edges(Trace(tree, [], ""))
  {
    var v := new AstVisitor();
    v.Visit(tree);
    assert v.emitted == Trace(tree, [], "");
    return v.symbols, v.callEdges;
  }

  lemma SplitAppend(events: seq<Event>, more: seq<Event>)
    ensures Symbols(events + more) == Symbols(events) + Symbols(more)
    ensures Edges(events + more) == Edges(events) + Edges(more)
  {
    FilterAppend((e: Event) => e.Symbol?, events, more);
    FilterAppend((e: Event) => e.Edge?, events, more);
  }

  // ---------------------------------------------------------------- callers come first

  /** Every edge is from the given caller, or from a function whose symbol stands earlier in the trace. */
  ghost predicate CallersFirst(events: seq<Event>, caller: string) {
    forall i :: 0 <= i < |events| && events[i].Edge? ==>
      events[i].caller != "" && (events[i].caller == caller || EarlierFunction(events, i, events[i].caller))
  }

  ghost predicate EarlierFunction(events: seq<Event>, i: int, name: string)
    requires 0 <= i <= |events|
  {
    exists j :: 0 <= j < i && events[j].Symbol? && events[j].isFunction && events[j].name == name
  }

  lemma CallersFirstAppend(a: seq<Event>, b: seq<Event>, caller: string)
    requires CallersFirst(a, caller) && CallersFirst(b, caller)
    ensures CallersFirst(a + b, caller)
  {
    var all := a + b;
    forall i | 0 <= i < |all| && all[i].Edge?
      ensures all[i].caller != "" && (all[i].caller == caller || EarlierFunction(all, i, all[i].caller))
    {
      var name := all[i].caller;
      if i < |a| {
        if EarlierFunction(a, i, name) {
          var j :| 0 <= j < i && a[j].Symbol? && a[j].isFunction && a[j].name == name;
          assert all[j] == a[j];
        }
      } else if EarlierFunction(b, i - |a|, name) {
        var j :| 0 <= j < i - |a| && b[j].Symbol? && b[j].isFunction && b[j].name == name;
        assert all[j + |a|] == b[j];
      }
    }
  }

  /** Inside a function definition the enclosing caller is the function just emitted. */
  lemma CallersFirstInFunction(name: string, line: int, owner: string, body: seq<Event>, caller: string)
    requires CallersFirst(body, name)
    ensures CallersFirst([Symbol(name, true, line, owner)] + body, caller)
  {
    var all := [Symbol(name, true, line, owner)] + body;
    forall i | 0 <= i < |all| && all[i].Edge?
      ensures all[i].caller != "" && (all[i].caller == caller || EarlierFunction(all, i, all[i].caller))
    {
      assert all[0] == Symbol(name, true, line, owner);
      assert all[i] == body[i - 1];
      if all[i].caller != name {
        var j :| 0 <= j < i - 1 && body[j].Symbol? && body[j].isFunction && body[j].name == all[i].caller;
        assert all[j + 1] == body[j];
      }
    }
  }

  lemma {:induction false} TraceCallersFirst(node: Node, path: seq<string>, caller: string)
    ensures CallersFirst(Trace(node, path, caller), caller)
    decreases node, 1
  {
    match node {
      case ClassDef(name, line, children) =>
        TraceAllCallersFirst(children, path + [name], caller);
        CallersFirstAppend([Symbol(Dotted(path + [name]), false, line, Dotted(path))],
                           TraceAll(children, path + [name], caller), caller);
      case FunctionDef(name, line, children) =>
        var qualified := Dotted(path + [name]);
        TraceAllCallersFirst(children, path + [name], qualified);
        CallersFirstInFunction(qualified, line, Dotted(path), TraceAll(children, path + [name], qualified), caller);
      case Call(func, args, line) =>
        TraceCallersFirst(func, path, caller);
        TraceAllCallersFirst(args, path, caller);
        CallersFirstAppend(Trace(func, path, caller), TraceAll(args, path, caller), caller);
        CallersFirstAppend(CallEdge(caller, func, line), Trace(func, path, caller) + TraceAll(args, path, caller),
                           caller);
      case Name(_) =>
      case Attribute(value, _) =>
        TraceCallersFirst(value, path, caller);
      case Other(children) =>
        TraceAllCallersFirst(children, path, caller);
    }
  }

  lemma {:induction false} TraceAllCallersFirst(nodes: seq<Node>, path: seq<string>, caller: string)
    ensures CallersFirst(TraceAll(nodes, path, caller), caller)
    decreases nodes, 0
  {
    if nodes != [] {
      TraceCallersFirst(nodes[0], path, caller);
      TraceAllCallersFirst(nodes[1..], path, caller);
      CallersFirstAppend(Trace(nodes[0], path, caller), TraceAll(nodes[1..], path, caller), caller);
    }
  }

  /** In the trace of a whole file, the caller of every edge is a function symbol emitted before it. */
  lemma EdgesFollowTheirCaller(tree: Node, i: int)
    requires var events := Trace(tree, [], ""); 0 <= i < |events| && events[i].Edge?
    ensures var events := Trace(tree, [], ""); EarlierFunction(events, i, events[i].caller)
  {
    TraceCallersFirst(tree, [], "");
  }
}
