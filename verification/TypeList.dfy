/** _simple_type and _split_java_types of apps/decision-engine/decision_engine/local_code.py. */
module TypeList {
  import opened Prelude
  import opened Text

  // ---------------------------------------------------------------- simple type names

  function FirstIndex(s: string, c: char): (i: nat)
    ensures i <= |s| && (i < |s| ==> s[i] == c) && forall k :: 0 <= k < i ==> s[k] != c
  {
    if s == [] || s[0] == c then 0 else 1 + FirstIndex(s[1..], c)
  }

  /** One past the last c, or 0. */
  function PastLast(s: string, c: char): (i: nat)
    ensures i <= |s| && (i > 0 ==> s[i - 1] == c) && forall k :: i <= k < |s| ==> s[k] != c
  {
    if s == [] then 0
    else if s[|s| - 1] == c then |s|
    else PastLast(s[..|s| - 1], c)
  }

  /** s.rsplit(".", 1)[-1] */
  function AfterDot(s: string): string { s[PastLast(s, '.')..] }

  /** Deleting the one match of <.*> in a line: from its first '<' to its last '>'. */
  function DropGenerics(s: string): string {
    var i, j := FirstIndex(s, '<'), PastLast(s, '>');
    if i < j then s[..i] + s[j..] else s
  }

  function DropBrackets(s: string): string {
    if |s| >= 2 && s[0] == '[' && s[1] == ']' then DropBrackets(s[2..])
    else if s == [] then []
    else [s[0]] + DropBrackets(s[1..])
  }

  function SimpleType(value: string): string {
    AfterDot(Strip(DropBrackets(Strip(DropGenerics(value)))))
  }

  predicate PlainChar(c: char) { c !in "<>[]" && !PythonSpace(c) }

  predicate AllPlain(s: string) { forall c :: c in s ==> PlainChar(c) }

  /** A number of "[]". */
  function Brackets(n: nat): string { if n == 0 then "" else "[]" + Brackets(n - 1) }

  /** What may follow a type's name: its arguments, unread, and array brackets. */
  function Generics(arguments: Option<string>): string {
    if arguments.Some? then "<" + arguments.value + ">" else ""
  }

  function Declared(name: string, arguments: Option<string>, arrays: nat): string {
    name + Generics(arguments) + Brackets(arrays)
  }

  lemma {:induction false} BracketsDrop(s: string, n: nat)
    requires AllPlain(s)
    ensures DropBrackets(s + Brackets(n)) == s
  {
    var t := s + Brackets(n);
    if s != "" {
      assert s[0] in s && t[0] == s[0] && t[1..] == s[1..] + Brackets(n);
      BracketsDrop(s[1..], n);
      hide Brackets;
      assert DropBrackets(t) == [t[0]] + DropBrackets(t[1..]);
    } else if n > 0 {
      assert t == "[]" + Brackets(n - 1) && t[2..] == "" + Brackets(n - 1);
      BracketsDrop("", n - 1);
    }
  }

  lemma {:induction false} BracketChars(n: nat)
    ensures forall c :: c in Brackets(n) ==> c == '[' || c == ']'
  {
    if n > 0 {
      BracketChars(n - 1);
    }
  }

  lemma StripTight(s: string)
    requires forall c :: c in s ==> !PythonSpace(c)
    ensures Strip(s) == s
  {
    hide PythonSpace;
  }

  lemma FirstIs(s: string, c: char, i: nat)
    requires i < |s| && s[i] == c && forall k :: 0 <= k < i ==> s[k] != c
    ensures FirstIndex(s, c) == i
  {
    hide FirstIndex;
  }

  lemma {:induction false} PastLastAfter(front: string, s: string, c: char)
    requires front != "" && front[|front| - 1] == c && c !in s
    ensures PastLast(front + s, c) == |front|
  {
    if s == "" {
      assert front + s == front;
    } else {
      assert (front + s)[..|front + s| - 1] == front + s[..|s| - 1];
      PastLastAfter(front, s[..|s| - 1], c);
    }
  }

  lemma FirstBetween(a: string, c: char, b: string)
    requires c !in a
    ensures FirstIndex(a + [c] + b, c) == |a|
  {
    hide FirstIndex;
    var s := a + [c] + b;
    forall k | 0 <= k < |a|
      ensures s[k] != c
    {
      assert s[k] == a[k] && a[k] in a;
    }
    FirstIs(s, c, |a|);
  }

  lemma LastBetween(a: string, c: char, b: string)
    requires c !in b
    ensures PastLast(a + [c] + b, c) == |a| + 1
  {
    hide PastLast;
    PastLastAfter(a + [c], b, c);
  }

  lemma ArgumentsDrop(name: string, arguments: string, brackets: string)
    requires '<' !in name && '>' !in brackets
    ensures DropGenerics(name + ("<" + arguments + ">") + brackets) == name + brackets
  {
    var declared := name + ("<" + arguments + ">") + brackets;
    var front := name + "<" + arguments;
    assert declared == name + ['<'] + (arguments + ">" + brackets);
    FirstBetween(name, '<', arguments + ">" + brackets);
    assert declared == front + ['>'] + brackets;
    LastBetween(front, '>', brackets);
    assert declared[..|name|] == name && declared[|front| + 1..] == brackets;
  }

  lemma GenericsDrop(name: string, arguments: Option<string>, brackets: string)
    requires AllPlain(name) && forall c :: c in brackets ==> c == '[' || c == ']'
    ensures DropGenerics(name + Generics(arguments) + brackets) == name + brackets
  {
    assert '<' !in name && '>' !in brackets;
    if arguments.Some? {
      ArgumentsDrop(name, arguments.value, brackets);
    } else {
      assert name + Generics(arguments) + brackets == name + brackets && '<' !in name + brackets;
    }
  }

  lemma OnlyTheName(name: string, arguments: Option<string>, arrays: nat)
    requires AllPlain(name)
    ensures SimpleType(Declared(name, arguments, arrays)) == AfterDot(name)
  {
    BracketChars(arrays);
    GenericsDrop(name, arguments, Brackets(arrays));
    StripTight(name + Brackets(arrays));
    BracketsDrop(name, arrays);
    StripTight(name);
    hide Strip, DropBrackets, DropGenerics, Brackets, Generics, AfterDot;
  }

  lemma LastName(front: string, name: string)
    requires '.' !in name
    ensures AfterDot(name) == name && AfterDot(front + "." + name) == name
  {
    LastBetween(front, '.', name);
    assert front + "." + name == front + ['.'] + name;
  }

  lemma PlainTogether(package: string, name: string)
    requires AllPlain(package) && AllPlain(name)
    ensures AllPlain(package + "." + name)
  {
  }

  /** Package, type arguments and array brackets leave a type's simple name alone. */
  lemma SimpleTypeOfDeclared(package: string, name: string, arguments: Option<string>, arrays: nat)
    requires AllPlain(package) && AllPlain(name) && '.' !in name
    ensures SimpleType(Declared(name, arguments, arrays)) == name
    ensures SimpleType(Declared(package + "." + name, arguments, arrays)) == name
  {
    PlainTogether(package, name);
    OnlyTheName(name, arguments, arrays);
    OnlyTheName(package + "." + name, arguments, arrays);
    LastName(package, name);
    hide SimpleType, Declared, AfterDot, AllPlain;
  }

  // ---------------------------------------------------------------- cutting a type list

  function Deeper(depth: nat, c: char): nat {
    if c == '<' then depth + 1 else if c == '>' && depth > 0 then depth - 1 else depth
  }

  /** The angle depth after s, where a '>' at depth zero is ignored. */
  function AngleDepth(s: string): nat {
    if s == [] then 0 else Deeper(AngleDepth(s[..|s| - 1]), s[|s| - 1])
  }

  predicate NoTopComma(s: string) {
    forall i :: 0 <= i < |s| && s[i] == ',' ==> AngleDepth(s[..i]) > 0
  }

  /** The pieces finished so far, the piece being read, and its depth. */
  datatype Cut = Cut(done: seq<string>, part: string, depth: nat)

  function CutChar(c: Cut, ch: char): Cut {
    var depth := Deeper(c.depth, ch);
    if ch == ',' && depth == 0 then Cut(c.done + [c.part], [], 0)
    else Cut(c.done, c.part + [ch], depth)
  }

  function CutAll(c: Cut, s: string): Cut {
    if s == [] then c else CutChar(CutAll(c, s[..|s| - 1]), s[|s| - 1])
  }

  const NOTHING := Cut([], [], 0)

  /** The texts between the commas at angle depth zero. */
  function Pieces(s: string): seq<string> {
    var c := CutAll(NOTHING, s);
    c.done + [c.part]
  }

  function NonEmpty(ts: seq<string>): seq<string> {
    if ts == [] then []
    else NonEmpty(ts[..|ts| - 1]) + if ts[|ts| - 1] == "" then [] else [ts[|ts| - 1]]
  }

  method SplitJavaTypes(value: string) returns (types: seq<string>)
    ensures types == NonEmpty(Map(SimpleType, Pieces(value)))
  {
    if value == "" {
      NoTypes();
      return [];
    }
    types := [];
    MapNothing();
    var part, depth := [], 0;
    ghost var done: seq<string> := [];
    assert CutAll(NOTHING, value[..0]) == NOTHING;
    assert Pieces(value) == CutAll(NOTHING, value).done + [CutAll(NOTHING, value).part];
    hide CutAll, SimpleType, NonEmpty, Pieces, Map;
    for n := 0 to |value|
      invariant depth >= 0 && Cut(done, part, depth) == CutAll(NOTHING, value[..n])
      invariant types == NonEmpty(Map(SimpleType, done))
    {
      var ch := value[n];
      assert value[..n + 1] == value[..n] + [ch];
      CutSnoc(NOTHING, value[..n], ch);
      if ch == '<' {
        depth := depth + 1;
      } else if ch == '>' && depth > 0 {
        depth := depth - 1;
      }
      if ch == ',' && depth == 0 {
        var item := SimpleType(part);
        MapAppend(done, part);
        if item != "" {
          types := types + [item];
        }
        done := done + [part];
        part := [];
        continue;
      }
      part := part + [ch];
    }
    assert value[..|value|] == value;
    MapAppend(done, part);
    var item := SimpleType(part);
    if item != "" {
      types := types + [item];
    }
  }

  lemma NoTypes()
    ensures NonEmpty(Map(SimpleType, Pieces(""))) == []
  {
    assert Map(SimpleType, Pieces("")) == [""];
  }

  lemma MapNothing()
    ensures NonEmpty(Map(SimpleType, [])) == []
  {
  }

  lemma CutSnoc(c: Cut, s: string, ch: char)
    ensures CutAll(c, s + [ch]) == CutChar(CutAll(c, s), ch)
  {
    assert (s + [ch])[..|s + [ch]| - 1] == s;
  }

  lemma MapAppend(done: seq<string>, part: string)
    ensures Map(SimpleType, done + [part]) == Map(SimpleType, done) + [SimpleType(part)]
    ensures NonEmpty(Map(SimpleType, done + [part]))
            == NonEmpty(Map(SimpleType, done)) + if SimpleType(part) != "" then [SimpleType(part)] else []
  {
    var all := Map(SimpleType, done + [part]);
    assert all == Map(SimpleType, done) + [SimpleType(part)];
    assert all[..|all| - 1] == Map(SimpleType, done);
  }

  // ---------------------------------------------------------------- pieces and joins are inverse

  lemma {:induction false} CutAllAppend(c: Cut, a: string, b: string)
    ensures CutAll(c, a + b) == CutAll(CutAll(c, a), b)
  {
    if b == [] {
      assert a + b == a;
    } else {
      var n := |b| - 1;
      assert (a + b)[..|a + b| - 1] == a + b[..n];
      CutAllAppend(c, a, b[..n]);
    }
  }

  /** A text without top-level comma is read into the current piece. */
  lemma {:induction false} CutPiece(c: Cut, t: string)
    requires c.part == [] && c.depth == 0 && NoTopComma(t)
    ensures CutAll(c, t) == Cut(c.done, t, AngleDepth(t))
  {
    if t != [] {
      var n := |t| - 1;
      assert NoTopComma(t[..n]) by {
        forall i | 0 <= i < n && t[..n][i] == ','
          ensures AngleDepth(t[..n][..i]) > 0
        {
          assert t[..n][..i] == t[..i];
        }
      }
      CutPiece(c, t[..n]);
      assert t == t[..n] + [t[n]];
    }
  }

  /** What every reading keeps: the pieces join to the text, and only the last one may be unfinished. */
  lemma {:induction false} CutInvariant(s: string)
    ensures var c := CutAll(NOTHING, s);
            && Join(c.done + [c.part], ',') == s
            && c.depth == AngleDepth(c.part) && NoTopComma(c.part)
            && forall t :: t in c.done ==> NoTopComma(t) && AngleDepth(t) == 0
  {
    if s == [] {
      var c := CutAll(NOTHING, s);
      assert c.done + [c.part] == [c.part];
    } else {
      var n := |s| - 1;
      var before, c := CutAll(NOTHING, s[..n]), CutAll(NOTHING, s);
      assert s == s[..n] + [s[n]];
      JoinGrows(before.done, before.part, s[n]);
      PartMayGrow(before, s[n]);
      CutInvariant(s[..n]);
      hide AngleDepth, NoTopComma, Join, CutAll;
    }
  }

  lemma JoinGrows(done: seq<string>, part: string, ch: char)
    ensures Join(done + [part + [ch]], ',') == Join(done + [part], ',') + [ch]
    ensures Join(done + [part] + [[]], ',') == Join(done + [part], ',') + [',']
  {
    var a, b, d := done + [part], done + [part + [ch]], done + [part] + [[]];
    assert a[..|a| - 1] == done == b[..|b| - 1] && d[..|d| - 1] == a;
  }

  lemma PartMayGrow(c: Cut, ch: char)
    ensures c.depth == AngleDepth(c.part) && NoTopComma(c.part) && !(ch == ',' && Deeper(c.depth, ch) == 0)
            ==> AngleDepth(c.part + [ch]) == Deeper(c.depth, ch) && NoTopComma(c.part + [ch])
    ensures AngleDepth([]) == 0 && NoTopComma([])
  {
    if c.depth == AngleDepth(c.part) && NoTopComma(c.part) && !(ch == ',' && Deeper(c.depth, ch) == 0) {
      PartGrows(c, ch);
    }
  }

  lemma PartGrows(c: Cut, ch: char)
    requires c.depth == AngleDepth(c.part) && NoTopComma(c.part) && !(ch == ',' && Deeper(c.depth, ch) == 0)
    ensures AngleDepth(c.part + [ch]) == Deeper(c.depth, ch) && NoTopComma(c.part + [ch])
  {
    var p := c.part + [ch];
    assert p[..|p| - 1] == c.part;
    forall i | 0 <= i < |p| && p[i] == ','
      ensures AngleDepth(p[..i]) > 0
    {
      if i < |c.part| {
        assert p[..i] == c.part[..i];
      } else {
        assert p[..i] == c.part;
      }
    }
  }

  /** Texts that a list can hold: no comma at depth zero, and depth back at zero in all but the last. */
  ghost predicate Listable(ts: seq<string>) {
    && (forall t :: t in ts ==> NoTopComma(t))
    && (forall i :: 0 <= i < |ts| - 1 ==> AngleDepth(ts[i]) == 0)
  }

  lemma {:induction false} JoinIsCut(ts: seq<string>)
    requires ts != [] && Listable(ts)
    ensures var n := |ts| - 1; CutAll(NOTHING, Join(ts, ',')) == Cut(ts[..n], ts[n], AngleDepth(ts[n]))
  {
    var n := |ts| - 1;
    if n == 0 {
      CutPiece(NOTHING, ts[0]);
    } else {
      var front := ts[..n];
      JoinIsCut(front);
      assert front[..n - 1] + [front[n - 1]] == front;
      var joined := Join(front, ',');
      assert Join(ts, ',') == (joined + [',']) + ts[n];
      CutSnoc(NOTHING, joined, ',');
      hide CutAll, Join, Listable, NoTopComma, AngleDepth;
      CutAllAppend(NOTHING, joined + [','], ts[n]);
      assert CutAll(NOTHING, joined + [',']) == Cut(front, [], 0);
      CutPiece(Cut(front, [], 0), ts[n]);
    }
  }

  /** Cutting a comma-joined list gives the list back exactly when its texts are listable. */
  lemma PiecesOfJoin(ts: seq<string>)
    requires ts != []
    ensures Pieces(Join(ts, ',')) == ts <==> Listable(ts)
  {
    hide CutAll, Join, NoTopComma, AngleDepth;
    CutInvariant(Join(ts, ','));
    if Listable(ts) {
      JoinIsCut(ts);
      assert ts[..|ts| - 1] + [ts[|ts| - 1]] == ts;
    }
  }

  /** Conversely every text is the join of its pieces, and its pieces are listable. */
  lemma JoinOfPieces(s: string)
    ensures Join(Pieces(s), ',') == s && Listable(Pieces(s))
  {
    CutInvariant(s);
  }

  /** Splitting the comma-join of type texts returns their simple names, the empty ones dropped, in order. */
  lemma SplitOfJoin(ts: seq<string>)
    requires ts != [] && Listable(ts)
    ensures NonEmpty(Map(SimpleType, Pieces(Join(ts, ',')))) == NonEmpty(Map(SimpleType, ts))
    ensures (forall t :: t in ts ==> SimpleType(t) != "") ==>
              NonEmpty(Map(SimpleType, Pieces(Join(ts, ',')))) == Map(SimpleType, ts)
  {
    PiecesOfJoin(ts);
    if forall t :: t in ts ==> SimpleType(t) != "" {
      NothingFiltered(Map(SimpleType, ts));
    }
  }

  lemma {:induction false} NothingFiltered(s: seq<string>)
    requires forall t :: t in s ==> t != ""
    ensures NonEmpty(s) == s
  {
    if s != [] {
      var n := |s| - 1;
      assert s == s[..n] + [s[n]];
      assert s[n] in s && forall t :: t in s[..n] ==> t in s;
      NothingFiltered(s[..n]);
    }
  }
}
