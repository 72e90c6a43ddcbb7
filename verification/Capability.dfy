/** The in-memory capability store of internal/capability/memory.go (its tool part). */
module Capability {
  import opened Prelude

  const SOURCE_HTTP := "http_adapter"
  const SOURCE_MCP := "mcp"
  const STATUS_DRAFT := "draft"
  const STATUS_ENABLED := "enabled"
  const STATUS_REJECTED := "rejected"

  datatype ToolCapability = ToolCapability(
    id: int,
    toolName: string,
    description: string,
    serviceName: string,
    sourceType: string,
    inputSchemaJSON: string,
    outputSchemaJSON: string,
    requiredScope: string,
    backendHandler: string,
    readonlyBaseURL: string,
    readonlyPath: string,
    httpMethod: string,
    maxTimeRangeMinutes: int,
    maxLimit: int,
    sensitivityLevel: string,
    safetyStatus: string,
    approvalStatus: string,
    toolStatus: string,
    publishedBy: string)

  datatype StoreState = StoreState(nextToolID: int, tools: map<int, ToolCapability>, toolsByName: map<string, int>)

  const EMPTY_STORE := StoreState(0, map[], map[])

  /** The name index is the exact inverse of the id index, and ids run from 1 to nextToolID. */
  ghost predicate Consistent(st: StoreState) {
    && st.nextToolID >= 0
    && (forall id :: id in st.tools <==> 1 <= id <= st.nextToolID)
    && (forall id :: id in st.tools ==>
          st.tools[id].id == id && st.tools[id].toolName in st.toolsByName
              && st.toolsByName[st.tools[id].toolName] == id)
    && (forall n :: n in st.toolsByName ==>
          st.toolsByName[n] in st.tools && st.tools[st.toolsByName[n]].toolName == n)
  }

  function Upsert(st: StoreState, item: ToolCapability): StoreState {
    if item.toolName in st.toolsByName then
      var id := st.toolsByName[item.toolName];
      st.(tools := st.tools[id := item.(id := id)])
    else
      var id := st.nextToolID + 1;
      StoreState(id, st.tools[id := item.(id := id)], st.toolsByName[item.toolName := id])
  }

  /** The item as the upsert stores it: a known name keeps its id, a new one takes the next. */
  function Stored(st: StoreState, item: ToolCapability): ToolCapability {
    item.(id := if item.toolName in st.toolsByName then st.toolsByName[item.toolName] else st.nextToolID + 1)
  }

  function UpdateStatus(st: StoreState, id: int, status: string, publisher: string): StoreState {
    if id !in st.tools then st
    else
      var item := st.tools[id].(toolStatus := status, publishedBy := publisher);
      st.(tools := st.tools[id := if status == STATUS_ENABLED then item.(approvalStatus := "approved") else item])
  }

  lemma UpsertKeeps(st: StoreState, item: ToolCapability)
    requires Consistent(st)
    ensures var st' := Upsert(st, item);
            && Consistent(st')
            && st'.toolsByName.Keys == st.toolsByName.Keys + {item.toolName}
            && (forall id :: id in st.tools && st.tools[id].toolName != item.toolName ==> st'.tools[id] == st.tools[id])
            && (forall id :: id in st'.tools ==>
                st'.tools[id] == item.(id := id) || (id in st.tools && st'.tools[id] == st.tools[id]))
  {
    if item.toolName in st.toolsByName {
      ReplacingKeeps(st, item);
    } else {
      AddingKeeps(st, item);
    }
    hide Consistent;
  }

  lemma ReplacingKeeps(st: StoreState, item: ToolCapability)
    requires Consistent(st) && item.toolName in st.toolsByName
    ensures Consistent(Upsert(st, item))
    ensures forall id :: id in st.tools && st.tools[id].toolName != item.toolName ==>
            Upsert(st, item).tools[id] == st.tools[id]
  {
    var st' := Upsert(st, item);
    forall id | id in st'.tools
      ensures st'.tools[id].id == id && st'.tools[id].toolName in st'.toolsByName
              && st'.toolsByName[st'.tools[id].toolName] == id
    {
      assert st.toolsByName[st.tools[id].toolName] == id;
    }
  }

  lemma AddingKeeps(st: StoreState, item: ToolCapability)
    requires Consistent(st) && item.toolName !in st.toolsByName
    ensures Consistent(Upsert(st, item))
    ensures forall id :: id in st.tools ==> Upsert(st, item).tools[id] == st.tools[id]
  {
  }

  lemma UpdateStatusKeeps(st: StoreState, id: int, status: string, publisher: string)
    requires Consistent(st)
    ensures Consistent(UpdateStatus(st, id, status, publisher))
    ensures UpdateStatus(st, id, status, publisher).toolsByName == st.toolsByName
  {
    var st' := UpdateStatus(st, id, status, publisher);
    forall i | i in st'.tools
      ensures st'.tools[i].id == i && st'.tools[i].toolName == st.tools[i].toolName
    {
    }
  }

  /** A status change sets the status and the publisher, approves when it enables, and moves nothing else. */
  lemma UpdateStatusFields(st: StoreState, id: int, status: string, publisher: string)
    ensures var st' := UpdateStatus(st, id, status, publisher);
            && st'.nextToolID == st.nextToolID && st'.tools.Keys == st.tools.Keys
            && (forall other :: other in st.tools && other != id ==> st'.tools[other] == st.tools[other])
            && (id in st.tools ==>
                  var before, after := st.tools[id], st'.tools[id];
                  && after.toolStatus == status && after.publishedBy == publisher
                  && after.approvalStatus == (if status == "enabled" then "approved" else before.approvalStatus)
                  && after == before.(toolStatus := after.toolStatus, publishedBy := after.publishedBy,
                                      approvalStatus := after.approvalStatus))
  {
    assert STATUS_ENABLED == "enabled";
  }

  // ---------------------------------------------------------------- listing

  /** Go's < on strings. */
  predicate StringLess(a: string, b: string) {
    b != [] && (a == [] || a[0] < b[0] || (a[0] == b[0] && StringLess(a[1..], b[1..])))
  }

  predicate Before(a: ToolCapability, b: ToolCapability) {
    if a.serviceName != b.serviceName then StringLess(a.serviceName, b.serviceName)
    else StringLess(a.toolName, b.toolName)
  }

  lemma StringLessTotal(a: string, b: string)
    ensures StringLess(a, b) || StringLess(b, a) || a == b
    ensures !(StringLess(a, b) && StringLess(b, a)) && !StringLess(a, a)
  {
    if a != [] && b != [] && a[0] == b[0] {
      StringLessTotal(a[1..], b[1..]);
      assert a == [a[0]] + a[1..] && b == [b[0]] + b[1..];
    }
    if a != [] {
      StringLessTotal(a[1..], a[1..]);
    }
  }

  lemma StringLessTransitive(a: string, b: string, c: string)
    requires StringLess(a, b) && StringLess(b, c)
    ensures StringLess(a, c)
  {
  }

  lemma BeforeTransitive(a: ToolCapability, b: ToolCapability, c: ToolCapability)
    requires Before(a, b) && Before(b, c)
    ensures Before(a, c)
  {
    if a.serviceName == b.serviceName == c.serviceName {
      StringLessTransitive(a.toolName, b.toolName, c.toolName);
    } else if a.serviceName != b.serviceName && b.serviceName != c.serviceName {
      StringLessTransitive(a.serviceName, b.serviceName, c.serviceName);
      StringLessTotal(a.serviceName, b.serviceName);
    }
  }

  lemma BeforeTotal(a: ToolCapability, b: ToolCapability)
    ensures a.toolName != b.toolName ==> Before(a, b) || Before(b, a)
    ensures !(Before(a, b) && Before(b, a))
  {
    StringLessTotal(a.serviceName, b.serviceName);
    StringLessTotal(a.toolName, b.toolName);
  }

  /** An empty status or source type matches everything. */
  datatype ToolFilter = ToolFilter(status: string, sourceType: string, limit: int)

  predicate Matches(filter: ToolFilter, item: ToolCapability) {
    && (filter.status != "" ==> item.toolStatus == filter.status)
    && (filter.sourceType != "" ==> item.sourceType == filter.sourceType)
  }

  ghost predicate Ascending(s: seq<ToolCapability>) {
    forall i, j :: 0 <= i < j < |s| ==> Before(s[i], s[j])
  }

  ghost predicate DistinctNames(s: seq<ToolCapability>) {
    forall i, j :: 0 <= i < j < |s| ==> s[i].toolName != s[j].toolName
  }

  function Insert(x: ToolCapability, s: seq<ToolCapability>): (r: seq<ToolCapability>)
    ensures forall y :: y in r <==> y == x || y in s
  {
    if s == [] then [x]
    else if Before(x, s[|s| - 1]) then
      assert s == s[..|s| - 1] + [s[|s| - 1]];
      Insert(x, s[..|s| - 1]) + [s[|s| - 1]]
    else s + [x]
  }

  /** sort.Slice on service name, then tool name. */
  function Sorted(s: seq<ToolCapability>): (r: seq<ToolCapability>)
    ensures forall y :: y in r <==> y in s
  {
    if s == [] then []
    else
      assert s == s[..|s| - 1] + [s[|s| - 1]];
      Insert(s[|s| - 1], Sorted(s[..|s| - 1]))
  }

  lemma {:induction false} InsertAscends(x: ToolCapability, s: seq<ToolCapability>)
    requires Ascending(s) && forall y :: y in s ==> y.toolName != x.toolName
    ensures Ascending(Insert(x, s))
  {
    if s != [] {
      var n := |s| - 1;
      BeforeTotal(x, s[n]);
      if Before(x, s[n]) {
        InsertAscends(x, s[..n]);
        var front := Insert(x, s[..n]);
        forall i | 0 <= i < |front|
          ensures Before(front[i], s[n])
        {
          assert front[i] in front;
        }
      } else {
        forall i | 0 <= i < n
          ensures Before(s[i], x)
        {
          BeforeTransitive(s[i], s[n], x);
        }
      }
    }
  }

  lemma {:induction false} SortedAscends(s: seq<ToolCapability>)
    requires DistinctNames(s)
    ensures Ascending(Sorted(s))
  {
    if s != [] {
      var n := |s| - 1;
      SortedAscends(s[..n]);
      forall y | y in s[..n]
        ensures y.toolName != s[n].toolName
      {
      }
      InsertAscends(s[n], Sorted(s[..n]));
    }
  }

  /** An ascending sequence is determined by its elements. */
  lemma {:induction false} AscendingUnique(a: seq<ToolCapability>, b: seq<ToolCapability>)
    requires Ascending(a) && Ascending(b) && forall y :: y in a <==> y in b
    ensures a == b
  {
    assert b != [] ==> b[0] in b;
    if a != [] {
      assert a[|a| - 1] in b;
      var m, n := |a| - 1, |b| - 1;
      assert b[n] in a;
      LastIsGreatest(a, b[n]);
      LastIsGreatest(b, a[m]);
      BeforeTotal(a[m], b[n]);
      assert a[m] == b[n];
      forall y
        ensures y in a[..m] <==> y in b[..n]
      {
        InitMember(a, y);
        InitMember(b, y);
      }
      AscendingUnique(a[..m], b[..n]);
      assert a == a[..m] + [a[m]] && b == b[..n] + [b[n]];
    }
  }

  lemma LastIsGreatest(s: seq<ToolCapability>, y: ToolCapability)
    requires Ascending(s) && y in s
    ensures y == s[|s| - 1] || Before(y, s[|s| - 1])
  {
  }

  lemma InitMember(s: seq<ToolCapability>, y: ToolCapability)
    requires Ascending(s) && s != []
    ensures y in s[..|s| - 1] <==> y in s && y != s[|s| - 1]
  {
    BeforeTotal(y, y);
    assert s == s[..|s| - 1] + [s[|s| - 1]];
  }

  /** The matching items with ids up to n, in id order. */
  function ById(st: StoreState, filter: ToolFilter, n: int): (r: seq<ToolCapability>)
    decreases n
  {
    if n <= 0 then []
    else ById(st, filter, n - 1) + if n in st.tools && Matches(filter, st.tools[n]) then [st.tools[n]] else []
  }

  lemma {:induction false} ByIdMembers(st: StoreState, filter: ToolFilter, n: int)
    requires Consistent(st)
    ensures forall y :: y in ById(st, filter, n) <==>
            exists id :: 1 <= id <= n && id in st.tools && y == st.tools[id] && Matches(filter, y)
    ensures DistinctNames(ById(st, filter, n))
    decreases n
  {
    if n > 0 {
      ByIdMembers(st, filter, n - 1);
      var before, all := ById(st, filter, n - 1), ById(st, filter, n);
      if all != before {
        forall i | 0 <= i < |before|
          ensures before[i].toolName != st.tools[n].toolName
        {
          assert before[i] in before;
        }
      }
    }
  }

  /** Everything that matches, in listing order. */
  function Full(st: StoreState, filter: ToolFilter): seq<ToolCapability> {
    Sorted(ById(st, filter, st.nextToolID))
  }

  function Limit(filter: ToolFilter): nat {
    if filter.limit <= 0 then 100 else filter.limit
  }

  function Listing(st: StoreState, filter: ToolFilter): seq<ToolCapability> {
    Take(Limit(filter), Full(st, filter))
  }

  lemma FullMembers(st: StoreState, filter: ToolFilter)
    requires Consistent(st)
    ensures Ascending(Full(st, filter))
    ensures forall y :: y in Full(st, filter) <==>
            exists id :: id in st.tools && y == st.tools[id] && Matches(filter, y)
  {
    ByIdMembers(st, filter, st.nextToolID);
    SortedAscends(ById(st, filter, st.nextToolID));
  }

  /** a is smaller than b where they first differ, or b goes on where a ends. */
  ghost predicate Smaller(a: string, b: string) { exists k: nat :: DiffersAt(a, b, k) }

  predicate DiffersAt(a: string, b: string, k: nat) {
    k <= |a| && k < |b| && a[..k] == b[..k] && (k < |a| ==> a[k] < b[k])
  }

  lemma {:induction false} StringLessIsSmaller(a: string, b: string)
    ensures StringLess(a, b) <==> Smaller(a, b)
  {
    if b != [] && (a == [] || a[0] < b[0]) {
      assert DiffersAt(a, b, 0);
    }
    if a != [] && b != [] && a[0] == b[0] {
      StringLessIsSmaller(a[1..], b[1..]);
      assert a == [a[0]] + a[1..] && b == [b[0]] + b[1..];
      if Smaller(a[1..], b[1..]) {
        var k: nat :| DiffersAt(a[1..], b[1..], k);
        assert a[..k + 1] == [a[0]] + a[1..][..k] && b[..k + 1] == [b[0]] + b[1..][..k];
        assert DiffersAt(a, b, k + 1);
      }
      if Smaller(a, b) {
        var k: nat :| DiffersAt(a, b, k);
        assert a[1..][..k - 1] == a[..k][1..] && b[1..][..k - 1] == b[..k][1..];
        assert DiffersAt(a[1..], b[1..], k - 1);
      }
    }
  }

  /** Listed by service name, then by tool name. */
  ghost predicate ListedBefore(a: ToolCapability, b: ToolCapability) {
    Smaller(a.serviceName, b.serviceName) || (a.serviceName == b.serviceName && Smaller(a.toolName, b.toolName))
  }

  lemma BeforeIsListedBefore(a: ToolCapability, b: ToolCapability)
    ensures Before(a, b) <==> ListedBefore(a, b)
  {
    StringLessIsSmaller(a.serviceName, b.serviceName);
    StringLessIsSmaller(a.toolName, b.toolName);
    StringLessTotal(a.serviceName, a.serviceName);
    hide Smaller, StringLess;
  }

  /** The item is stored with the status and source type asked for. */
  ghost predicate Asked(st: StoreState, filter: ToolFilter, item: ToolCapability) {
    && item.id in st.tools && st.tools[item.id] == item
    && filter.status in ["", item.toolStatus] && filter.sourceType in ["", item.sourceType]
  }

  /** A listing holds stored items of the status and source type asked for, by service and tool name, at most as many as
      the limit, or 100; one is left out only when the limit is reached by items that come before it. */
  lemma ListingExactly(st: StoreState, filter: ToolFilter)
    requires Consistent(st)
    ensures var s := Listing(st, filter);
            var limit := if filter.limit > 0 then filter.limit else 100;
            && |s| <= limit
            && (forall x :: x in s ==> Asked(st, filter, x))
            && (forall i, j :: 0 <= i < j < |s| ==> ListedBefore(s[i], s[j]))
            && (forall x :: Asked(st, filter, x) && x !in s ==>
                  |s| == limit && forall y :: y in s ==> ListedBefore(y, x))
  {
    var full, s := Full(st, filter), Listing(st, filter);
    FullMembers(st, filter);
    assert forall x :: x in full <==> Asked(st, filter, x);
    hide Full, Asked, Consistent;
    forall i, j | 0 <= i < j < |full|
      ensures ListedBefore(full[i], full[j])
    {
      BeforeIsListedBefore(full[i], full[j]);
    }
    hide Before, ListedBefore;
    forall x, y | x in full && x !in s && y in s
      ensures ListedBefore(y, x)
    {
      LeftOutIsLater(full, Limit(filter), x, y);
    }
  }

  lemma LeftOutIsLater(full: seq<ToolCapability>, limit: nat, x: ToolCapability, y: ToolCapability)
    requires forall i, j :: 0 <= i < j < |full| ==> ListedBefore(full[i], full[j])
    requires x in full && x !in Take(limit, full) && y in Take(limit, full)
    ensures ListedBefore(y, x)
  {
    hide ListedBefore;
    var s := Take(limit, full);
    var j :| 0 <= j < |full| && full[j] == x;
    var i :| 0 <= i < |s| && s[i] == y;
    assert full[i] == y && (forall k :: 0 <= k < |s| ==> s[k] in s && s[k] == full[k]);
  }

  /** The next key of a map iteration: any of those left. */
  method AnyOf<K>(keys: set<K>) returns (key: K)
    requires keys != {}
    ensures key in keys
  {
    key :| key in keys;
  }

  class MemoryStore {
    var nextToolID: int
    var tools: map<int, ToolCapability>
    var toolsByName: map<string, int>

    ghost function View(): StoreState
      reads this
    {
      StoreState(nextToolID, tools, toolsByName)
    }

    constructor ()
      ensures View() == EMPTY_STORE && Consistent(View())
    {
      nextToolID, tools, toolsByName := 0, map[], map[];
    }

    method UpsertToolCapability(item: ToolCapability) returns (stored: ToolCapability)
      requires Consistent(View())
      modifies this
      ensures View() == Upsert(old(View()), item) && Consistent(View())
      ensures stored == Stored(old(View()), item) && stored.id in tools && tools[stored.id] == stored
    {
      UpsertKeeps(View(), item);
      if item.toolName in toolsByName {
        stored := item.(id := toolsByName[item.toolName]);
        tools := tools[stored.id := stored];
        return;
      }
      nextToolID := nextToolID + 1;
      stored := item.(id := nextToolID);
      tools := tools[stored.id := stored];
      toolsByName := toolsByName[item.toolName := stored.id];
    }

    method UpdateToolCapabilityStatus(id: int, status: string, publishedBy: string)
      returns (found: Option<ToolCapability>)
      requires Consistent(View())
      modifies this
      ensures View() == UpdateStatus(old(View()), id, status, publishedBy) && Consistent(View())
      ensures found.Some? <==> id in old(tools)
      ensures found.Some? ==> found.value == tools[id]
    {
      UpdateStatusKeeps(View(), id, status, publishedBy);
      if id !in tools {
        return None;
      }
      var item := tools[id].(toolStatus := status, publishedBy := publishedBy);
      if status == STATUS_ENABLED {
        item := item.(approvalStatus := "approved");
      }
      tools := tools[id := item];
      return Some(item);
    }

    /** The map is walked in an arbitrary order; the listing does not depend on it. */
    method ListToolCapabilities(filter: ToolFilter) returns (out: seq<ToolCapability>)
      requires Consistent(View())
      ensures out == Listing(View(), filter)
    {
      var ids: set<int> := tools.Keys;
      out := [];
      while ids != {}
        invariant ids <= tools.Keys
        invariant forall y :: y in out <==>
                  exists id :: id in tools && id !in ids && y == tools[id] && Matches(filter, y)
        invariant DistinctNames(out)
        decreases ids
      {
        var id := AnyOf(ids);
        ids := ids - {id};
        if Matches(filter, tools[id]) {
          forall i | 0 <= i < |out|
            ensures out[i].toolName != tools[id].toolName
          {
            assert out[i] in out;
          }
          out := out + [tools[id]];
        }
      }
      FullMembers(View(), filter);
      SortedAscends(out);
      out := Sorted(out);
      AscendingUnique(out, Full(View(), filter));
      if |out| > Limit(filter) {
        out := out[..Limit(filter)];
      }
    }
  }
}
