/** The safety assessment of internal/capability/importer.go. */
module Safety {
  import opened Text

  const READONLY_CANDIDATE := "readonly_candidate"
  const NEEDS_REVIEW := "needs_review"
  const REJECTED := "rejected"

  const WRITING_WORDS: seq<string> := ["delete", "remove", "drop", "truncate", "insert", "update", "upsert", "create",
                                       "write"]
  const RUNNING_WORDS: seq<string> := ["execute", "exec", "run", "shell", "command", "deploy", "restart"]
  const GRANTING_WORDS: seq<string> := ["approve", "refund", "pay", "transfer", "send", "grant", "revoke", "disable",
                                        "enable"]
  const DANGER_WORDS: seq<string> := WRITING_WORDS + RUNNING_WORDS + GRANTING_WORDS

  const READ_WORDS: seq<string> := [
    "get", "list", "search", "query", "read", "find", "describe", "profile", "status", "quota", "logs",
    "kline", "snapshot", "events", "compare", "similar", "metadata", "summary"]

  predicate WordChar(c: char) { 'a' <= c <= 'z' || '0' <= c <= '9' }

  predicate WordAt(s: string, word: string, i: int) {
    && OccursAt(s, word, i)
    && (i == 0 || !WordChar(s[i - 1]))
    && (i + |word| == |s| || !WordChar(s[i + |word|]))
  }

  /** A match of (^|[^a-z0-9])word([^a-z0-9]|$). */
  predicate HasWord(s: string, word: string) {
    exists i :: 0 <= i <= |s| - |word| && WordAt(s, word, i)
  }

  /** No danger word stands in s once its letters are lowered. */
  predicate Clean(s: string) {
    forall w :: w in DANGER_WORDS ==> !HasWord(Lower(s), w)
  }

  /** The text assessSafety looks at: the four parts joined by spaces, lowered. */
  function Signal(toolName: string, description: string, path: string, scope: string): string {
    Lower(toolName + [' '] + description + [' '] + path + [' '] + scope)
  }

  predicate SqlExposed(signal: string) {
    Contains(signal, "sql") && (Contains(signal, "execute") || Contains(signal, "script")
                                || !Contains(signal, "readonly"))
  }

  function AssessSafety(toolName: string, description: string, httpMethod: string, path: string,
                        scope: string): string {
    var signal := Signal(toolName, description, path, scope);
    if httpMethod != "" && httpMethod != "GET" && httpMethod != "POST" then REJECTED
    else if exists w :: w in DANGER_WORDS && HasWord(signal, w) then REJECTED
    else if SqlExposed(signal) then REJECTED
    else if exists w :: w in READ_WORDS && Contains(signal, w) then READONLY_CANDIDATE
    else NEEDS_REVIEW
  }

  predicate AllWordChars(w: string) {
    |w| > 0 && forall i :: 0 <= i < |w| ==> WordChar(w[i])
  }

  lemma WritingWordsAreWords()
    ensures forall w :: w in WRITING_WORDS ==> AllWordChars(w)
  {
  }

  lemma RunningWordsAreWords()
    ensures forall w :: w in RUNNING_WORDS ==> AllWordChars(w)
  {
  }

  lemma GrantingWordsAreWords()
    ensures forall w :: w in GRANTING_WORDS ==> AllWordChars(w)
  {
  }

  lemma DangerWordsAreWords(w: string)
    requires w in DANGER_WORDS
    ensures AllWordChars(w)
  {
    WritingWordsAreWords();
    RunningWordsAreWords();
    GrantingWordsAreWords();
    hide AllWordChars;
    assert w in WRITING_WORDS || w in RUNNING_WORDS || w in GRANTING_WORDS;
  }

  /** A word match only depends on the matched stretch and its two neighbours. */
  lemma WordAtShift(s: string, i: nat, t: string, j: nat, w: string)
    requires |w| > 0 && i + |w| <= |s| && j + |w| <= |t|
    requires s[i..i + |w|] == t[j..j + |w|]
    requires (i == 0 || !WordChar(s[i - 1])) ==> (j == 0 || !WordChar(t[j - 1]))
    requires (i + |w| == |s| || !WordChar(s[i + |w|])) ==> (j + |w| == |t| || !WordChar(t[j + |w|]))
    requires WordAt(s, w, i)
    ensures HasWord(t, w)
  {
    assert WordAt(t, w, j);
  }

  /** Stretches of a text in front of a separator, and behind it. */
  lemma Stretches(a: string, sep: char, b: string, i: nat, j: nat)
    requires i <= j <= |a| + 1 + |b|
    ensures j <= |a| ==> (a + [sep] + b)[i..j] == a[i..j]
    ensures |a| < i ==> (a + [sep] + b)[i..j] == b[i - |a| - 1..j - |a| - 1]
  {
  }

  lemma WordBeforeOrAfter(a: string, sep: char, b: string, w: string)
    requires AllWordChars(w) && !WordChar(sep)
    requires HasWord(a + [sep] + b, w)
    ensures HasWord(a, w) || HasWord(b, w)
  {
    var s, n := a + [sep] + b, |a|;
    var i :| 0 <= i <= |s| - |w| && WordAt(s, w, i);
    Stretches(a, sep, b, i, i + |w|);
    assert s[n] == sep;
    forall p | i <= p < i + |w|
      ensures WordChar(s[p])
    {
      assert s[i..i + |w|][p - i] == w[p - i];
    }
    if i + |w| <= n {
      WordAtShift(s, i, a, i, w);
    } else if n < i {
      var j := i - n - 1;
      WordAtShift(s, i, b, j, w);
    } else {
      assert false;
    }
  }

  lemma WordStays(a: string, sep: char, b: string, w: string)
    requires AllWordChars(w) && !WordChar(sep)
    requires HasWord(a, w) || HasWord(b, w)
    ensures HasWord(a + [sep] + b, w)
  {
    var s := a + [sep] + b;
    if HasWord(a, w) {
      var i :| 0 <= i <= |a| - |w| && WordAt(a, w, i);
      assert a[i..i + |w|] == s[i..i + |w|];
      WordAtShift(a, i, s, i, w);
    } else {
      var j :| 0 <= j <= |b| - |w| && WordAt(b, w, j);
      var i := j + |a| + 1;
      assert s[i..i + |w|] == b[j..j + |w|];
      WordAtShift(b, j, s, i, w);
    }
  }

  lemma CleanParts(a: string, sep: char, b: string)
    requires !WordChar(LowerChar(sep))
    ensures Clean(a + [sep] + b) <==> Clean(a) && Clean(b)
  {
    assert Lower(a + [sep] + b) == Lower(a) + [LowerChar(sep)] + Lower(b);
    forall w | w in DANGER_WORDS
      ensures HasWord(Lower(a + [sep] + b), w) <==> HasWord(Lower(a), w) || HasWord(Lower(b), w)
    {
      DangerWordsAreWords(w);
      if HasWord(Lower(a) + [LowerChar(sep)] + Lower(b), w) {
        WordBeforeOrAfter(Lower(a), LowerChar(sep), Lower(b), w);
      }
      if HasWord(Lower(a), w) || HasWord(Lower(b), w) {
        WordStays(Lower(a), LowerChar(sep), Lower(b), w);
      }
    }
  }

  lemma {:induction false} CleanJoin(parts: seq<string>, sep: char)
    requires !WordChar(LowerChar(sep)) && parts != []
    ensures Clean(Join(parts, sep)) <==> forall p :: p in parts ==> Clean(p)
  {
    var n := |parts| - 1;
    assert parts == parts[..n] + [parts[n]];
    if n == 0 {
      assert parts == [parts[0]];
    } else {
      CleanJoin(parts[..n], sep);
      CleanParts(Join(parts[..n], sep), sep, parts[n]);
    }
  }

  /** Although only the joined text is searched, it passes exactly when every part is clean by itself. */
  lemma AcceptedIffPartsClean(toolName: string, description: string, httpMethod: string, path: string, scope: string)
    ensures AssessSafety(toolName, description, httpMethod, path, scope) != REJECTED
            <==> && httpMethod in ["", "GET", "POST"]
                 && Clean(toolName) && Clean(description) && Clean(path) && Clean(scope)
                 && !SqlExposed(Signal(toolName, description, path, scope))
  {
    CleanParts(toolName, ' ', description);
    CleanParts(toolName + [' '] + description, ' ', path);
    CleanParts(toolName + [' '] + description + [' '] + path, ' ', scope);
  }

  /** scopeFromToolName: the second underscore piece names the service. */
  function ScopeFromToolName(name: string): string {
    var parts := Split(name, '_');
    (if |parts| > 1 then parts[1] else "dynamic") + ":read"
  }

  lemma WordIsShort(s: string, w: string)
    requires HasWord(s, w) && AllWordChars(s) && AllWordChars(w)
    ensures s == w
  {
    var i :| 0 <= i <= |s| - |w| && WordAt(s, w, i);
    assert i == 0 && |w| == |s|;
    assert s[0..|w|] == s;
  }

  /** A single word is clean when it is no danger word itself. */
  lemma PlainWordIsClean(s: string)
    requires AllWordChars(s) && s !in DANGER_WORDS
    ensures Clean(s)
  {
    assert Lower(s) == s;
    forall w | w in DANGER_WORDS
      ensures !HasWord(s, w)
    {
      DangerWordsAreWords(w);
      if HasWord(s, w) {
        WordIsShort(s, w);
        assert false;
      }
    }
  }

  lemma HarmlessWords()
    ensures AllWordChars("read") && "read" !in DANGER_WORDS
    ensures AllWordChars("dynamic") && "dynamic" !in DANGER_WORDS
  {
  }

  /** A scope derived from a clean tool name is clean, even where the importer did not assess it. */
  lemma DerivedScopeIsClean(name: string)
    requires Clean(name)
    ensures Clean(ScopeFromToolName(name))
  {
    var parts := Split(name, '_');
    SplitJoins(name, '_');
    CleanJoin(parts, '_');
    var service := if |parts| > 1 then parts[1] else "dynamic";
    HarmlessWords();
    PlainWordIsClean("dynamic");
    PlainWordIsClean("read");
    assert Clean(service);
    CleanParts(service, ':', "read");
    assert service + ":read" == service + [':'] + "read";
  }

  // ---------------------------------------------------------------- the guard on sql

  /** A signal that speaks of sql speaks of readonly too, and of neither execute nor script. */
  predicate SqlGuarded(signal: string) {
    Contains(signal, "sql") ==>
      Contains(signal, "readonly") && !Contains(signal, "execute") && !Contains(signal, "script")
  }

  lemma GuardedIffNotExposed(signal: string)
    ensures SqlGuarded(signal) <==> !SqlExposed(signal)
  {
  }

  lemma ContainsWithin(before: string, s: string, after: string, w: string)
    requires Contains(s, w)
    ensures Contains(before + s + after, w)
  {
    var i :| 0 <= i <= |s| - |w| && OccursAt(s, w, i);
    var t := before + s + after;
    assert t[|before| + i..|before| + i + |w|] == s[i..i + |w|];
    assert OccursAt(t, w, |before| + i);
  }

  /** A word without the separator lies on one side of it. */
  lemma ContainsSplits(a: string, sep: char, b: string, w: string)
    requires sep !in w && Contains(a + [sep] + b, w)
    ensures Contains(a, w) || Contains(b, w)
  {
    var s, n := a + [sep] + b, |a|;
    var i :| 0 <= i <= |s| - |w| && OccursAt(s, w, i);
    Stretches(a, sep, b, i, i + |w|);
    assert s[n] == sep;
    forall k | i <= k < i + |w|
      ensures s[k] in w
    {
      assert s[i..i + |w|][k - i] == s[k];
    }
    if i + |w| <= n {
      assert OccursAt(a, w, i);
    } else if n < i {
      assert OccursAt(b, w, i - n - 1);
    }
  }

  lemma HasTheLetters(s: string, w: string, c: char)
    requires c in w && Contains(s, w)
    ensures c in s
  {
    var i :| 0 <= i <= |s| - |w| && OccursAt(s, w, i);
    var k :| 0 <= k < |w| && w[k] == c;
    assert s[i..i + |w|][k] == s[i + k];
  }

  lemma {:induction false} ContainsPart(parts: seq<string>, sep: char, p: string, w: string)
    requires p in parts && Contains(Lower(p), w)
    ensures Contains(Lower(Join(parts, sep)), w)
  {
    var n := |parts| - 1;
    assert parts == parts[..n] + [parts[n]];
    if n > 0 {
      var front := Join(parts[..n], sep);
      var whole := front + [sep] + parts[n];
      if p == parts[n] {
        assert Lower(whole) == Lower(front + [sep]) + Lower(p) + "";
        ContainsWithin(Lower(front + [sep]), Lower(p), "", w);
      } else {
        ContainsPart(parts[..n], sep, p, w);
        assert Lower(whole) == "" + Lower(front) + Lower([sep] + parts[n]);
        ContainsWithin("", Lower(front), Lower([sep] + parts[n]), w);
      }
    }
  }

  /** What the derived scope says, the tool name says. */
  lemma DerivedScopeSays(name: string, w: string, c: char)
    requires c in w && c !in "dynamic" && c !in "read" && ':' !in w
    requires Contains(Lower(ScopeFromToolName(name)), w)
    ensures Contains(Lower(name), w)
  {
    var service := ServiceOf(name);
    hide ScopeFromToolName, Contains, Split, Join, Lower;
    ContainsSplits(Lower(service), ':', "read", w);
    if Contains("read", w) {
      HasTheLetters("read", w, c);
    }
    if Contains("dynamic", w) {
      HasTheLetters("dynamic", w, c);
    }
    SplitJoins(name, '_');
    if service in Split(name, '_') {
      ContainsPart(Split(name, '_'), '_', service, w);
    }
  }

  lemma ServiceOf(name: string) returns (service: string)
    ensures Lower(ScopeFromToolName(name)) == Lower(service) + [':'] + "read"
    ensures Lower(service) == "dynamic" || service in Split(name, '_')
  {
    var parts := Split(name, '_');
    service := if |parts| > 1 then parts[1] else "dynamic";
    assert Lower(service + ":read") == Lower(service) + [':'] + "read";
    assert Lower("dynamic") == "dynamic";
  }

  lemma {:induction false} TrimLeftPart(s: string, w: string)
    requires Contains(Lower(TrimLeft(GoSpace, s)), w)
    ensures Contains(Lower(s), w)
  {
    if s != [] && GoSpace(s[0]) {
      TrimLeftPart(s[1..], w);
      assert Lower(s) == [LowerChar(s[0])] + Lower(s[1..]) + "";
      ContainsWithin([LowerChar(s[0])], Lower(s[1..]), "", w);
    }
  }

  lemma {:induction false} TrimRightPart(s: string, w: string)
    requires Contains(Lower(TrimRight(GoSpace, s)), w)
    ensures Contains(Lower(s), w)
  {
    var n := |s| - 1;
    if s != [] && GoSpace(s[n]) {
      TrimRightPart(s[..n], w);
      assert Lower(s) == "" + Lower(s[..n]) + [LowerChar(s[n])];
      ContainsWithin("", Lower(s[..n]), [LowerChar(s[n])], w);
    }
  }

  /** Adding the trimmed derived scope to a signal adds none of these words. */
  lemma DerivedScopeAddsNothing(toolName: string, description: string, path: string, w: string, c: char)
    requires c in w && c !in "dynamic" && c !in "read" && ':' !in w && ' ' !in w
    requires Contains(Signal(toolName, description, path, GoTrim(ScopeFromToolName(toolName))), w)
    ensures Contains(Signal(toolName, description, path, ""), w)
  {
    var scope := ScopeFromToolName(toolName);
    var front := toolName + [' '] + description + [' '] + path;
    assert Signal(toolName, description, path, GoTrim(scope)) == Lower(front) + [' '] + Lower(GoTrim(scope));
    assert Signal(toolName, description, path, "") == "" + Lower(front) + [' '];
    assert Lower(front) == "" + Lower(toolName) + Lower([' '] + description + [' '] + path);
    hide Signal, Contains;
    ContainsSplits(Lower(front), ' ', Lower(GoTrim(scope)), w);
    if !Contains(Lower(front), w) {
      TrimRightPart(TrimLeft(GoSpace, scope), w);
      TrimLeftPart(scope, w);
      DerivedScopeSays(toolName, w, c);
      ContainsWithin("", Lower(toolName), Lower([' '] + description + [' '] + path), w);
    }
    ContainsWithin("", Lower(front), [' '], w);
  }

  lemma SignalGrows(toolName: string, description: string, path: string, scope: string)
    ensures Signal(toolName, description, path, scope)
            == "" + Signal(toolName, description, path, "") + Lower(scope)
  {
  }

  /** The derived scope, which the importer of routes does not assess, cannot break the guard either. */
  lemma DerivedScopeIsGuarded(toolName: string, description: string, path: string)
    requires SqlGuarded(Signal(toolName, description, path, ""))
    ensures SqlGuarded(Signal(toolName, description, path, GoTrim(ScopeFromToolName(toolName))))
  {
    var scope := GoTrim(ScopeFromToolName(toolName));
    var bare, full := Signal(toolName, description, path, ""), Signal(toolName, description, path, scope);
    SignalGrows(toolName, description, path, scope);
    hide Signal, ScopeFromToolName, GoTrim, Contains;
    if Contains(full, "sql") {
      DerivedScopeAddsNothing(toolName, description, path, "sql", 's');
      ContainsWithin("", bare, Lower(scope), "readonly");
      if Contains(full, "execute") {
        DerivedScopeAddsNothing(toolName, description, path, "execute", 'x');
      }
      if Contains(full, "script") {
        DerivedScopeAddsNothing(toolName, description, path, "script", 's');
      }
    }
  }
}
