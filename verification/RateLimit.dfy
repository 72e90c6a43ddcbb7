/** The fixed-window limiter of internal/ratelimit/fixed_window.go. */
module RateLimit {

  /** Instants are nanoseconds counted from Go's zero Time, which is instant 0. */
  const ZERO_TIME := 0
  const SECOND := 1_000_000_000

  datatype Bucket = Bucket(start: int, count: int)
  datatype Call = Call(key: string, now: int)
  type Buckets = map<string, Bucket>

  function Lookup(buckets: Buckets, key: string): Bucket {
    if key in buckets then buckets[key] else Bucket(ZERO_TIME, 0)
  }

  /** One call of the limiter: the answer and the new bucket table. */
  function Step(limit: int, window: int, buckets: Buckets, call: Call): (bool, Buckets)
  {
    var current := Lookup(buckets, call.key);
    if limit <= 0 || call.key == "" then
      (true, buckets)
    else if current.start == ZERO_TIME || call.now - current.start >= window then
      (true, buckets[call.key := Bucket(call.now, 1)])
    else if current.count >= limit then
      (false, buckets)
    else
      (true, buckets[call.key := Bucket(current.start, current.count + 1)])
  }

  /** The bucket table after a run of calls. */
  function After(limit: int, window: int, calls: seq<Call>): Buckets {
    if calls == [] then map[]
    else Step(limit, window, After(limit, window, calls[..|calls| - 1]), calls[|calls| - 1]).1
  }

  /** Whether the last of a non-empty run of calls is admitted. */
  predicate LastAdmitted(limit: int, window: int, calls: seq<Call>)
    requires calls != []
  {
    Step(limit, window, After(limit, window, calls[..|calls| - 1]), calls[|calls| - 1]).0
  }

  /** How many calls of the run with this key and lo <= now < hi are admitted. */
  function Admits(limit: int, window: int, calls: seq<Call>, key: string, lo: int, hi: int): nat {
    if calls == [] then 0
    else
      var last := calls[|calls| - 1];
      Admits(limit, window, calls[..|calls| - 1], key, lo, hi)
      + if last.key == key && lo <= last.now < hi && LastAdmitted(limit, window, calls) then 1 else 0
  }

  /** The calls of this key carry non-zero instants that never go back. */
  ghost predicate InOrder(calls: seq<Call>, key: string) {
    && (forall i :: 0 <= i < |calls| && calls[i].key == key ==> calls[i].now != ZERO_TIME)
    && (forall i, j :: 0 <= i < j < |calls| && calls[i].key == key && calls[j].key == key
                       ==> calls[i].now <= calls[j].now)
  }

  class FixedWindow {
    const limit: int
    const window: int
    var buckets: Buckets
    ghost var history: seq<Call>

    /** The table is always the one some run of calls leaves behind. */
    ghost predicate Valid()
      reads this
    {
      window > 0 && buckets == After(limit, window, history)
    }

    constructor (limit: int, window: int)
      ensures Valid() && history == []
      ensures this.limit == limit
      ensures this.window == if window <= 0 then SECOND else window
    {
      this.limit := limit;
      this.window := if window <= 0 then SECOND else window;
      buckets := map[];
      history := [];
    }

    method Allow(key: string, now: int) returns (ok: bool)
      requires Valid()
      modifies this
      ensures Valid() && history == old(history) + [Call(key, now)]
      ensures ok == LastAdmitted(limit, window, history)
      ensures (ok, buckets) == Step(limit, window, old(buckets), Call(key, now))
    {
      ghost var next := history + [Call(key, now)];
      assert next[..|next| - 1] == history;
      history := next;
      if limit <= 0 || key == "" {
        return true;
      }
      var current := if key in buckets then buckets[key] else Bucket(ZERO_TIME, 0);
      if current.start == ZERO_TIME || now - current.start >= window {
        buckets := buckets[key := Bucket(now, 1)];
        return true;
      }
      if current.count >= limit {
        return false;
      }
      current := current.(count := current.count + 1);
      buckets := buckets[key := current];
      return true;
    }
  }

  lemma Append(limit: int, window: int, calls: seq<Call>, c: Call, key: string, lo: int, hi: int)
    ensures var (ok, buckets) := Step(limit, window, After(limit, window, calls), c);
            && After(limit, window, calls + [c]) == buckets
            && Admits(limit, window, calls + [c], key, lo, hi)
               == Admits(limit, window, calls, key, lo, hi) + if c.key == key && lo <= c.now < hi && ok then 1 else 0
  {
    var next := calls + [c];
    assert next[..|next| - 1] == calls && next[|next| - 1] == c;
  }

  // ---------------------------------------------------------------- admission read off the calls

  function Count(calls: seq<Call>, key: string): nat {
    if calls == [] then 0 else Count(calls[..|calls| - 1], key) + if calls[|calls| - 1].key == key then 1 else 0
  }

  /** The call that opened the window of the key's last call: its first one, and then each one that comes a window or
      more after the opener before it; -1 without calls of the key. */
  function Opener(window: int, calls: seq<Call>, key: string): (i: int)
    ensures -1 <= i < |calls| && (i >= 0 ==> calls[i].key == key)
  {
    if calls == [] then -1
    else
      var n := |calls| - 1;
      var before := Opener(window, calls[..n], key);
      if calls[n].key == key && (before < 0 || calls[n].now - calls[before].now >= window) then n else before
  }

  lemma OpenerSnoc(window: int, calls: seq<Call>, c: Call, key: string)
    ensures var before := Opener(window, calls, key);
            Opener(window, calls + [c], key)
            == if c.key == key && (before < 0 || c.now - calls[before].now >= window) then |calls| else before
  {
    assert (calls + [c])[..|calls|] == calls;
  }

  lemma CountSnoc(calls: seq<Call>, c: Call, key: string, i: nat)
    requires i <= |calls|
    ensures Count((calls + [c])[i..], key) == Count(calls[i..], key) + if c.key == key then 1 else 0
    ensures i == |calls| ==> Count(calls[i..], key) == 0
  {
    var rest := (calls + [c])[i..];
    assert rest[..|rest| - 1] == calls[i..];
  }

  /** The table holds for each key the instant of its opener and how many calls came since, up to the limit. */
  ghost predicate TableReads(limit: int, window: int, calls: seq<Call>, key: string) {
    var buckets, opener := After(limit, window, calls), Opener(window, calls, key);
    if opener < 0 then key !in buckets
    else
      var since := Count(calls[opener..], key);
      key in buckets && buckets[key] == Bucket(calls[opener].now, if since < limit then since else limit)
  }

  lemma {:induction false} TableReadsCalls(limit: int, window: int, calls: seq<Call>, key: string)
    requires limit > 0 && key != ""
    requires forall i :: 0 <= i < |calls| && calls[i].key == key ==> calls[i].now != ZERO_TIME
    ensures TableReads(limit, window, calls, key)
  {
    if calls != [] {
      var n := |calls| - 1;
      var front, last := calls[..n], calls[n];
      assert calls == front + [last];
      TableReadsCalls(limit, window, front, key);
      TableReadsNext(limit, window, front, last, key);
    }
  }

  lemma TableReadsNext(limit: int, window: int, front: seq<Call>, last: Call, key: string)
    requires limit > 0 && key != "" && TableReads(limit, window, front, key)
    requires forall i :: 0 <= i < |front| && front[i].key == key ==> front[i].now != ZERO_TIME
    ensures TableReads(limit, window, front + [last], key)
  {
    var calls, buckets := front + [last], After(limit, window, front);
    assert calls[..|calls| - 1] == front;
    assert After(limit, window, calls) == Step(limit, window, buckets, last).1;
    hide After, Step, Count, Opener;
    if last.key == key {
      TableReadsOwn(limit, window, front, last, key);
    } else {
      OpenerSnoc(window, front, last, key);
      StepKeepsOther(limit, window, buckets, last, key);
      if Opener(window, front, key) >= 0 {
        CountSnoc(front, last, key, Opener(window, front, key));
      }
    }
  }

  lemma TableReadsOwn(limit: int, window: int, front: seq<Call>, last: Call, key: string)
    requires limit > 0 && key != "" && last.key == key && TableReads(limit, window, front, key)
    requires forall i :: 0 <= i < |front| && front[i].key == key ==> front[i].now != ZERO_TIME
    ensures var calls, buckets := front + [last], Step(limit, window, After(limit, window, front), last).1;
            var opener := Opener(window, calls, key);
            var since := Count(calls[opener..], key);
            0 <= opener && key in buckets
            && buckets[key] == Bucket(calls[opener].now, if since < limit then since else limit)
  {
    var before, buckets := Opener(window, front, key), After(limit, window, front);
    OpenerSnoc(window, front, last, key);
    CountSnoc(front, last, key, |front|);
    if before >= 0 {
      CountSnoc(front, last, key, before);
    }
    hide After, Count, Opener;
  }

  lemma StepKeepsOther(limit: int, window: int, buckets: Buckets, call: Call, key: string)
    requires key != call.key
    ensures var after := Step(limit, window, buckets, call).1;
            (key in after <==> key in buckets) && (key in buckets ==> after[key] == buckets[key])
  {
  }

  /** A call is admitted if and only if the limiter has no positive limit, the call has no key, or it is among the first
      limit calls of its key since the one that opened the window. */
  lemma AllowsExactly(limit: int, window: int, calls: seq<Call>)
    requires calls != []
    requires var key := calls[|calls| - 1].key;
             forall i :: 0 <= i < |calls| && calls[i].key == key ==> calls[i].now != ZERO_TIME
    ensures var key := calls[|calls| - 1].key;
            var opener := Opener(window, calls, key);
            && 0 <= opener
            && (LastAdmitted(limit, window, calls)
                <==> limit <= 0 || key == "" || Count(calls[opener..], key) <= limit)
  {
    var n := |calls| - 1;
    var front, last := calls[..n], calls[n];
    assert calls == front + [last];
    var before := Opener(window, front, last.key);
    OpenerSnoc(window, front, last, last.key);
    CountSnoc(front, last, last.key, n);
    if before >= 0 {
      CountSnoc(front, last, last.key, before);
    }
    if limit > 0 && last.key != "" {
      TableReadsCalls(limit, window, front, last.key);
      hide Opener, Count, After;
    }
  }

  /** Without a positive limit every call is admitted and nothing is remembered. */
  lemma {:induction false} UnlimitedAdmitsAll(limit: int, window: int, calls: seq<Call>)
    requires limit <= 0
    ensures After(limit, window, calls) == map[]
    ensures calls != [] ==> LastAdmitted(limit, window, calls)
  {
    if calls != [] {
      UnlimitedAdmitsAll(limit, window, calls[..|calls| - 1]);
    }
  }

  // ---------------------------------------------------------------- the open window

  lemma AdmitsMonotone(limit: int, window: int, calls: seq<Call>, key: string, lo: int, lo': int, hi: int, hi': int)
    requires lo' <= lo && hi <= hi'
    ensures Admits(limit, window, calls, key, lo, hi) <= Admits(limit, window, calls, key, lo', hi')
  {
  }

  /** What the bucket of a key says about the admitted calls so far. */
  ghost predicate WindowFacts(limit: int, window: int, calls: seq<Call>, key: string, hi: int) {
    var buckets := After(limit, window, calls);
    var b := Lookup(buckets, key);
    if key in buckets then
      && 1 <= b.count <= limit
      && b.start != ZERO_TIME
      && (exists i :: 0 <= i < |calls| && calls[i].key == key && calls[i].now == b.start)
      && Admits(limit, window, calls, key, b.start, hi) == b.count
      && Admits(limit, window, calls, key, b.start + window, hi) == 0
    else
      forall i :: 0 <= i < |calls| ==> calls[i].key != key
  }

  lemma {:induction false} OpenWindow(limit: int, window: int, calls: seq<Call>, key: string, hi: int)
    requires limit > 0 && window > 0 && key != ""
    requires InOrder(calls, key)
    requires forall i :: 0 <= i < |calls| && calls[i].key == key ==> calls[i].now < hi
    ensures WindowFacts(limit, window, calls, key, hi)
  {
    hide WindowFacts;
    if calls == [] {
      NothingOpen(limit, window, key, hi);
    } else {
      var before, last := calls[..|calls| - 1], calls[|calls| - 1];
      assert before + [last] == calls;
      assert forall i :: 0 <= i < |before| ==> before[i] == calls[i];
      OrderDropsLast(before, last, key);
      hide InOrder, After, Admits;
      OpenWindow(limit, window, before, key, hi);
      if last.key == key {
        WindowAfterOwn(limit, window, before, last, hi);
      } else {
        WindowAfterOther(limit, window, before, last, key, hi);
      }
    }
  }

  lemma NothingOpen(limit: int, window: int, key: string, hi: int)
    ensures WindowFacts(limit, window, [], key, hi)
  {
  }

  lemma WindowAfterOther(limit: int, window: int, before: seq<Call>, last: Call, key: string, hi: int)
    requires WindowFacts(limit, window, before, key, hi) && last.key != key
    ensures WindowFacts(limit, window, before + [last], key, hi)
  {
    var b := Lookup(After(limit, window, before), key);
    Append(limit, window, before, last, key, b.start, hi);
    Append(limit, window, before, last, key, b.start + window, hi);
    hide After, Admits;
    CallsStay(before, last);
  }

  lemma CallsStay(before: seq<Call>, last: Call)
    ensures forall i :: 0 <= i < |before| ==> (before + [last])[i] == before[i]
    ensures (before + [last])[|before|] == last
  {
  }

  lemma WindowAfterOwn(limit: int, window: int, before: seq<Call>, last: Call, hi: int)
    requires limit > 0 && window > 0 && last.key != "" && last.now != ZERO_TIME && last.now < hi
    requires forall i :: 0 <= i < |before| && before[i].key == last.key ==> before[i].now <= last.now
    requires WindowFacts(limit, window, before, last.key, hi)
    ensures WindowFacts(limit, window, before + [last], last.key, hi)
  {
    var key := last.key;
    var known, b := key in After(limit, window, before), Lookup(After(limit, window, before), key);
    var opens := !known || last.now - b.start >= window;
    var start := if opens then last.now else b.start;
    Append(limit, window, before, last, key, start, hi);
    Append(limit, window, before, last, key, start + window, hi);
    CallsStay(before, last);
    if !known {
      NoneAdmitted(limit, window, before, key, start, hi);
      NoneAdmitted(limit, window, before, key, start + window, hi);
    } else if opens {
      AdmitsMonotone(limit, window, before, key, start, b.start + window, hi, hi);
      AdmitsMonotone(limit, window, before, key, start + window, b.start + window, hi, hi);
    }
    hide After, Admits;
  }

  lemma NoneAdmitted(limit: int, window: int, calls: seq<Call>, key: string, lo: int, hi: int)
    requires forall i :: 0 <= i < |calls| ==> calls[i].key != key
    ensures Admits(limit, window, calls, key, lo, hi) == 0
  {
  }

  // ---------------------------------------------------------------- the bound

  lemma QuotientStep(x: int, y: int, window: int)
    requires window > 0 && x + window <= y
    ensures x / window + 1 <= y / window
  {
  }

  lemma QuotientBelow(x: int, k: int, window: int)
    requires window > 0 && 0 <= x < k * window
    ensures 0 <= x / window <= k - 1
  {
    if x / window >= k {
      Times(k, x / window, window);
    }
  }

  lemma Times(a: int, b: int, c: int)
    requires a <= b && 0 <= c
    ensures a * c <= b * c
  {
  }

  /** The most that may have been admitted from lo on while the window of bucket b is current. */
  function Potential(limit: int, window: int, lo: int, b: Bucket): int
    requires window > 0
  {
    if b.start < lo then b.count - 1
    else (limit - 1) + limit * ((b.start - lo) / window) + b.count
  }

  /** Opening a window at now, once the old one has run out, leaves room for one more call. */
  lemma PotentialOpens(limit: int, window: int, lo: int, b: Bucket, now: int)
    requires limit > 0 && window > 0 && 1 <= b.count <= limit
    requires b.start + window <= now && lo <= now
    ensures Potential(limit, window, lo, b) + 1 <= Potential(limit, window, lo, Bucket(now, 1))
  {
    var q := (now - lo) / window;
    if b.start >= lo {
      var p := (b.start - lo) / window;
      QuotientStep(b.start - lo, now - lo, window);
      Times(p + 1, q, limit);
      assert (p + 1) * limit == limit * p + limit;
    } else {
      Times(0, q, limit);
    }
  }

  lemma PotentialMax(limit: int, window: int, lo: int, k: int, b: Bucket)
    requires limit > 0 && window > 0 && k >= 1 && 1 <= b.count <= limit
    requires b.start < lo + k * window
    ensures Potential(limit, window, lo, b) <= (k + 1) * limit - 1
  {
    if b.start >= lo {
      QuotientBelow(b.start - lo, k, window);
      Times((b.start - lo) / window, k - 1, limit);
      assert (k + 1) * limit == (k - 1) * limit + limit + limit;
    } else {
      Times(2, k + 1, limit);
    }
  }

  lemma PotentialIsAccount(limit: int, window: int, lo: int, k: int)
    requires limit > 0 && window > 0 && k >= 1
    ensures Account(limit, window, lo, lo + k * window, (k + 1) * limit - 1, b => Potential(limit, window, lo, b))
  {
    forall b: Bucket | 1 <= b.count <= limit && b.start < lo + k * window
      ensures Potential(limit, window, lo, b) <= (k + 1) * limit - 1
    {
      PotentialMax(limit, window, lo, k, b);
    }
    forall b: Bucket, t: int | 1 <= b.count <= limit && b.start + window <= t && lo <= t
      ensures Potential(limit, window, lo, b) + 1 <= Potential(limit, window, lo, Bucket(t, 1))
    {
      PotentialOpens(limit, window, lo, b, t);
    }
    forall t: int
      ensures Potential(limit, window, lo, Bucket(t, 1)) >= if lo <= t then 1 else 0
    {
      if lo <= t {
        Times(0, (t - lo) / window, limit);
      }
    }
  }

  lemma {:induction false} NothingFrom(limit: int, window: int, calls: seq<Call>, key: string, lo: int, hi: int)
    requires forall i :: 0 <= i < |calls| && calls[i].key == key ==> calls[i].now < lo
    ensures Admits(limit, window, calls, key, lo, hi) == 0
  {
    if calls != [] {
      var before := calls[..|calls| - 1];
      assert calls[|calls| - 1].key == key ==> calls[|calls| - 1].now < lo;
      assert forall i :: 0 <= i < |before| ==> before[i] == calls[i];
      NothingFrom(limit, window, before, key, lo, hi);
    }
  }

  /** An account of admitted calls: what a bucket may stand for, growing by one with every admission. */
  ghost predicate Account(limit: int, window: int, lo: int, hi: int, cap: int, f: Bucket -> int) {
    && (forall b: Bucket :: f(b) == f(Bucket(b.start, 1)) + b.count - 1)
    && (forall t: int :: f(Bucket(t, 1)) >= if lo <= t then 1 else 0)
    && (forall b: Bucket, t: int :: 1 <= b.count <= limit && b.start + window <= t && lo <= t
                                    ==> f(b) + 1 <= f(Bucket(t, 1)))
    && (forall b: Bucket :: 1 <= b.count <= limit && b.start < hi ==> f(b) <= cap)
  }

  /** What a run keeps about the admitted calls of a key in [lo, hi). */
  ghost predicate Bounded(limit: int, window: int, calls: seq<Call>, key: string, lo: int, hi: int, cap: int,
                          f: Bucket -> int) {
    var buckets := After(limit, window, calls);
    var n := Admits(limit, window, calls, key, lo, hi);
    && n <= cap
    && (key !in buckets ==> n == 0)
    && (key in buckets && buckets[key].start < hi ==> n <= f(buckets[key]))
  }

  lemma {:induction false} BoundHolds(limit: int, window: int, calls: seq<Call>, key: string, lo: int, hi: int,
                                      cap: int, f: Bucket -> int)
    requires limit > 0 && window > 0 && key != "" && cap >= 0
    requires InOrder(calls, key)
    requires Account(limit, window, lo, hi, cap, f)
    ensures Bounded(limit, window, calls, key, lo, hi, cap, f)
  {
    hide Bounded, Account, After, Admits;
    if calls == [] {
      NothingBounded(limit, window, key, lo, hi, cap, f);
    } else {
      var before, last := calls[..|calls| - 1], calls[|calls| - 1];
      assert before + [last] == calls;
      OrderDropsLast(before, last, key);
      hide InOrder;
      BoundHolds(limit, window, before, key, lo, hi, cap, f);
      if last.key == key {
        LastStep(limit, window, before, last, lo, hi, cap, f);
      } else {
        OtherStep(limit, window, before, last, key, lo, hi, cap, f);
      }
    }
  }

  lemma NothingBounded(limit: int, window: int, key: string, lo: int, hi: int, cap: int, f: Bucket -> int)
    requires cap >= 0
    ensures Bounded(limit, window, [], key, lo, hi, cap, f)
  {
  }

  lemma OtherStep(limit: int, window: int, before: seq<Call>, last: Call, key: string, lo: int, hi: int, cap: int,
                  f: Bucket -> int)
    requires last.key != key && Bounded(limit, window, before, key, lo, hi, cap, f)
    ensures Bounded(limit, window, before + [last], key, lo, hi, cap, f)
  {
    Append(limit, window, before, last, key, lo, hi);
    hide After, Admits;
  }

  lemma OrderDropsLast(before: seq<Call>, last: Call, key: string)
    requires InOrder(before + [last], key)
    ensures InOrder(before, key)
    ensures last.key == key ==> last.now != ZERO_TIME
    ensures last.key == key ==> forall i :: 0 <= i < |before| && before[i].key == key ==> before[i].now <= last.now
  {
    var calls := before + [last];
    assert forall i :: 0 <= i < |before| ==> before[i] == calls[i];
    assert calls[|before|] == last;
  }

  lemma LastStep(limit: int, window: int, before: seq<Call>, last: Call, lo: int, hi: int, cap: int, f: Bucket -> int)
    requires limit > 0 && window > 0 && last.key != "" && cap >= 0
    requires InOrder(before + [last], last.key)
    requires Account(limit, window, lo, hi, cap, f)
    requires Bounded(limit, window, before, last.key, lo, hi, cap, f)
    ensures Bounded(limit, window, before + [last], last.key, lo, hi, cap, f)
  {
    hide After, Admits;
    var key := last.key;
    OrderDropsLast(before, last, key);
    OpenWindow(limit, window, before, key, last.now + 1);
    Append(limit, window, before, last, key, lo, hi);
    var buckets := After(limit, window, before);
    var b := Lookup(buckets, key);
    if key !in buckets || last.now - b.start >= window {
      if last.now < lo {
        NothingFrom(limit, window, before, key, lo, hi);
      } else if key in buckets {
        assert f(b) + 1 <= f(Bucket(last.now, 1));
      }
    } else {
      assert f(Bucket(b.start, b.count + 1)) == f(b) + 1;
    }
  }

  /** In every run, whatever other keys do, any k windows of time admit at most (k+1)*limit - 1 calls of a key. */
  lemma SharpBound(limit: int, window: int, calls: seq<Call>, key: string, lo: int, k: int)
    requires limit > 0 && window > 0 && key != "" && k >= 1
    requires InOrder(calls, key)
    ensures Admits(limit, window, calls, key, lo, lo + k * window) <= (k + 1) * limit - 1
  {
    PotentialIsAccount(limit, window, lo, k);
    Times(2, k + 1, limit);
    BoundHolds(limit, window, calls, key, lo, lo + k * window, (k + 1) * limit - 1,
               b => Potential(limit, window, lo, b));
  }

  // ---------------------------------------------------------------- denials

  /** Exactly limit calls of the key were admitted in [s, now]. */
  ghost predicate FullSince(limit: int, window: int, calls: seq<Call>, key: string, s: int, now: int) {
    Admits(limit, window, calls, key, s, now + 1) == limit
  }

  lemma {:induction false} AdmitsSplit(limit: int, window: int, calls: seq<Call>, key: string, lo: int, mid: int,
                                       hi: int)
    requires lo <= mid <= hi
    ensures Admits(limit, window, calls, key, lo, hi)
            == Admits(limit, window, calls, key, lo, mid) + Admits(limit, window, calls, key, mid, hi)
  {
    if calls != [] {
      AdmitsSplit(limit, window, calls[..|calls| - 1], key, lo, mid, hi);
    }
  }

  /** Where a denial stands: s is the start of the current window, in which exactly limit calls were admitted; the rest
      of the last window's length holds what the window before admitted there. */
  ghost predicate DeniedSince(limit: int, window: int, before: seq<Call>, last: Call, s: int) {
    && last.now - window < s <= last.now
    && FullSince(limit, window, before, last.key, s, last.now)
    && Admits(limit, window, before, last.key, last.now - window + 1, last.now + 1)
       == limit + Admits(limit, window, before, last.key, last.now - window + 1, s)
  }

  /** A denied call was preceded by exactly limit admitted calls of its key since the start of the current window. The
      whole stretch (now - window, now] holds exactly limit if and only if the window before admitted none there, and
      never more than 2*limit - 1. */
  lemma DeniedOnlyWhenFull(limit: int, window: int, calls: seq<Call>)
    requires limit > 0 && window > 0 && calls != []
    requires var last := calls[|calls| - 1]; last.key != "" && InOrder(calls, last.key)
    requires !LastAdmitted(limit, window, calls)
    ensures
      var before, last := calls[..|calls| - 1], calls[|calls| - 1];
      && (exists s :: DeniedSince(limit, window, before, last, s))
      && limit <= Admits(limit, window, before, last.key, last.now - window + 1, last.now + 1) <= 2 * limit - 1
  {
    var before, last := calls[..|calls| - 1], calls[|calls| - 1];
    assert before + [last] == calls;
    OrderDropsLast(before, last, last.key);
    OpenWindow(limit, window, before, last.key, last.now + 1);
    var s := Lookup(After(limit, window, before), last.key).start;
    assert s <= last.now;
    assert FullSince(limit, window, before, last.key, s, last.now);
    hide After, Admits, InOrder, LastAdmitted, WindowFacts;
    AdmitsSplit(limit, window, before, last.key, last.now - window + 1, s, last.now + 1);
    assert DeniedSince(limit, window, before, last, s);
    SharpBound(limit, window, before, last.key, last.now - window + 1, 1);
  }

  // ---------------------------------------------------------------- keys do not interfere

  function Only(calls: seq<Call>, key: string): seq<Call> {
    if calls == [] then []
    else
      Only(calls[..|calls| - 1], key)
      + if calls[|calls| - 1].key == key then [calls[|calls| - 1]] else []
  }

  lemma StepReadsItsKey(limit: int, window: int, a: Buckets, b: Buckets, call: Call)
    requires Lookup(a, call.key) == Lookup(b, call.key)
    ensures var (okA, a') := Step(limit, window, a, call);
            var (okB, b') := Step(limit, window, b, call);
            okA == okB && Lookup(a', call.key) == Lookup(b', call.key)
  {
  }

  lemma StepLeavesOthers(limit: int, window: int, buckets: Buckets, call: Call, key: string)
    requires key != call.key
    ensures Lookup(Step(limit, window, buckets, call).1, key) == Lookup(buckets, key)
  {
  }

  /** Dropping every call of the other keys changes neither the bucket nor the answers of this key. */
  lemma {:induction false} KeysAreIndependent(limit: int, window: int, calls: seq<Call>, key: string, lo: int, hi: int)
    ensures Lookup(After(limit, window, calls), key) == Lookup(After(limit, window, Only(calls, key)), key)
    ensures Admits(limit, window, calls, key, lo, hi) == Admits(limit, window, Only(calls, key), key, lo, hi)
  {
    if calls != [] {
      var before, last := calls[..|calls| - 1], calls[|calls| - 1];
      assert before + [last] == calls;
      assert Only(calls, key) == Only(before, key) + if last.key == key then [last] else [];
      Append(limit, window, before, last, key, lo, hi);
      Append(limit, window, Only(before, key), last, key, lo, hi);
      var all, own := After(limit, window, before), After(limit, window, Only(before, key));
      hide After, Admits, Only, Step, Lookup;
      KeysAreIndependent(limit, window, before, key, lo, hi);
      if last.key == key {
        StepReadsItsKey(limit, window, all, own, last);
      } else {
        StepLeavesOthers(limit, window, all, last, key);
        assert Only(before, key) + [] == Only(before, key);
      }
    }
  }

  // ---------------------------------------------------------------- the bound is attained

  function Burst(key: string, now: int, n: nat): (r: seq<Call>)
    ensures |r| == n
  {
    seq(n, _ => Call(key, now))
  }

  lemma BurstSplit(key: string, now: int, n: nat)
    requires n > 0
    ensures Burst(key, now, n) == Burst(key, now, n - 1) + [Call(key, now)]
    ensures Burst(key, now, n) == [Call(key, now)] + Burst(key, now, n - 1)
  {
  }

  /** n calls at one instant inside the open window are all admitted while there is room. */
  lemma {:induction false} BurstFits(limit: int, window: int, calls: seq<Call>, key: string, now: int, n: nat, lo: int,
                                     hi: int)
    requires limit > 0 && window > 0 && key != "" && lo <= now < hi
    requires var b := Lookup(After(limit, window, calls), key);
             b.start != ZERO_TIME && now - b.start < window && b.count + n <= limit
    ensures var b := Lookup(After(limit, window, calls), key);
            && Lookup(After(limit, window, calls + Burst(key, now, n)), key) == Bucket(b.start, b.count + n)
            && Admits(limit, window, calls + Burst(key, now, n), key, lo, hi)
               == Admits(limit, window, calls, key, lo, hi) + n
  {
    if n == 0 {
      assert calls + Burst(key, now, 0) == calls;
    } else {
      var run := calls + Burst(key, now, n - 1);
      assert run + [Call(key, now)] == calls + Burst(key, now, n) by {
        BurstSplit(key, now, n);
      }
      hide After, Admits;
      BurstFits(limit, window, calls, key, now, n - 1, lo, hi);
      Append(limit, window, run, Call(key, now), key, lo, hi);
    }
  }

  /** A burst that starts a new window: all n of it are admitted when n <= limit. */
  lemma BurstOpens(limit: int, window: int, calls: seq<Call>, key: string, now: int, n: nat, lo: int, hi: int)
    requires limit > 0 && window > 0 && key != "" && lo <= now < hi && 1 <= n <= limit && now != ZERO_TIME
    requires now - Lookup(After(limit, window, calls), key).start >= window
    ensures Lookup(After(limit, window, calls + Burst(key, now, n)), key) == Bucket(now, n)
    ensures Admits(limit, window, calls + Burst(key, now, n), key, lo, hi)
            == Admits(limit, window, calls, key, lo, hi) + n
  {
    var first := OpenOne(limit, window, calls, key, now, lo, hi);
    BurstSplit(key, now, n);
    assert first + Burst(key, now, n - 1) == calls + Burst(key, now, n);
    BurstFits(limit, window, first, key, now, n - 1, lo, hi);
  }

  lemma OpenOne(limit: int, window: int, calls: seq<Call>, key: string, now: int, lo: int, hi: int)
    returns (first: seq<Call>)
    requires limit > 0 && window > 0 && key != "" && lo <= now < hi && now != ZERO_TIME
    requires now - Lookup(After(limit, window, calls), key).start >= window
    ensures first == calls + [Call(key, now)]
    ensures Lookup(After(limit, window, first), key) == Bucket(now, 1)
    ensures Admits(limit, window, first, key, lo, hi) == Admits(limit, window, calls, key, lo, hi) + 1
  {
    first := calls + [Call(key, now)];
    Append(limit, window, calls, Call(key, now), key, lo, hi);
  }

  /** One opener just before the interval, limit - 1 calls at its left end, then k full bursts. */
  function Tight(limit: nat, window: nat, key: string, k: nat): seq<Call>
    requires limit > 0
  {
    if k == 0 then [Call(key, 1)] + Burst(key, window, limit - 1)
    else Tight(limit, window, key, k - 1) + Burst(key, 1 + k * window, limit)
  }

  ghost predicate UpTo(calls: seq<Call>, bound: int) {
    && (forall i :: 0 <= i < |calls| ==> 1 <= calls[i].now <= bound)
    && (forall i, j :: 0 <= i < j < |calls| ==> calls[i].now <= calls[j].now)
  }

  lemma UpToExtends(calls: seq<Call>, bound: int, key: string, now: int, n: nat)
    requires UpTo(calls, bound) && 1 <= bound <= now
    ensures UpTo(calls + Burst(key, now, n), now)
  {
  }

  lemma {:induction false} TightOrder(limit: nat, window: nat, key: string, k: nat)
    requires limit > 0 && window > 0
    ensures UpTo(Tight(limit, window, key, k), window + k * window)
  {
    if k == 0 {
      UpToExtends([Call(key, 1)], 1, key, window, limit - 1);
    } else {
      TightOrder(limit, window, key, k - 1);
      assert window + (k - 1) * window == k * window;
      Times(1, k, window);
      UpToExtends(Tight(limit, window, key, k - 1), k * window, key, 1 + k * window, limit);
    }
  }

  lemma TightBase(limit: nat, window: nat, key: string, hi: int)
    requires limit > 0 && 2 <= window < hi && key != ""
    ensures var calls := [Call(key, 1)] + Burst(key, window, limit - 1);
            && Lookup(After(limit, window, calls), key) == Bucket(1, limit)
            && Admits(limit, window, calls, key, window, hi) == limit - 1
  {
    Append(limit, window, [], Call(key, 1), key, window, hi);
    var opener := [] + [Call(key, 1)];
    assert opener == [Call(key, 1)];
    BurstFits(limit, window, opener, key, window, limit - 1, window, hi);
  }

  lemma {:induction false} TightCount(limit: nat, window: nat, key: string, k: nat, hi: int)
    requires limit > 0 && 2 <= window < hi && key != "" && window + k * window <= hi
    ensures Lookup(After(limit, window, Tight(limit, window, key, k)), key) == Bucket(1 + k * window, limit)
    ensures Admits(limit, window, Tight(limit, window, key, k), key, window, hi) == limit - 1 + k * limit
  {
    if k == 0 {
      TightBase(limit, window, key, hi);
    } else {
      var now, full := 1 + k * window, k * limit;
      assert (k - 1) * window == now - 1 - window && (k - 1) * limit == full - limit;
      Times(1, k, window);
      var calls := Tight(limit, window, key, k - 1);
      assert Tight(limit, window, key, k) == calls + Burst(key, now, limit);
      TightCount(limit, window, key, k - 1, hi);
      BurstOpens(limit, window, calls, key, now, limit, window, hi);
    }
  }

  ghost predicate Attains(limit: int, window: int, calls: seq<Call>, key: string, lo: int, k: int) {
    Admits(limit, window, calls, key, lo, lo + k * window) == (k + 1) * limit - 1
  }

  /** The bound is attained for every limit, every window of at least two ticks and every k. */
  lemma BoundIsAttained(limit: nat, window: nat, key: string, k: nat)
    requires limit > 0 && window >= 2 && key != "" && k >= 1
    ensures exists calls, lo :: InOrder(calls, key) && Attains(limit, window, calls, key, lo, k)
  {
    var calls := Tight(limit, window, key, k);
    TightOrder(limit, window, key, k);
    TightCount(limit, window, key, k, window + k * window);
    assert (k + 1) * limit == k * limit + limit;
    assert Attains(limit, window, calls, key, window, k);
  }

  ghost predicate DeniedAfter(limit: int, window: int, calls: seq<Call>, admitted: int) {
    && calls != []
    && !LastAdmitted(limit, window, calls)
    && var before, last := calls[..|calls| - 1], calls[|calls| - 1];
       Admits(limit, window, before, last.key, last.now - window + 1, last.now + 1) == admitted
  }

  lemma DeniedNow(limit: int, window: int, before: seq<Call>, key: string, now: int)
    requires limit > 0 && window > 0 && key != "" && now != ZERO_TIME
    requires Lookup(After(limit, window, before), key) == Bucket(now, limit)
    ensures !LastAdmitted(limit, window, before + [Call(key, now)])
  {
    assert (before + [Call(key, now)])[..|before + [Call(key, now)]| - 1] == before;
  }

  /** One opener, limit - 1 calls at the end of its window, limit at the start of the next, and one more. */
  function Overfull(limit: nat, window: nat, key: string): seq<Call>
    requires limit > 0
  {
    [Call(key, 1)] + Burst(key, window, limit - 1) + Burst(key, 1 + window, limit)
  }

  lemma OverfullOrder(limit: nat, window: nat, key: string)
    requires limit > 0 && window >= 2
    ensures InOrder(Overfull(limit, window, key) + [Call(key, 1 + window)], key)
  {
    UpToExtends([Call(key, 1)], 1, key, window, limit - 1);
    UpToExtends([Call(key, 1)] + Burst(key, window, limit - 1), window, key, 1 + window, limit);
    UpToExtends(Overfull(limit, window, key), 1 + window, key, 1 + window, 1);
    assert Burst(key, 1 + window, 1) == [Call(key, 1 + window)];
    hide Overfull, Burst;
  }

  lemma DeniedAfterBurst(limit: nat, window: nat, opener: seq<Call>, key: string)
    requires limit > 0 && window >= 2 && key != ""
    requires Lookup(After(limit, window, opener), key) == Bucket(1, limit)
    requires Admits(limit, window, opener, key, window, window + 2) == limit - 1
    ensures var before := opener + Burst(key, 1 + window, limit);
            && !LastAdmitted(limit, window, before + [Call(key, 1 + window)])
            && Admits(limit, window, before, key, 2, window + 2) >= 2 * limit - 1
  {
    hide After, Admits, LastAdmitted, Burst, Lookup;
    var before := opener + Burst(key, 1 + window, limit);
    BurstOpens(limit, window, opener, key, 1 + window, limit, window, window + 2);
    DeniedNow(limit, window, before, key, 1 + window);
    AdmitsMonotone(limit, window, before, key, window, 2, window + 2, window + 2);
  }

  lemma OverfullCount(limit: nat, window: nat, key: string)
    requires limit > 0 && window >= 2 && key != ""
    ensures !LastAdmitted(limit, window, Overfull(limit, window, key) + [Call(key, 1 + window)])
    ensures Admits(limit, window, Overfull(limit, window, key), key, 2, window + 2) >= 2 * limit - 1
  {
    hide After, Admits, LastAdmitted, Burst, Lookup;
    TightBase(limit, window, key, window + 2);
    DeniedAfterBurst(limit, window, [Call(key, 1)] + Burst(key, window, limit - 1), key);
  }

  /** At a denial the last window's length can hold as many as 2*limit - 1 admitted calls, for every limit and
      window. */
  lemma DenialBoundIsAttained(limit: nat, window: nat, key: string)
    requires limit > 0 && window >= 2 && key != ""
    ensures exists calls :: InOrder(calls, key) && DeniedAfter(limit, window, calls, 2 * limit - 1)
  {
    var before, last := Overfull(limit, window, key), Call(key, 1 + window);
    var calls := before + [last];
    assert calls[..|calls| - 1] == before && calls[|calls| - 1] == last;
    OverfullOrder(limit, window, key);
    OverfullCount(limit, window, key);
    hide After, Admits, LastAdmitted, Overfull, InOrder;
    DeniedOnlyWhenFull(limit, window, calls);
    assert DeniedAfter(limit, window, calls, 2 * limit - 1);
  }
}
