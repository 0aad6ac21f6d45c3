/** The status condition list that all three controllers keep through `setCondition`. */
module Conditions {

  datatype Status = True | False | Unknown

  datatype Condition = Condition(
    kind: string,
    status: Status,
    observedGeneration: nat,
    reason: string,
    message: string,
    lastTransition: int)

  /** Position of the first condition of a type, or the length of the list. */
  function IndexOf(cs: seq<Condition>, kind: string): (i: nat)
    ensures i <= |cs|
    ensures i < |cs| ==> cs[i].kind == kind
    ensures forall j :: 0 <= j < i ==> cs[j].kind != kind
  {
    if cs == [] || cs[0].kind == kind then 0 else 1 + IndexOf(cs[1..], kind)
  }

  /** The list after one call of setCondition at time `now`. */
  function Put(cs: seq<Condition>, c: Condition, now: int): seq<Condition> {
    var i := IndexOf(cs, c.kind);
    if i == |cs| then
      cs + [c.(lastTransition := now)]
    else
      cs[i := c.(lastTransition := if cs[i].status != c.status then now else cs[i].lastTransition)]
  }

  /** A condition list that lives behind a pointer and is updated in place. */
  class ConditionList {
    var items: seq<Condition>

    constructor (initial: seq<Condition>)
      ensures items == initial
    {
      items := initial;
    }

    method SetCondition(condition: Condition, now: int)
      modifies this
      ensures items == Put(old(items), condition, now)
    {
      var i := 0;
      while i < |items|
        invariant 0 <= i <= |items|
        invariant items == old(items)
        invariant forall j :: 0 <= j < i ==> items[j].kind != condition.kind
      {
        var c := items[i];
        if c.kind == condition.kind {
          assert IndexOf(items, condition.kind) == i;
          if c.status != condition.status {
            items := items[i := condition.(lastTransition := now)];
          } else {
            items := items[i := condition.(lastTransition := c.lastTransition)];
          }
          return;
        }
        i := i + 1;
      }
      items := items + [condition.(lastTransition := now)];
    }
  }

  // ---- setCondition refines the update of a map keyed by type ----

  ghost predicate UniqueKinds(cs: seq<Condition>) {
    forall i, j :: 0 <= i < j < |cs| ==> cs[i].kind != cs[j].kind
  }

  /** The entry that readers of the list see for a type. */
  function Lookup(cs: seq<Condition>, kind: string): map<string, Condition> {
    var i := IndexOf(cs, kind);
    if i == |cs| then map[] else map[kind := cs[i]]
  }

  lemma IndexIs(cs: seq<Condition>, kind: string, i: nat)
    requires i < |cs| && cs[i].kind == kind
    requires forall j :: 0 <= j < i ==> cs[j].kind != kind
    ensures IndexOf(cs, kind) == i
  {
  }

  /** Every other type keeps its entry, its position and the order of the list. */
  lemma PutFrame(cs: seq<Condition>, c: Condition, now: int, kind: string)
    requires kind != c.kind
    ensures Lookup(Put(cs, c, now), kind) == Lookup(cs, kind)
    ensures IndexOf(cs, kind) < |cs| ==> IndexOf(Put(cs, c, now), kind) == IndexOf(cs, kind)
  {
    var i := IndexOf(cs, kind);
    var ds := Put(cs, c, now);
    assert forall j :: 0 <= j < |cs| ==> (ds[j].kind == cs[j].kind);
    if i < |cs| {
      IndexIs(ds, kind, i);
    } else {
      assert forall j :: 0 <= j < |ds| ==> ds[j].kind != kind;
    }
  }

  lemma PutRefinesMapUpdate(cs: seq<Condition>, c: Condition, now: int)
    ensures var ds := Put(cs, c, now);
            var absent := IndexOf(cs, c.kind) == |cs|;
            && (UniqueKinds(cs) ==> UniqueKinds(ds))
            && |ds| == |cs| + (if absent then 1 else 0)
            && (forall j :: 0 <= j < |cs| && j != IndexOf(cs, c.kind) ==> ds[j] == cs[j])
            && (forall kind :: kind != c.kind ==> Lookup(ds, kind) == Lookup(cs, kind))
            && IndexOf(ds, c.kind) == IndexOf(cs, c.kind)
            && ds[IndexOf(cs, c.kind)].(lastTransition := 0) == c.(lastTransition := 0)
  {
    var ds := Put(cs, c, now);
    forall kind | kind != c.kind ensures Lookup(ds, kind) == Lookup(cs, kind) {
      PutFrame(cs, c, now, kind);
    }
    IndexIs(ds, c.kind, IndexOf(cs, c.kind));
  }

  /** The entry for c's type already says what c says. */
  predicate Holds(cs: seq<Condition>, c: Condition) {
    var i := IndexOf(cs, c.kind);
    i < |cs| && cs[i].(lastTransition := 0) == c.(lastTransition := 0)
  }

  lemma PutMakesHold(cs: seq<Condition>, c: Condition, now: int)
    ensures Holds(Put(cs, c, now), c)
  {
    PutRefinesMapUpdate(cs, c, now);
  }

  lemma PutKeepsOthers(cs: seq<Condition>, c: Condition, now: int, d: Condition)
    requires c.kind != d.kind
    ensures Holds(Put(cs, c, now), d) == Holds(cs, d)
  {
    PutFrame(cs, c, now, d.kind);
  }

  /** Repeating a call changes nothing, whatever the clock says: reconciling twice settles. */
  lemma PutIsIdentityWhenHolding(cs: seq<Condition>, c: Condition, now: int)
    requires Holds(cs, c)
    ensures Put(cs, c, now) == cs
  {
    var i := IndexOf(cs, c.kind);
    assert cs[i].(lastTransition := 0).lastTransition == 0;
    assert c.(lastTransition := cs[i].lastTransition) == cs[i] by {
      assert cs[i].(lastTransition := 0).status == c.(lastTransition := 0).status;
    }
  }

  // ---- the meaning of lastTransition over a whole history of calls ----

  datatype Call = Call(condition: Condition, now: int)

  /** The list after a sequence of calls that started from the empty list. */
  function After(calls: seq<Call>): seq<Condition> {
    if calls == [] then []
    else
      var last := calls[|calls| - 1];
      Put(After(calls[..|calls| - 1]), last.condition, last.now)
  }

  /** calls[j] is the latest call for its type. */
  ghost predicate LatestCall(calls: seq<Call>, kind: string, j: nat) {
    && j < |calls|
    && calls[j].condition.kind == kind
    && (forall i :: j < i < |calls| ==> calls[i].condition.kind != kind)
  }

  /** calls[j] opens the longest run of calls for its type, up to the latest, that agree on the status. */
  ghost predicate StreakStart(calls: seq<Call>, kind: string, j: nat) {
    && j < |calls|
    && calls[j].condition.kind == kind
    && (forall i :: j < i < |calls| && calls[i].condition.kind == kind ==> calls[i].condition.status == calls[j].condition.status)
    && (forall p :: 0 <= p < j && LatestCall(calls[..j], kind, p) ==> calls[p].condition.status != calls[j].condition.status)
  }

  /** A type is in the list exactly when some call named it. */
  lemma {:induction false} AbsentUntilCalled(calls: seq<Call>, kind: string)
    ensures IndexOf(After(calls), kind) == |After(calls)| <==> (forall i :: 0 <= i < |calls| ==> calls[i].condition.kind != kind)
    ensures UniqueKinds(After(calls))
  {
    if calls != [] {
      var before := calls[..|calls| - 1];
      var last := calls[|calls| - 1];
      AbsentUntilCalled(before, kind);
      PutRefinesMapUpdate(After(before), last.condition, last.now);
      if kind != last.condition.kind {
        PutFrame(After(before), last.condition, last.now, kind);
      }
      assert forall i :: 0 <= i < |before| ==> calls[i] == before[i];
    }
  }

  /** The entry of a type after one more call that names it. */
  lemma EntryAfterCall(cs: seq<Condition>, c: Condition, now: int)
    ensures var ds, i := Put(cs, c, now), IndexOf(cs, c.kind);
            && IndexOf(ds, c.kind) == i < |ds|
            && ds[i] == c.(lastTransition := if i < |cs| && cs[i].status == c.status then cs[i].lastTransition else now)
  {
    IndexIs(Put(cs, c, now), c.kind, IndexOf(cs, c.kind));
  }

  /** The entry of a type says what its latest call said, dated by the call that opened the streak. */
  ghost predicate EntrySays(cs: seq<Condition>, kind: string, latest: Call, start: Call) {
    && IndexOf(cs, kind) < |cs|
    && cs[IndexOf(cs, kind)] == latest.condition.(lastTransition := start.now)
  }

  /** A streak that opened before the last call was a streak already. */
  lemma StreakShrinks(calls: seq<Call>, kind: string, start: nat)
    requires StreakStart(calls, kind, start) && start < |calls| - 1
    ensures StreakStart(calls[..|calls| - 1], kind, start)
  {
    var before := calls[..|calls| - 1];
    assert before[..start] == calls[..start];
  }

  lemma LatestShrinks(calls: seq<Call>, kind: string, latest: nat)
    requires LatestCall(calls, kind, latest) && latest < |calls| - 1
    ensures LatestCall(calls[..|calls| - 1], kind, latest)
  {
  }

  /** All calls of a streak agree on the status. */
  lemma StreakStatus(calls: seq<Call>, kind: string, latest: nat, start: nat)
    requires StreakStart(calls, kind, start) && LatestCall(calls, kind, latest)
    ensures calls[latest].condition.status == calls[start].condition.status
  {
  }

  /** All fields but the time are those of the latest call; the time is that of the call that opened its status streak. */
  lemma {:induction false} ConditionHistory(calls: seq<Call>, kind: string, latest: nat, start: nat)
    requires LatestCall(calls, kind, latest)
    requires StreakStart(calls, kind, start)
    ensures EntrySays(After(calls), kind, calls[latest], calls[start])
    decreases |calls|, 1
  {
    var n := |calls| - 1;
    var before, last := calls[..n], calls[n];
    var cs := After(before);
    if last.condition.kind != kind {
      LatestShrinks(calls, kind, latest);
      StreakShrinks(calls, kind, start);
      ConditionHistory(before, kind, latest, start);
      PutFrame(cs, last.condition, last.now, kind);
    } else {
      EntryAfterCall(cs, last.condition, last.now);
      if start < n {
        StreakShrinks(calls, kind, start);
        assert before[start].condition.kind == kind;
        var p := LatestExists(before, kind);
        StreakStatus(before, kind, p, start);
        ConditionHistory(before, kind, p, start);
      } else {
        NewStreak(calls, kind);
      }
    }
  }

  /** A call that opens a streak finds no entry or one with another status. */
  lemma {:induction false} NewStreak(calls: seq<Call>, kind: string)
    requires |calls| > 0 && StreakStart(calls, kind, |calls| - 1)
    ensures var cs := After(calls[..|calls| - 1]);
            IndexOf(cs, kind) < |cs| ==> cs[IndexOf(cs, kind)].status != calls[|calls| - 1].condition.status
    decreases |calls|, 0
  {
    var before := calls[..|calls| - 1];
    var cs := After(before);
    AbsentUntilCalled(before, kind);
    if IndexOf(cs, kind) < |cs| {
      var p := LatestExists(before, kind);
      var q := StreakExists(before, kind);
      ConditionHistory(before, kind, p, q);
    }
  }

  lemma {:induction false} LatestExists(calls: seq<Call>, kind: string) returns (j: nat)
    requires exists i :: 0 <= i < |calls| && calls[i].condition.kind == kind
    ensures LatestCall(calls, kind, j)
  {
    if calls[|calls| - 1].condition.kind == kind {
      j := |calls| - 1;
    } else {
      assert calls[..|calls| - 1] + [calls[|calls| - 1]] == calls;
      j := LatestExists(calls[..|calls| - 1], kind);
    }
  }

  lemma {:induction false} StreakExists(calls: seq<Call>, kind: string) returns (j: nat)
    requires exists i :: 0 <= i < |calls| && calls[i].condition.kind == kind
    ensures StreakStart(calls, kind, j)
  {
    var n := |calls| - 1;
    var before := calls[..n];
    if calls[n].condition.kind != kind {
      assert before + [calls[n]] == calls;
      j := StreakExists(before, kind);
      assert before[..j] == calls[..j];
    } else if p :| 0 <= p < n && LatestCall(before, kind, p) && calls[p].condition.status == calls[n].condition.status {
      j := StreakExists(before, kind);
      assert before[..j] == calls[..j];
      assert calls[j].condition.status == calls[p].condition.status;
    } else {
      j := n;
    }
  }
}
