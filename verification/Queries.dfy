/** What the engine answers about its live calls does not depend on the order in which its maps are
    walked. */
module Queries {
  import opened Types
  import opened Calls
  import opened CallsInvariant

  /** A live call with its place in the creation order. */
  datatype Live = Live(seqNo: nat, info: CallInfo)

  ghost predicate IsLive(c: Core, x: Live) {
    || (exists id :: id in c.calls && x == Live(c.calls[id].seqNo, c.calls[id].info))
    || (exists id :: id in c.ringing && x == Live(c.ringing[id].seqNo, c.ringing[id].info))
  }

  predicate Ascending(live: seq<Live>) {
    forall i, j :: 0 <= i < j < |live| ==> live[i].seqNo < live[j].seqNo
  }

  /** No two entries share their place. */
  predicate Distinct(live: seq<Live>) {
    forall i, j :: 0 <= i < j < |live| ==> live[i].seqNo != live[j].seqNo
  }

  lemma LastIsGreatest(a: seq<Live>, x: Live)
    requires Ascending(a) && x in a
    ensures x.seqNo <= a[|a| - 1].seqNo
    ensures x.seqNo == a[|a| - 1].seqNo ==> x == a[|a| - 1]
    ensures x in a[..|a| - 1] <==> x != a[|a| - 1]
  {
    var i :| 0 <= i < |a| && a[i] == x;
    if i < |a| - 1 { assert a[..|a| - 1][i] == x; }
  }

  ghost predicate SameElements(a: seq<Live>, b: seq<Live>) {
    forall x :: x in a <==> x in b
  }

  lemma SameLast(a: seq<Live>, b: seq<Live>)
    requires Ascending(a) && Ascending(b) && SameElements(a, b) && a != [] && b != []
    ensures a[|a| - 1] == b[|b| - 1]
    ensures SameElements(a[..|a| - 1], b[..|b| - 1])
  {
    var p, q := a[|a| - 1], b[|b| - 1];
    assert p in a && q in b;
    LastIsGreatest(a, q);
    LastIsGreatest(b, p);
    var before, before' := a[..|a| - 1], b[..|b| - 1];
    forall x ensures x in before <==> x in before' {
      if x in a { LastIsGreatest(a, x); LastIsGreatest(b, x); }
    }
  }

  /** An ascending list is determined by what it holds. */
  lemma {:induction false} AscendingIsUnique(a: seq<Live>, b: seq<Live>)
    requires Ascending(a) && Ascending(b) && SameElements(a, b)
    ensures a == b
  {
    assert a != [] ==> a[0] in a && a[0] in b;
    assert b != [] ==> b[0] in b && b[0] in a;
    if a != [] && b != [] {
      SameLast(a, b);
      hide SameElements;
      AscendingIsUnique(a[..|a| - 1], b[..|b| - 1]);
      assert a == a[..|a| - 1] + [a[|a| - 1]] && b == b[..|b| - 1] + [b[|b| - 1]];
    }
  }

  /** Insertion into an ascending list. */
  method Insert(sorted: seq<Live>, x: Live) returns (r: seq<Live>)
    requires Ascending(sorted) && forall y :: y in sorted ==> y.seqNo != x.seqNo
    ensures Ascending(r) && forall y :: y in r <==> y in sorted || y == x
  {
    var i := |sorted|;
    while i > 0 && x.seqNo < sorted[i - 1].seqNo
      invariant 0 <= i <= |sorted|
      invariant forall j :: i <= j < |sorted| ==> x.seqNo < sorted[j].seqNo
    {
      i := i - 1;
    }
    r := sorted[..i] + [x] + sorted[i..];
  }

  /** `sort_by_key` on the creation order */
  method Sort(live: seq<Live>) returns (r: seq<Live>)
    requires Distinct(live)
    ensures Ascending(r) && forall x :: x in r <==> x in live
  {
    r := [];
    for i := 0 to |live|
      invariant Ascending(r) && forall x :: x in r <==> x in live[..i]
    {
      assert live[..i + 1] == live[..i] + [live[i]];
      r := Insert(r, live[i]);
    }
    assert live[..|live|] == live;
  }

  // ----- Collecting the live calls -----

  /** `live` are the entries, in any order, of the calls that have been walked over. */
  ghost predicate Collected(entries: map<string, Live>, todo: set<string>, live: seq<Live>) {
    && Distinct(live)
    && forall x :: x in live <==> exists id :: id in entries && id !in todo && entries[id] == x
  }

  ghost predicate Apart(entries: map<string, Live>) {
    forall i, j :: i in entries && j in entries && i != j ==> entries[i].seqNo != entries[j].seqNo
  }

  lemma CollectStep(entries: map<string, Live>, todo: set<string>, live: seq<Live>, id: string)
    requires Collected(entries, todo, live) && Apart(entries) && id in todo && id in entries
    ensures Collected(entries, todo - {id}, live + [entries[id]])
  {
    var x := entries[id];
    forall i | 0 <= i < |live| ensures live[i].seqNo != x.seqNo {
      assert live[i] in live;
      var j :| j in entries && j !in todo && entries[j] == live[i];
    }
    forall y ensures y in live + [x] <==> exists j :: j in entries && j !in todo - {id} && entries[j] == y {
      if y in live {
        var j :| j in entries && j !in todo && entries[j] == y;
      }
    }
  }

  function ConnectedOnes(calls: map<string, Active>): map<string, Live> {
    map id | id in calls :: Live(calls[id].seqNo, calls[id].info)
  }

  function RingingOnes(ringing: map<string, Pending>): map<string, Live> {
    map id | id in ringing :: Live(ringing[id].seqNo, ringing[id].info)
  }

  lemma EntriesApart(c: Core)
    requires OrderOk(c.calls, c.ringing)
    ensures Apart(ConnectedOnes(c.calls)) && Apart(RingingOnes(c.ringing))
  {
  }

  lemma NoneCollected(entries: map<string, Live>)
    ensures Collected(entries, entries.Keys, [])
  {
  }

  lemma EntriesAreLive(c: Core, connected: seq<Live>, ringing: seq<Live>)
    requires OrderOk(c.calls, c.ringing)
    requires Collected(ConnectedOnes(c.calls), {}, connected) && Collected(RingingOnes(c.ringing), {}, ringing)
    ensures Distinct(connected + ringing) && forall x :: x in connected + ringing <==> IsLive(c, x)
  {
    var cs, rs := ConnectedOnes(c.calls), RingingOnes(c.ringing);
    forall x ensures x in connected <==> exists id :: id in c.calls && x == Live(c.calls[id].seqNo, c.calls[id].info) {
      if x in connected { var id :| id in cs && cs[id] == x; }
      if exists id :: id in c.calls && x == Live(c.calls[id].seqNo, c.calls[id].info) {
        var id :| id in c.calls && x == Live(c.calls[id].seqNo, c.calls[id].info);
        assert id in cs && cs[id] == x;
      }
    }
    forall x
      ensures x in ringing <==> exists id :: id in c.ringing && x == Live(c.ringing[id].seqNo, c.ringing[id].info)
    {
      if x in ringing { var id :| id in rs && rs[id] == x; }
      if exists id :: id in c.ringing && x == Live(c.ringing[id].seqNo, c.ringing[id].info) {
        var id :| id in c.ringing && x == Live(c.ringing[id].seqNo, c.ringing[id].info);
        assert id in rs && rs[id] == x;
      }
    }
    forall i, j | 0 <= i < |connected| && 0 <= j < |ringing| ensures connected[i].seqNo != ringing[j].seqNo {
      assert connected[i] in connected && ringing[j] in ringing;
    }
  }

  // ----- The answers -----

  function Infos(live: seq<Live>): seq<CallInfo> {
    if live == [] then [] else Infos(live[..|live| - 1]) + [live[|live| - 1].info]
  }

  /** The connected call that is off hold, if there is one, or else the live call created last. */
  ghost predicate IsActive(c: Core, info: Option<CallInfo>) {
    if exists id :: id in c.calls && !c.calls[id].info.onHold then
      exists id :: id in c.calls && !c.calls[id].info.onHold && info == Some(c.calls[id].info)
    else match info
      case None => forall x :: !IsLive(c, x)
      case Some(i) => exists n: nat :: IsLive(c, Live(n, i)) && forall x :: IsLive(c, x) ==> x.seqNo <= n
  }

  /** `get_calls` has one answer: connected and ringing calls, oldest first. */
  lemma CallsAreDetermined(c: Core, a: seq<Live>, b: seq<Live>)
    requires Ascending(a) && (forall x :: x in a <==> IsLive(c, x))
    requires Ascending(b) && (forall x :: x in b <==> IsLive(c, x))
    ensures Infos(a) == Infos(b)
  {
    AscendingIsUnique(a, b);
  }

  /** `get_active_call` has one answer. */
  lemma ActiveIsDetermined(c: Core, a: Option<CallInfo>, b: Option<CallInfo>)
    requires OrderOk(c.calls, c.ringing) && AtMostOneOffHold(c.calls) && IsActive(c, a) && IsActive(c, b)
    ensures a == b
  {
    if exists id :: id in c.calls && !c.calls[id].info.onHold {
      assert forall id :: id in c.calls && !c.calls[id].info.onHold ==> id in OffHold(c.calls);
    } else if a.Some? && b.Some? {
      var n: nat :| IsLive(c, Live(n, a.value)) && forall x :: IsLive(c, x) ==> x.seqNo <= n;
      assert IsLive(c, Live(n, b.value));
    }
  }
}
