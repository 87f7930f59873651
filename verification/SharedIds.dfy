/** What the application sees under one id, when several calls may have been reported under it. */
module SharedIds {
  import opened Types
  import opened Events
  import opened Calls
  import opened CallsInvariant

  /** Everything queued under one id. */
  function ReportsFor(queue: seq<Queued>, id: string): seq<CallInfo> {
    if queue == [] then []
    else
      var earlier := ReportsFor(queue[..|queue| - 1], id);
      var last := queue[|queue| - 1];
      if last.info.callId == id then earlier + [last.info] else earlier
  }

  // ----- Events carry the id of their call -----

  predicate About(info: CallInfo, ids: seq<string>, k: nat) {
    k < |ids| && info.callId == ids[k] && info.direction == DirectionOf(ids[k])
  }

  predicate Named(r: seq<CallInfo>, ids: seq<string>, k: nat) {
    forall i :: 0 <= i < |r| ==> About(r[i], ids, k)
  }

  /** Every event is about the call it was queued for. */
  predicate Telling(queue: seq<Queued>, ids: seq<string>) {
    forall i :: 0 <= i < |queue| ==> About(queue[i].info, ids, queue[i].source)
  }

  lemma NamedPrefix(r: seq<CallInfo>, longer: seq<CallInfo>, ids: seq<string>, k: nat)
    requires Named(longer, ids, k) && |r| <= |longer|
    requires forall i :: 0 <= i < |r| ==> r[i] == longer[i]
    ensures Named(r, ids, k)
  {
  }

  /** What was reported of a call stays reported. */
  lemma NamedBefore(queue: seq<Queued>, last: Queued, ids: seq<string>, k: nat)
    requires Named(Reports(queue + [last], k), ids, k)
    ensures Named(Reports(queue, k), ids, k)
  {
    QueueOne(queue, last, k);
    hide Named, Reports;
    NamedPrefix(Reports(queue, k), Reports(queue + [last], k), ids, k);
  }

  lemma NamedLast(queue: seq<Queued>, last: Queued, ids: seq<string>)
    requires Named(Reports(queue + [last], last.source), ids, last.source)
    ensures About(last.info, ids, last.source)
  {
    hide About;
    QueueOne(queue, last, last.source);
    var r := Reports(queue + [last], last.source);
    assert r[|r| - 1] == last.info;
  }

  lemma {:induction false} QueuedIsNamed(queue: seq<Queued>, ids: seq<string>)
    requires forall k: nat {:trigger Reports(queue, k)} :: Named(Reports(queue, k), ids, k)
    ensures Telling(queue, ids)
  {
    hide Named, About;
    if queue != [] {
      var n := |queue| - 1;
      var p, last := queue[..n], queue[n];
      assert queue == p + [last];
      forall k: nat {:trigger Reports(p, k)} ensures Named(Reports(p, k), ids, k) {
        assert Named(Reports(queue, k), ids, k);
        NamedBefore(p, last, ids, k);
      }
      assert Named(Reports(queue, last.source), ids, last.source);
      NamedLast(p, last, ids);
      QueuedIsNamed(p, ids);
      assert forall i :: 0 <= i < n ==> p[i] == queue[i];
    }
  }

  lemma StoryIsNamed(r: seq<CallInfo>, ids: seq<string>, k: nat)
    requires Story(r) && (r != [] ==> Proper(ids, k, r[|r| - 1]))
    ensures Named(r, ids, k)
  {
    StoryIsGrammar(r);
    hide Story, DirectionOf;
    if r != [] { assert r[|r| - 1].callId == r[0].callId && r[|r| - 1].direction == r[0].direction; }
  }

  /** Events carry the id and the direction of their call. */
  lemma IdsAreTold(c: Core)
    requires StoriesOk(c.log.queue) && Told(c.log.queue, c.calls, c.ids, c.left)
    ensures Telling(c.log.queue, c.ids)
  {
    hide Story, Named, Telling, Proper;
    forall k: nat {:trigger Reports(c.log.queue, k)} ensures Named(Reports(c.log.queue, k), c.ids, k) {
      var r := Reports(c.log.queue, k);
      LastOfReports(c.log.queue, k);
      if r != [] { assert Last(c.log.queue, k) == Some(r[|r| - 1]); }
      StoryIsNamed(r, c.ids, k);
    }
    QueuedIsNamed(c.log.queue, c.ids);
  }

  // ----- When it is one story -----

  /** Of two calls with the same id, one is reported after the other has ended, or starts to ring
      after the other was reported. */
  predicate Clash(queue: seq<Queued>, id: string, i: nat, j: nat) {
    && i < j < |queue|
    && queue[i].info.callId == id && queue[j].info.callId == id && queue[i].source != queue[j].source
    && (queue[i].info.state.Ended? || queue[j].info.state.Ringing?)
  }

  ghost predicate Clashes(queue: seq<Queued>, id: string) {
    exists i: nat, j: nat :: Clash(queue, id, i, j)
  }

  /** The latest event under an id, and where it is in the queue. */
  lemma {:induction false} LastUnder(queue: seq<Queued>, id: string) returns (m: nat)
    requires ReportsFor(queue, id) != []
    ensures m < |queue| && queue[m].info.callId == id
    ensures queue[m].info == ReportsFor(queue, id)[|ReportsFor(queue, id)| - 1]
    ensures forall i :: m < i < |queue| ==> queue[i].info.callId != id
  {
    m := |queue| - 1;
    if queue[m].info.callId != id { m := LastUnder(queue[..m], id); }
  }

  lemma {:induction false} NoneUnder(queue: seq<Queued>, id: string)
    requires ReportsFor(queue, id) == []
    ensures forall i :: 0 <= i < |queue| ==> queue[i].info.callId != id
  {
    if queue != [] { NoneUnder(queue[..|queue| - 1], id); }
  }

  /** Whatever was reported under an id is in the queue. */
  lemma {:induction false} UnderIsQueued(queue: seq<Queued>, id: string, i: nat)
    requires i < |queue| && queue[i].info.callId == id
    ensures queue[i].info in ReportsFor(queue, id)
  {
    var n := |queue| - 1;
    if i < n { UnderIsQueued(queue[..n], id, i); }
  }

  /** The latest event of a call, and where it is in the queue. */
  lemma {:induction false} LastIsQueued(queue: seq<Queued>, k: nat) returns (m: nat)
    requires Last(queue, k).Some?
    ensures m < |queue| && queue[m].source == k && queue[m].info == Last(queue, k).value
    ensures forall i :: m < i < |queue| ==> queue[i].source != k
  {
    m := |queue| - 1;
    if queue[m].source != k { m := LastIsQueued(queue[..m], k); }
  }

  lemma {:induction false} LastIsLatest(queue: seq<Queued>, m: nat)
    requires m < |queue| && forall i :: m < i < |queue| ==> queue[i].source != queue[m].source
    ensures Last(queue, queue[m].source) == Some(queue[m].info)
  {
    var n := |queue| - 1;
    if m < n { LastIsLatest(queue[..n], m); }
  }

  function LastOf(r: seq<CallInfo>): Option<CallInfo> {
    if r == [] then None else Some(r[|r| - 1])
  }

  lemma StoryNext(r: seq<CallInfo>, x: CallInfo)
    ensures Story(r + [x]) <==> Story(r) && Follows(LastOf(r), x)
  {
    assert (r + [x])[..|r|] == r;
    if r != [] { assert (r + [x])[|r| - 1] == r[|r| - 1]; }
  }

  lemma UnderNext(queue: seq<Queued>, e: Queued, id: string)
    ensures ReportsFor(queue + [e], id) ==
            if e.info.callId == id then ReportsFor(queue, id) + [e.info] else ReportsFor(queue, id)
  {
    assert (queue + [e])[..|queue|] == queue;
  }

  lemma ClashStays(queue: seq<Queued>, e: Queued, id: string)
    ensures Clashes(queue, id) ==> Clashes(queue + [e], id)
    ensures e.info.callId != id && Clashes(queue + [e], id) ==> Clashes(queue, id)
  {
    if Clashes(queue, id) {
      var i: nat, j: nat :| Clash(queue, id, i, j);
      assert Clash(queue + [e], id, i, j);
    }
    if e.info.callId != id && Clashes(queue + [e], id) {
      var i: nat, j: nat :| Clash(queue + [e], id, i, j);
      assert Clash(queue, id, i, j);
    }
  }

  /** An event that clashes with an earlier one breaks the story. */
  lemma ClashingBreaks(queue: seq<Queued>, e: Queued, id: string, i: nat)
    requires Story(ReportsFor(queue, id)) && Clash(queue + [e], id, i, |queue|)
    ensures !Follows(LastOf(ReportsFor(queue, id)), e.info)
  {
    var r := ReportsFor(queue, id);
    UnderIsQueued(queue, id, i);
    StoryIsGrammar(r);
    hide Story;
    var n :| 0 <= n < |r| && r[n] == queue[i].info;
  }

  /** An event that follows its own call's and clashes with no other one continues the story. */
  lemma UnclashingFollows(queue: seq<Queued>, e: Queued, ids: seq<string>, id: string)
    requires Telling(queue + [e], ids) && e.info.callId == id && Follows(Last(queue, e.source), e.info)
    requires !Clashes(queue + [e], id)
    ensures Follows(LastOf(ReportsFor(queue, id)), e.info)
  {
    var longer := queue + [e];
    if ReportsFor(queue, id) == [] {
      if Last(queue, e.source).Some? { var m := OwnIsUnder(queue, e, ids, id); NoneUnder(queue, id); }
    } else {
      var m := LastUnder(queue, id);
      SameId(longer, ids, m, |queue|);
      if queue[m].source == e.source {
        forall i | m < i < |queue| ensures queue[i].source != e.source {
          assert longer[i] == queue[i];
          SameId(longer, ids, i, |queue|);
        }
        LastIsLatest(queue, m);
      } else {
        assert !Clash(longer, id, m, |queue|);
        if Last(queue, e.source).Some? {
          var n := OwnIsUnder(queue, e, ids, id);
          assert n < m && !Clash(longer, id, n, m);
        }
      }
    }
  }

  lemma OwnIsUnder(queue: seq<Queued>, e: Queued, ids: seq<string>, id: string) returns (n: nat)
    requires Telling(queue + [e], ids) && e.info.callId == id && Last(queue, e.source).Some?
    ensures n < |queue| && queue[n].source == e.source && queue[n].info.callId == id
  {
    n := LastIsQueued(queue, e.source);
    SameId(queue + [e], ids, n, |queue|);
  }

  lemma SameId(queue: seq<Queued>, ids: seq<string>, i: nat, j: nat)
    requires Telling(queue, ids) && i < |queue| && j < |queue|
    ensures queue[i].source == queue[j].source ==> queue[i].info.callId == queue[j].info.callId
    ensures queue[i].info.callId == queue[j].info.callId ==> queue[i].info.direction == queue[j].info.direction
  {
  }

  /** What the application sees under one id is one grammatical story exactly when no two calls clash. */
  lemma {:induction false} OneStoryIff(queue: seq<Queued>, ids: seq<string>, id: string)
    requires StoriesOk(queue) && Telling(queue, ids)
    ensures Grammar(ReportsFor(queue, id)) <==> !Clashes(queue, id)
  {
    StoryIsGrammar(ReportsFor(queue, id));
    assert Story([]);
    hide Story, Grammar, Telling, Follows;
    if queue != [] {
      var p, e := queue[..|queue| - 1], queue[|queue| - 1];
      assert queue == p + [e];
      OneLess(p, e, ids);
      OneStoryIff(p, ids, id);
      StoryIsGrammar(ReportsFor(p, id));
      ClashStays(p, e, id);
      UnderNext(p, e, id);
      if e.info.callId == id {
        StoryNext(ReportsFor(p, id), e.info);
        if !Clashes(queue, id) { UnclashingFollows(p, e, ids, id); }
        else if !Clashes(p, id) {
          var i: nat, j: nat :| Clash(queue, id, i, j);
          assert j < |p| ==> Clash(p, id, i, j);
          ClashingBreaks(p, e, id, i);
        }
      }
    }
  }

  lemma TellingPrefix(queue: seq<Queued>, longer: seq<Queued>, ids: seq<string>)
    requires Telling(longer, ids) && queue <= longer
    ensures Telling(queue, ids)
  {
    hide About;
    assert forall i :: 0 <= i < |queue| ==> queue[i] == longer[i];
  }

  lemma NextFollows(queue: seq<Queued>, e: Queued, k: nat)
    requires StoriesOk(queue + [e])
    ensures Story(Reports(queue, k)) && (k == e.source ==> Follows(Last(queue, k), e.info))
  {
    hide Follows;
    QueueOne(queue, e, k);
    assert Story(Reports(queue + [e], k));
    LastOfReports(queue, k);
    StoryNext(Reports(queue, k), e.info);
  }

  lemma OneLess(queue: seq<Queued>, e: Queued, ids: seq<string>)
    requires StoriesOk(queue + [e]) && Telling(queue + [e], ids)
    ensures StoriesOk(queue) && Telling(queue, ids) && Follows(Last(queue, e.source), e.info)
  {
    var longer := queue + [e];
    hide About, Follows;
    forall k: nat ensures Story(Reports(queue, k)) { NextFollows(queue, e, k); }
    NextFollows(queue, e, e.source);
    TellingPrefix(queue, longer, ids);
  }
}
