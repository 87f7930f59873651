/** One lemma for each part of the world's invariant and each way a step touches it. */
module Frames {
  import opened Types
  import opened Events
  import opened Calls
  import opened CallsInvariant
  import opened World
  import opened WorldInvariant
  import Outgoing

  lemma SizeWithout<V>(m: map<string, V>, id: string)
    requires id in m
    ensures |m - {id}| == |m| - 1
  {
    assert (m - {id}).Keys == m.Keys - {id};
    assert |m.Keys - {id}| == |m.Keys| - 1;
  }

  lemma SizeWith<V>(m: map<string, V>, id: string, v: V)
    ensures |m[id := v]| == if id in m then |m| else |m| + 1
  {
    assert m[id := v].Keys == m.Keys + {id};
  }

  lemma SizeSameKeys<V>(m: map<string, V>, m': map<string, V>)
    requires m'.Keys == m.Keys
    ensures |m'| == |m|
  {
    assert |m'.Keys| == |m.Keys|;
  }

  // ----- Attempts -----

  lemma AttemptsUpdate(attempts: Attempts, ids: seq<string>, k: nat, a': Outgoing.Attempt)
    requires AttemptsOk(attempts, ids) && k in attempts && Outgoing.AttemptOk(a')
    ensures AttemptsOk(attempts[k := a'], ids)
  {
  }

  lemma AttemptsGrow(attempts: Attempts, ids: seq<string>, id: string)
    requires AttemptsOk(attempts, ids)
    ensures AttemptsOk(attempts, ids + [id])
  {
  }

  lemma OneDialUpdate(attempts: Attempts, ids: seq<string>, k: nat, a': Outgoing.Attempt)
    requires OneDial(attempts, ids) && k in attempts
    requires attempts[k].dial.Returned? ==> a'.dial.Returned?
    ensures OneDial(attempts[k := a'], ids)
  {
  }

  lemma OneDialGrow(attempts: Attempts, ids: seq<string>, id: string)
    requires OneDial(attempts, ids) && AttemptsOk(attempts, ids)
    ensures OneDial(attempts, ids + [id])
  {
  }

  lemma OneDialAdd(attempts: Attempts, ids: seq<string>, id: string)
    requires OneDial(attempts, ids) && AttemptsOk(attempts, ids)
    requires forall k :: k in attempts && ids[k] == id ==> attempts[k].dial.Returned?
    ensures OneDial(attempts[|ids| := Outgoing.FRESH], ids + [id])
  {
  }

  /** The attempt's call stays where it is. */
  predicate Stays(a: Outgoing.Attempt, a': Outgoing.Attempt) {
    && (a'.place.InRinging? <==> a.place.InRinging?)
    && (a'.place.InCalls? <==> a.place.InCalls?)
    && a'.dialing == a.dialing
    && (a.request.Done? ==> a'.request == a.request)
  }

  lemma PlacesUpdate(attempts: Attempts, ringing: map<string, Pending>, calls: map<string, Active>, ids: seq<string>,
                     k: nat, a': Outgoing.Attempt)
    requires PlacesOk(attempts, ringing, calls, ids) && k in attempts && Stays(attempts[k], a')
    ensures PlacesOk(attempts[k := a'], ringing, calls, ids)
  {
  }

  lemma PlacesGrow(attempts: Attempts, ringing: map<string, Pending>, calls: map<string, Active>, ids: seq<string>,
                   id: string)
    requires PlacesOk(attempts, ringing, calls, ids) && AttemptsOk(attempts, ids)
    ensures PlacesOk(attempts, ringing, calls, ids + [id])
  {
    assert forall k :: k in attempts ==> (ids + [id])[k] == ids[k];
  }

  lemma PlacesRing(attempts: Attempts, ringing: map<string, Pending>, calls: map<string, Active>, ids: seq<string>,
                   id: string, p: Pending)
    requires PlacesOk(attempts, ringing, calls, ids) && AttemptsOk(attempts, ids)
    requires id !in ringing && p.source == |ids| && !p.dialing
    requires forall i :: i in calls ==> calls[i].source != |ids|
    ensures PlacesOk(attempts[|ids| := Outgoing.FRESH], ringing[id := p], calls, ids + [id])
  {
    var ids' := ids + [id];
    assert forall k :: k in attempts ==> k < |ids| && ids'[k] == ids[k];
    assert ids'[|ids|] == id;
    assert forall k :: k in attempts ==> (Rings(ringing[id := p], ids', k) <==> Rings(ringing, ids, k));
  }

  /** Entries are filed under the id their call reports. */
  predicate OwnIds(calls: map<string, Active>, ringing: map<string, Pending>, ids: seq<string>) {
    && (forall i :: i in calls ==> calls[i].source < |ids| && ids[calls[i].source] == i)
    && (forall i :: i in ringing ==> ringing[i].source < |ids| && ids[ringing[i].source] == i)
  }

  lemma PlacesUnring(attempts: Attempts, ringing: map<string, Pending>, calls: map<string, Active>, ids: seq<string>,
                     k: nat, a': Outgoing.Attempt)
    requires PlacesOk(attempts, ringing, calls, ids) && k in attempts && Rings(ringing, ids, k)
    requires OwnIds(calls, ringing, ids)
    requires !a'.place.InRinging? && !a'.place.InCalls?
    ensures PlacesOk(attempts[k := a'], ringing - {ids[k]}, calls, ids)
  {
    var ringing' := ringing - {ids[k]};
    assert forall j :: j in attempts && j != k ==> (Rings(ringing', ids, j) <==> Rings(ringing, ids, j));
  }

  lemma PlacesMark(attempts: Attempts, ringing: map<string, Pending>, calls: map<string, Active>, ids: seq<string>,
                   k: nat, a': Outgoing.Attempt)
    requires PlacesOk(attempts, ringing, calls, ids) && k in attempts && Rings(ringing, ids, k)
    requires OwnIds(calls, ringing, ids)
    requires a'.place == attempts[k].place && a'.dialing && !attempts[k].request.Done?
    ensures PlacesOk(attempts[k := a'], ringing[ids[k] := ringing[ids[k]].(dialing := true)], calls, ids)
  {
    var ringing' := ringing[ids[k] := ringing[ids[k]].(dialing := true)];
    assert forall j :: j in attempts ==> (Rings(ringing', ids, j) <==> Rings(ringing, ids, j));
  }

  lemma PlacesConnect(attempts: Attempts, ringing: map<string, Pending>, calls: map<string, Active>, ids: seq<string>,
                      k: nat, a': Outgoing.Attempt, call: Active)
    requires PlacesOk(attempts, ringing, calls, ids) && k in attempts && Rings(ringing, ids, k) && ids[k] !in calls
    requires OwnIds(calls, ringing, ids)
    requires !a'.place.InRinging? && a'.place.InCalls? && call.source == k
    requires a'.request == Outgoing.Done(Some(Answer(call.token, call.route)))
    ensures PlacesOk(attempts[k := a'], ringing - {ids[k]}, calls[ids[k] := call], ids)
  {
    var ringing', calls' := ringing - {ids[k]}, calls[ids[k] := call];
    forall j | j in attempts && j != k
      ensures Rings(ringing', ids, j) <==> Rings(ringing, ids, j)
      ensures InCalls(calls', ids, j) <==> InCalls(calls, ids, j)
    {
      if j < |ids| && ids[j] == ids[k] { assert !Rings(ringing, ids, j); }
    }
  }

  lemma PlacesRemove(attempts: Attempts, ringing: map<string, Pending>, calls: map<string, Active>, ids: seq<string>,
                     id: string, k: nat, a': Outgoing.Attempt)
    requires PlacesOk(attempts, ringing, calls, ids) && id in calls && OwnIds(calls, ringing, ids)
    requires k == calls[id].source && k in attempts && !attempts[k].place.InRinging?
    requires !a'.place.InRinging? && !a'.place.InCalls? && a'.dialing == attempts[k].dialing
    ensures PlacesOk(attempts[k := a'], ringing, calls - {id}, ids)
  {
    var calls' := calls - {id};
    assert forall j :: j in attempts && j != k ==> (InCalls(calls', ids, j) <==> InCalls(calls, ids, j));
  }

  lemma PlacesRemoveIncoming(attempts: Attempts, ringing: map<string, Pending>, calls: map<string, Active>,
                             ids: seq<string>, id: string)
    requires PlacesOk(attempts, ringing, calls, ids) && id in calls && OwnIds(calls, ringing, ids)
    requires calls[id].source !in attempts
    ensures PlacesOk(attempts, ringing, calls - {id}, ids)
  {
    var calls' := calls - {id};
    assert forall j :: j in attempts ==> (InCalls(calls', ids, j) <==> InCalls(calls, ids, j));
  }

  /** An incoming call is added to the call map. */
  lemma PlacesIncoming(attempts: Attempts, ringing: map<string, Pending>, calls: map<string, Active>, ids: seq<string>,
                       id: string, call: Active)
    requires PlacesOk(attempts, ringing, calls, ids) && AttemptsOk(attempts, ids)
    requires id !in calls && DirectionOf(id).Inbound? && call.info.direction.Inbound?
    ensures PlacesOk(attempts, ringing, calls[id := call], ids)
  {
    assert forall k :: k in attempts ==> (InCalls(calls[id := call], ids, k) <==> InCalls(calls, ids, k));
  }

  /** Only hold states and mute flags of connected calls differ. */
  predicate SameCalls(calls: map<string, Active>, calls': map<string, Active>) {
    && calls'.Keys == calls.Keys
    && forall id :: id in calls ==>
         && calls'[id].source == calls[id].source
         && calls'[id].token == calls[id].token
         && calls'[id].route == calls[id].route
         && calls'[id].info.direction == calls[id].info.direction
  }

  lemma SameInCalls(calls: map<string, Active>, calls': map<string, Active>, ids: seq<string>)
    requires SameCalls(calls, calls')
    ensures forall k: nat :: InCalls(calls', ids, k) <==> InCalls(calls, ids, k)
  {
  }

  lemma PlacesControl(attempts: Attempts, ringing: map<string, Pending>, calls: map<string, Active>, ids: seq<string>,
                      calls': map<string, Active>)
    requires PlacesOk(attempts, ringing, calls, ids) && SameCalls(calls, calls')
    ensures PlacesOk(attempts, ringing, calls', ids)
  {
    SameInCalls(calls, calls', ids);
  }

  // ----- Owed `Ended`s -----

  lemma DebtsUpdate(debts: map<nat, Debt>, attempts: Attempts, calls: map<string, Active>, ids: seq<string>,
                    k: nat, a': Outgoing.Attempt)
    requires DebtsOk(debts, attempts, calls, ids) && k in attempts
    requires a'.place.Leaving? <==> attempts[k].place.Leaving?
    ensures DebtsOk(debts, attempts[k := a'], calls, ids)
  {
  }

  lemma DebtsGrow(debts: map<nat, Debt>, attempts: Attempts, calls: map<string, Active>, ids: seq<string>, id: string)
    requires DebtsOk(debts, attempts, calls, ids)
    ensures DebtsOk(debts, attempts, calls, ids + [id])
  {
    assert forall k :: k in debts ==> (ids + [id])[k] == ids[k];
  }

  lemma DebtsNewAttempt(debts: map<nat, Debt>, attempts: Attempts, calls: map<string, Active>, ids: seq<string>,
                        id: string)
    requires DebtsOk(debts, attempts, calls, ids)
    ensures DebtsOk(debts, attempts[|ids| := Outgoing.FRESH], calls, ids + [id])
  {
    DebtsGrow(debts, attempts, calls, ids, id);
  }

  /** Call `k` has left the maps and its `Ended` is owed. */
  lemma DebtsOwe(debts: map<nat, Debt>, attempts: Attempts, attempts': Attempts, calls: map<string, Active>,
                 calls': map<string, Active>, ids: seq<string>, k: nat, debt: Debt)
    requires DebtsOk(debts, attempts, calls, ids)
    requires Proper(ids, k, debt.info) && debt.info.state.Ended? && debt.info.endReason.Some?
    requires !InCalls(calls', ids, k)
    requires forall j: nat :: InCalls(calls', ids, j) ==> InCalls(calls, ids, j)
    requires attempts'.Keys == attempts.Keys
    requires forall j :: j in attempts && j != k ==> attempts'[j] == attempts[j]
    requires k in attempts' ==> attempts'[k].place.Leaving?
    requires k in attempts || DirectionOf(ids[k]).Inbound? || debt.plan.NoHangUp?
    ensures DebtsOk(debts[k := debt], attempts', calls', ids)
  {
  }

  lemma DebtsPay(debts: map<nat, Debt>, attempts: Attempts, attempts': Attempts, calls: map<string, Active>,
                 ids: seq<string>, k: nat)
    requires DebtsOk(debts, attempts, calls, ids) && k in debts
    requires attempts'.Keys == attempts.Keys
    requires forall j :: j in attempts && j != k ==> attempts'[j] == attempts[j]
    requires k in attempts' ==> !attempts'[k].place.Leaving?
    ensures DebtsOk(debts - {k}, attempts', calls, ids)
  {
  }

  lemma DebtsCalls(debts: map<nat, Debt>, attempts: Attempts, calls: map<string, Active>, calls': map<string, Active>,
                   ids: seq<string>)
    requires DebtsOk(debts, attempts, calls, ids)
    requires forall k :: k in debts && InCalls(calls', ids, k) ==> InCalls(calls, ids, k)
    ensures DebtsOk(debts, attempts, calls', ids)
  {
  }

  // ----- No call is forgotten -----

  /** The call is in a map, or its `Ended` is owed. */
  ghost predicate Kept(calls: map<string, Active>, ids: seq<string>, debts: map<nat, Debt>, attempts: Attempts,
                       k: nat) {
    || InCalls(calls, ids, k)
    || k in debts
    || (k in attempts && (attempts[k].place.InRinging? || attempts[k].canceller.Took?))
  }

  lemma ForgottenFrame(log: EventLog, calls: map<string, Active>, ids: seq<string>, debts: map<nat, Debt>,
                       attempts: Attempts,
                       log': EventLog, calls': map<string, Active>, ids': seq<string>, debts': map<nat, Debt>,
                       attempts': Attempts, source: nat)
    requires NoneForgotten(log, calls, ids, debts, attempts)
    requires SameBut(log, log', source)
    requires source in log'.ended || Last(log'.queue, source).None? || Kept(calls', ids', debts', attempts', source)
    requires forall k: nat :: k != source && Kept(calls, ids, debts, attempts, k) ==>
             Kept(calls', ids', debts', attempts', k)
    ensures NoneForgotten(log', calls', ids', debts', attempts')
  {
    forall k: nat {:trigger Last(log'.queue, k)} | Last(log'.queue, k).Some? && k !in log'.ended
      ensures Kept(calls', ids', debts', attempts', k)
    {
      if k != source { assert Kept(calls, ids, debts, attempts, k); }
    }
  }

  // ----- Accepts -----

  /** The log, the calls or the offers change, but nothing a running accept relies on. */
  lemma AcceptsFrame(accepts: map<string, Accept>, pending: map<string, Offered>, calls: map<string, Active>,
                     ids: seq<string>, left: map<nat, nat>, log: EventLog,
                     calls': map<string, Active>, left': map<nat, nat>, log': EventLog, source: nat)
    requires AcceptsOk(accepts, pending, calls, ids, left, log)
    requires forall id :: id in calls' && DirectionOf(id).Inbound? ==> id in calls
    requires forall k :: k in left' ==> k in left || InCalls(calls, ids, k)
    requires SameBut(log, log', source)
    requires source in log'.ended || (source < |ids| && (DirectionOf(ids[source]).Outbound? || ids[source] in calls))
    ensures AcceptsOk(accepts, pending, calls', ids, left', log')
  {
    forall t | t in accepts ensures AcceptOk(t, accepts[t], pending, calls', ids, left', log') {
      assert AcceptOk(t, accepts[t], pending, calls, ids, left, log);
      IncomingIds(t, t);
    }
  }

  lemma AcceptsGrow(accepts: map<string, Accept>, pending: map<string, Offered>, calls: map<string, Active>,
                    ids: seq<string>, left: map<nat, nat>, log: EventLog, id: string)
    requires AcceptsOk(accepts, pending, calls, ids, left, log)
    ensures AcceptsOk(accepts, pending, calls, ids + [id], left, log)
  {
    assert forall k :: 0 <= k < |ids| ==> (ids + [id])[k] == ids[k];
  }

  lemma AcceptsSet(accepts: map<string, Accept>, pending: map<string, Offered>, calls: map<string, Active>,
                   ids: seq<string>, left: map<nat, nat>, log: EventLog, t: string, accept: Accept)
    requires AcceptsOk(accepts, pending, calls, ids, left, log)
    requires AcceptOk(t, accept, pending, calls, ids, left, log)
    ensures AcceptsOk(accepts[t := accept], pending, calls, ids, left, log)
  {
  }

  /** Offers of `t` change: an entry with the same source stays as accepting as it was. */
  lemma AcceptsOffer(accepts: map<string, Accept>, pending: map<string, Offered>, calls: map<string, Active>,
                     ids: seq<string>, left: map<nat, nat>, log: EventLog, pending': map<string, Offered>)
    requires AcceptsOk(accepts, pending, calls, ids, left, log)
    requires forall u :: u in pending' ==>
               || (u in pending && pending'[u].source == pending[u].source
                   && (pending[u].accepting ==> pending'[u].accepting))
               || (forall t :: t in accepts && Bound(accepts[t]) ==> accepts[t].source != pending'[u].source)
    ensures AcceptsOk(accepts, pending', calls, ids, left, log)
  {
    forall t | t in accepts ensures AcceptOk(t, accepts[t], pending', calls, ids, left, log) {
      assert AcceptOk(t, accepts[t], pending, calls, ids, left, log);
    }
  }

  lemma SlotsSet(accepts: map<string, Accept>, accepting: set<string>, t: string, accept: Accept)
    requires SlotsOk(accepts, accepting)
    ensures SlotsOk(accepts[t := accept], if HoldsSlot(accept) then accepting + {t} else accepting - {t})
  {
  }

  // ----- Hang-ups and rejects of incoming calls -----

  lemma RequestsFrame(hangUps: multiset<nat>, rejects: multiset<nat>, pending: map<string, Offered>,
                      accepts: map<string, Accept>, calls: map<string, Active>, debts: map<nat, Debt>, ids: seq<string>,
                      calls': map<string, Active>, debts': map<nat, Debt>, ids': seq<string>)
    requires RequestsOk(hangUps, rejects, pending, accepts, calls, debts, ids)
    requires ids <= ids'
    requires forall k :: k in hangUps ==>
               (InCalls(calls', ids', k) ==> InCalls(calls, ids, k)) && (k in debts' ==> k in debts)
    requires forall k :: k in debts' ==> k in debts || Retired(pending, accepts, k)
    ensures RequestsOk(hangUps, rejects, pending, accepts, calls', debts', ids')
  {
  }

  lemma SlotsDrop(accepts: map<string, Accept>, accepting: set<string>, t: string)
    requires SlotsOk(accepts, accepting)
    ensures SlotsOk(accepts - {t}, accepting - {t})
  {
  }

  lemma RequestsSet(hangUps: multiset<nat>, rejects: multiset<nat>, pending: map<string, Offered>,
                    accepts: map<string, Accept>, calls: map<string, Active>, debts: map<nat, Debt>, ids: seq<string>,
                    t: string, accept: Accept)
    requires RequestsOk(hangUps, rejects, pending, accepts, calls, debts, ids)
    requires forall k :: k in hangUps || k in debts ==> accept != Sending(k) && accept != Cleared(k)
    ensures RequestsOk(hangUps, rejects, pending, accepts[t := accept], calls, debts, ids)
  {
    assert forall k :: Retired(pending, accepts, k) && accept != Sending(k) && accept != Cleared(k) ==>
        Retired(pending, accepts[t := accept], k);
  }

  lemma RequestsDrop(hangUps: multiset<nat>, rejects: multiset<nat>, pending: map<string, Offered>,
                     accepts: map<string, Accept>, calls: map<string, Active>, debts: map<nat, Debt>, ids: seq<string>,
                     t: string)
    requires RequestsOk(hangUps, rejects, pending, accepts, calls, debts, ids)
    ensures RequestsOk(hangUps, rejects, pending, accepts - {t}, calls, debts, ids)
  {
    assert forall k :: Retired(pending, accepts, k) ==> Retired(pending, accepts - {t}, k);
  }

  lemma RequestsOffer(hangUps: multiset<nat>, rejects: multiset<nat>, pending: map<string, Offered>,
                      accepts: map<string, Accept>, calls: map<string, Active>, debts: map<nat, Debt>, ids: seq<string>,
                      t: string, e: Offered)
    requires RequestsOk(hangUps, rejects, pending, accepts, calls, debts, ids)
    requires e.source !in hangUps && e.source !in debts && e.source !in rejects && !e.rejected
    ensures RequestsOk(hangUps, rejects, pending[t := e], accepts, calls, debts, ids)
  {
    assert forall k :: Retired(pending, accepts, k) && k != e.source ==> Retired(pending[t := e], accepts, k);
  }

  /** An offer is taken. */
  lemma RequestsTake(hangUps: multiset<nat>, rejects: multiset<nat>, pending: map<string, Offered>,
                     accepts: map<string, Accept>, calls: map<string, Active>, debts: map<nat, Debt>, ids: seq<string>,
                     t: string)
    requires RequestsOk(hangUps, rejects, pending, accepts, calls, debts, ids)
    ensures RequestsOk(hangUps, rejects, pending - {t}, accepts, calls, debts, ids)
  {
    assert forall k :: Retired(pending, accepts, k) ==> Retired(pending - {t}, accepts, k);
  }

  /** The one hang-up of an incoming call is started. */
  lemma RequestsHangUp(hangUps: multiset<nat>, rejects: multiset<nat>, pending: map<string, Offered>,
                       accepts: map<string, Accept>, calls: map<string, Active>, debts: map<nat, Debt>,
                           ids: seq<string>, k: nat)
    requires RequestsOk(hangUps, rejects, pending, accepts, calls, debts, ids)
    requires k < |ids| && DirectionOf(ids[k]).Inbound? && Retired(pending, accepts, k) && !InCalls(calls, ids, k)
    requires k !in debts && k !in hangUps
    ensures RequestsOk(hangUps + multiset{k}, rejects, pending, accepts, calls, debts, ids)
  {
  }
}
