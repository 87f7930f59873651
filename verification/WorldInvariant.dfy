/** How everything that runs around the engine fits the engine's maps, in every reachable state. */
module WorldInvariant {
  import opened Types
  import opened Events
  import opened Calls
  import opened CallsInvariant
  import opened Sections
  import opened World
  import Outgoing

  type Attempts = map<nat, Outgoing.Attempt>

  // ----- Outgoing attempts -----

  predicate Rings(ringing: map<string, Pending>, ids: seq<string>, k: nat) {
    && k < |ids|
    && ids[k] in ringing
    && ringing[ids[k]].source == k
  }

  ghost predicate AttemptsOk(attempts: Attempts, ids: seq<string>) {
    forall k :: k in attempts ==>
      k < |ids| && DirectionOf(ids[k]).Outbound? && Outgoing.AttemptOk(attempts[k])
  }

  /** An attempt's call is in the ringing map, or in the call map, exactly when the attempt says so. */
  ghost predicate PlacesOk(attempts: Attempts, ringing: map<string, Pending>, calls: map<string, Active>,
                           ids: seq<string>) {
    && (forall k :: k in attempts ==>
          && (attempts[k].place.InRinging? <==> Rings(ringing, ids, k))
          && (attempts[k].place.InCalls? <==> InCalls(calls, ids, k)))
    && (forall id :: id in ringing ==>
          && ringing[id].source in attempts
          && ringing[id].dialing == attempts[ringing[id].source].dialing)
    && (forall id :: id in calls && calls[id].info.direction.Outbound? ==>
          && calls[id].source in attempts
          && attempts[calls[id].source].request == Outgoing.Done(Some(Answer(calls[id].token, calls[id].route))))
  }

  /** At most one `dial` per id is running. */
  ghost predicate OneDial(attempts: Attempts, ids: seq<string>) {
    forall j, k :: (&& j in attempts && k in attempts && j < |ids| && k < |ids| && ids[j] == ids[k]
                    && !attempts[j].dial.Returned? && !attempts[k].dial.Returned?) ==> j == k
  }

  // ----- Owed `Ended`s -----

  /** No offer and no running accept will make call `k` connect. */
  ghost predicate Retired(pending: map<string, Offered>, accepts: map<string, Accept>, k: nat) {
    && (forall t :: t in pending ==> pending[t].source != k)
    && (forall t :: t in accepts ==> accepts[t] != Sending(k) && accepts[t] != Cleared(k))
  }

  ghost predicate DebtsOk(debts: map<nat, Debt>, attempts: Attempts, calls: map<string, Active>, ids: seq<string>) {
    && (forall k :: k in debts ==>
          && Proper(ids, k, debts[k].info)
          && debts[k].info.state.Ended? && debts[k].info.endReason.Some?
          && !InCalls(calls, ids, k)
          && (k in attempts || DirectionOf(ids[k]).Inbound? || debts[k].plan.NoHangUp?))
    && (forall k :: k in attempts ==> (attempts[k].place.Leaving? <==> k in debts))
  }

  /** Every call that was reported and has not been reported ended is in a map, or its `Ended` is owed. */
  ghost predicate NoneForgotten(log: EventLog, calls: map<string, Active>, ids: seq<string>, debts: map<nat, Debt>,
                                attempts: Attempts)
  {
    forall k: nat {:trigger Last(log.queue, k)} :: Last(log.queue, k).Some? && k !in log.ended ==>
      || InCalls(calls, ids, k)
      || k in debts
      || (k in attempts && (attempts[k].place.InRinging? || attempts[k].canceller.Took?))
  }

  // ----- Incoming calls -----

  predicate Bound(accept: Accept) {
    accept.Sending? || accept.Forsaking? || accept.Cleared?
  }

  ghost predicate AcceptOk(t: string, accept: Accept, pending: map<string, Offered>, calls: map<string, Active>,
                           ids: seq<string>, left: map<nat, nat>, log: EventLog)
  {
    && (!accept.Closing? ==> IncomingId(t) !in calls)
    && (Bound(accept) ==>
          var k := accept.source;
          && k < |ids| && ids[k] == IncomingId(t)
          && k !in left
          && (k in log.ended || Last(log.queue, k).None?))
    && (accept.Sending? && t in pending && pending[t].source == accept.source ==> pending[t].accepting)
    && (accept.Cleared? ==> forall u :: u in pending ==> pending[u].source != accept.source)
  }

  ghost predicate AcceptsOk(accepts: map<string, Accept>, pending: map<string, Offered>, calls: map<string, Active>,
                            ids: seq<string>, left: map<nat, nat>, log: EventLog)
  {
    forall t :: t in accepts ==> AcceptOk(t, accepts[t], pending, calls, ids, left, log)
  }

  predicate HoldsSlot(accept: Accept) {
    accept != Closing(false)
  }

  ghost predicate SlotsOk(accepts: map<string, Accept>, accepting: set<string>) {
    forall t {:trigger t in accepting} :: t in accepting <==> t in accepts && HoldsSlot(accepts[t])
  }

  ghost predicate RejectingOk(rejecting: set<nat>, ids: seq<string>) {
    forall k :: k in rejecting ==> k < |ids| && DirectionOf(ids[k]).Inbound?
  }

  /** An incoming call is hung up at most once, and rejected at most once while it is abandoned. */
  ghost predicate RequestsOk(hangUps: multiset<nat>, rejects: multiset<nat>, pending: map<string, Offered>,
                             accepts: map<string, Accept>, calls: map<string, Active>, debts: map<nat, Debt>,
                             ids: seq<string>)
  {
    && (forall k {:trigger hangUps[k]} :: hangUps[k] <= 1)
    && (forall k :: k in hangUps ==>
          k < |ids| && DirectionOf(ids[k]).Inbound? && Retired(pending, accepts, k) && !InCalls(calls, ids, k)
              && k !in debts)
    && (forall k :: k in debts ==> Retired(pending, accepts, k))
    && (forall k {:trigger rejects[k]} :: rejects[k] <= 1)
    && (forall k :: k in rejects ==> k < |ids|)
    && (forall t :: t in pending ==> (pending[t].source in rejects <==> pending[t].rejected))
  }

  ghost predicate WorldInv(w: World) {
    var c := w.core;
    && Inv(c)
    && AttemptsOk(w.attempts, c.ids)
    && PlacesOk(w.attempts, c.ringing, c.calls, c.ids)
    && OneDial(w.attempts, c.ids)
    && DebtsOk(w.debts, w.attempts, c.calls, c.ids)
    && NoneForgotten(c.log, c.calls, c.ids, w.debts, w.attempts)
    && AcceptsOk(w.accepts, c.pending, c.calls, c.ids, c.left, c.log)
    && SlotsOk(w.accepts, c.accepting)
    && RejectingOk(w.rejecting, c.ids)
    && RequestsOk(w.hangUps, w.rejects, c.pending, w.accepts, c.calls, w.debts, c.ids)
    && LiveCount(c) <= MAX_LIVE_CALLS
  }

  lemma StartOk()
    ensures WorldInv(START)
  {
    InitialInv();
    assert forall k: nat :: Last(START.core.log.queue, k).None?;
  }
}
