/** `CallEvents` and `Dispatcher` as objects (src/events.rs): the per-call gate, events of other calls
    queued inside it, and the queue that one thread drains. */
module Dispatch {
  import opened Types
  import opened Events

  /** What was done with a queued event: handed to the handler installed at that moment, or dropped
      for want of one. */
  datatype Delivery = Delivery(info: CallInfo, handler: Option<nat>)

  function Sent(deliveries: seq<Delivery>): seq<CallInfo> {
    if deliveries == [] then [] else Sent(deliveries[..|deliveries| - 1]) + [deliveries[|deliveries| - 1].info]
  }

  class Dispatcher {
    var handler: Option<nat>
    var channel: seq<CallInfo>
    ghost var queued: seq<CallInfo>
    ghost var deliveries: seq<Delivery>

    /** Whatever was queued has been dealt with in order, or still waits in order. */
    ghost predicate Valid()
      reads this
    {
      queued == Sent(deliveries) + channel
    }

    constructor ()
      ensures Valid() && queued == [] && deliveries == [] && handler.None?
    {
      handler, channel, queued, deliveries := None, [], [], [];
    }

    method SetHandler(h: Option<nat>)
      requires Valid()
      modifies `handler
      ensures Valid() && handler == h
    {
      handler := h;
    }

    method Send(info: CallInfo)
      requires Valid()
      modifies `channel, `queued
      ensures Valid() && queued == old(queued) + [info]
    {
      channel := channel + [info];
      queued := queued + [info];
    }

    /** The dispatch thread takes the next event and delivers it. */
    method DeliverNext()
      requires Valid() && channel != []
      modifies `channel, `deliveries
      ensures Valid()
      ensures deliveries == old(deliveries) + [Delivery(old(channel)[0], handler)] && channel == old(channel)[1..]
    {
      var info := channel[0];
      channel := channel[1..];
      deliveries := deliveries + [Delivery(info, handler)];
      assert deliveries[..|deliveries| - 1] == old(deliveries);
    }

    /** The dispatch thread, until it has caught up. */
    method Drain()
      requires Valid()
      modifies `channel, `deliveries
      ensures Valid() && channel == [] && Sent(deliveries) == queued
      ensures |old(deliveries)| <= |deliveries| && deliveries[..|old(deliveries)|] == old(deliveries)
      ensures forall i :: |old(deliveries)| <= i < |deliveries| ==> deliveries[i].handler == handler
    {
      while channel != []
        invariant Valid()
        invariant |old(deliveries)| <= |deliveries| && deliveries[..|old(deliveries)|] == old(deliveries)
        invariant forall i :: |old(deliveries)| <= i < |deliveries| ==> deliveries[i].handler == handler
        decreases |channel|
      {
        DeliverNext();
      }
    }
  }

  /** The delivered events are a prefix of the queued ones: none is skipped, repeated or reordered. */
  lemma {:induction false} DeliveredInOrder(deliveries: seq<Delivery>, channel: seq<CallInfo>, queued: seq<CallInfo>)
    requires queued == Sent(deliveries) + channel
    ensures |deliveries| <= |queued| && forall i :: 0 <= i < |deliveries| ==> deliveries[i].info == queued[i]
  {
    if deliveries != [] {
      var n := |deliveries| - 1;
      assert queued == Sent(deliveries[..n]) + ([deliveries[n].info] + channel);
      DeliveredInOrder(deliveries[..n], [deliveries[n].info] + channel, queued);
      SentLength(deliveries);
      assert queued[n] == Sent(deliveries)[n];
      assert forall i :: 0 <= i < n ==> deliveries[..n][i] == deliveries[i];
    }
  }

  lemma {:induction false} SentLength(deliveries: seq<Delivery>)
    ensures |Sent(deliveries)| == |deliveries|
    ensures deliveries != [] ==> Sent(deliveries)[|deliveries| - 1] == deliveries[|deliveries| - 1].info
  {
    if deliveries != [] { SentLength(deliveries[..|deliveries| - 1]); }
  }

  /** A change of another call, reported from inside a call's gate. */
  datatype Change = Change(events: CallEvents, info: CallInfo)

  ghost predicate Different(changes: seq<Change>) {
    forall i, j :: 0 <= i < j < |changes| ==> changes[i].events != changes[j].events
  }

  /** What the changes queue: one event each, for the calls that have not been reported ended. */
  ghost function Queues(changes: seq<Change>): seq<CallInfo>
    reads set c | c in changes :: c.events
  {
    if changes == [] then []
    else
      var last := changes[|changes| - 1];
      Queues(changes[..|changes| - 1]) + if last.events.ended then [] else [Reported(last.info)]
  }

  class CallEvents {
    var ended: bool

    constructor ()
      ensures !ended
    {
      ended := false;
    }

    /** `emit` */
    method EmitInfo(d: Dispatcher, info: CallInfo) returns (queued: bool)
      requires d.Valid()
      modifies this, d`channel, d`queued
      ensures d.Valid() && queued == !old(ended) && ended == (old(ended) || info.state.Ended?)
      ensures d.queued == old(d.queued) + if queued then [Reported(info)] else []
    {
      queued := EmitAfter(d, info, []);
    }

    /** `emit_after`, `changes` being what `before` reports of other calls: queued just ahead of `info`,
        and not at all when this call has already ended. */
    method EmitAfter(d: Dispatcher, info: CallInfo, changes: seq<Change>) returns (queued: bool)
      requires d.Valid() && Different(changes)
      requires forall c :: c in changes ==> c.events != this && !c.info.state.Ended?
      modifies this, d`channel, d`queued
      ensures d.Valid() && queued == !old(ended) && ended == (old(ended) || info.state.Ended?)
      ensures d.queued == old(d.queued) + if queued then old(Queues(changes)) + [Reported(info)] else []
    {
      if ended { return false; }
      ghost var before := d.queued;
      for i := 0 to |changes|
        invariant d.Valid() && !ended && d.queued == before + Queues(changes[..i])
      {
        assert changes[..i + 1][..i] == changes[..i];
        if !changes[i].events.ended { d.Send(Reported(changes[i].info)); }
      }
      assert changes[..|changes|] == changes;
      ended := info.state.Ended?;
      d.Send(Reported(info));
      return true;
    }
  }
}
