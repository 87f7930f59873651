/** The life of one outgoing id, as `hangup` sees it: the lock-grained engine refines a small
    automaton, so `take_for_hangup` misses a call only when there is nothing left to end. */
module Phases {
  import opened Types
  import opened Events
  import opened Calls
  import opened CallsInvariant
  import opened World
  import opened WorldInvariant
  import opened Lifecycle
  import opened Frames
  import opened OutgoingSteps
  import opened Growth
  import Outgoing

  /** What the engine's maps say about one id. */
  datatype Life = Life(connected: bool, ringing: bool, flag: Option<bool>)

  function LifeOf(c: Core, id: string): Life {
    Life(id in c.calls, id in c.ringing, UsedFlag(c.used, id))
  }

  /** The `p`-th use of an outgoing id was a use of `id`. */
  predicate UsedAt(c: Core, id: string, p: nat) {
    p < |c.marks| && c.marks[p] < |c.ids| && c.ids[c.marks[p]] == id
  }

  /** Fewer than 256 uses of ids have followed some use of `id`. */
  ghost predicate Recent(c: Core, id: string) {
    exists p: nat :: UsedAt(c, id, p) && |c.marks| - p <= USED_OUTGOING_IDS
  }

  datatype Phase = New | PreCancelled | Rings | Talks | Over

  function PhaseIn(l: Life): Phase {
    if l.connected then Talks
    else if l.ringing then Rings
    else
      match l.flag
      case Some(true) => PreCancelled
      case Some(false) => Over
      case None => New
  }

  function PhaseOf(c: Core, id: string): Phase {
    PhaseIn(LifeOf(c, id))
  }

  /** The automaton of an id that is remembered. */
  predicate Edge(p: Phase, q: Phase) {
    || p == q
    || (p.New? && (q.PreCancelled? || q.Rings?))
    || (p.PreCancelled? && q.Over?)
    || (p.Rings? && (q.Talks? || q.Over?))
    || (p.Talks? && q.Over?)
  }

  /** The phases that can follow after any number of steps. */
  predicate Leads(p: Phase, q: Phase) {
    p == q || p.New? || q.Over? || (p.Rings? && q.Talks?)
  }

  // ----- The effect of a section on one id -----

  datatype Move = Stutter | Refused | Starts | PreCancels | Answers | Leaves | Forgotten

  predicate Makes(l: Life, move: Move, l': Life) {
    match move
    case Stutter => l' == l
    case Refused => l.flag == Some(true) && l' == l.(flag := Some(false))
    case Starts => !l.connected && !l.ringing && l.flag.None? && l' == l.(ringing := true, flag := Some(false))
    case PreCancels => !l.connected && !l.ringing && l.flag.None? && l' == l.(flag := Some(true))
    case Answers => l.ringing && l' == l.(ringing := false, connected := true)
    case Leaves => l.ringing != l.connected && l' == l.(ringing := false, connected := false)
    case Forgotten => l.flag.Some? && l' == l.(flag := None)
  }

  predicate Moves(l: Life, l': Life) {
    exists move :: Makes(l, move, l')
  }

  /** An id never both rings and is connected, and a pre-cancelled id has no call. */
  predicate LifeOk(l: Life) {
    && !(l.connected && l.ringing)
    && (l.flag == Some(true) ==> !l.connected && !l.ringing)
  }

  lemma MovesKeepLife(l: Life, l': Life)
    requires LifeOk(l) && Moves(l, l')
    ensures LifeOk(l')
    ensures Edge(PhaseIn(l), PhaseIn(l')) || (!PhaseIn(l).New? && PhaseIn(l').New?)
  {
    var move :| Makes(l, move, l');
  }

  // ----- How long an id is remembered -----

  lemma RememberedIsUsed(c: Core, i: nat)
    requires UsedOk(c.used, c.marks, c.ids) && i < |c.used|
    ensures |c.used| <= |c.marks| && |c.used| <= USED_OUTGOING_IDS
    ensures UsedAt(c, c.used[i].0, |c.marks| - |c.used| + i)
  {
    var p := |c.marks| - |c.used| + i;
    assert c.marks[p] < |c.ids|;
  }

  /** An id is remembered exactly as long as fewer than 256 uses of ids have followed its own. */
  lemma RememberedIffRecent(c: Core, id: string)
    requires UsedOk(c.used, c.marks, c.ids)
    ensures UsedFlag(c.used, id).Some? <==> Recent(c, id)
  {
    if UsedFlag(c.used, id).Some? { RememberedIsRecent(c, id); } else { ForgottenIsNot(c, id); }
  }

  lemma RememberedIsRecent(c: Core, id: string)
    requires UsedOk(c.used, c.marks, c.ids) && UsedFlag(c.used, id).Some?
    ensures Recent(c, id)
  {
    FindUsed(c.used, id);
    hide UsedOk, UsedFlag;
    var i: nat :| i < |c.used| && c.used[i].0 == id;
    RememberedIsUsed(c, i);
  }

  lemma ForgottenIsNot(c: Core, id: string)
    requires UsedOk(c.used, c.marks, c.ids) && UsedFlag(c.used, id).None?
    ensures !Recent(c, id)
  {
    hide UsedOk, UsedFlag;
    if Recent(c, id) {
      var p: nat :| UsedAt(c, id, p) && |c.marks| - p <= USED_OUTGOING_IDS;
      NotRecentlyUsed(c.used, c.marks, c.ids, id, p);
    }
  }

  // ----- What the recently used ids do when one more is used -----

  lemma {:induction false} FlagAfterAppend(used: seq<(string, bool)>, id: string, x: string, b: bool)
    ensures UsedFlag(used + [(x, b)], id) ==
            if UsedFlag(used, id).Some? then UsedFlag(used, id) else if x == id then Some(b) else None
  {
    if used == [] {
      assert used + [(x, b)] == [(x, b)];
    } else {
      assert (used + [(x, b)])[1..] == used[1..] + [(x, b)];
      FlagAfterAppend(used[1..], id, x, b);
    }
  }

  lemma FlagAfterMark(c: Core, x: string, b: bool, id: string)
    requires UsedOk(c.used, c.marks, c.ids) && UsedFlag(c.used, x).None? && DirectionOf(x).Outbound?
    ensures var flag := UsedFlag(MarkUsed(c.used, x, b), id);
            if id == x then flag == Some(b)
            else flag == UsedFlag(c.used, id) || flag.None?
  {
    var longer := c.used + [(x, b)];
    FlagAfterAppend(c.used, id, x, b);
    if |longer| > USED_OUTGOING_IDS {
      assert longer[1..] == c.used[1..] + [(x, b)];
      FlagAfterAppend(c.used[1..], id, x, b);
      if longer[0].0 == id { OnlyOnce(c, id); }
    }
  }

  lemma UsesAreApart(c: Core, x: string, y: string, p: nat, q: nat)
    requires UsedOk(c.used, c.marks, c.ids) && UsedAt(c, x, p) && UsedAt(c, y, q)
    requires p < q && q - p <= USED_OUTGOING_IDS
    ensures x != y
  {
  }

  /** The oldest remembered id is remembered only once. */
  lemma OnlyOnce(c: Core, id: string)
    requires UsedOk(c.used, c.marks, c.ids) && c.used != [] && c.used[0].0 == id
    ensures UsedFlag(c.used[1..], id).None?
  {
    FindUsed(c.used[1..], id);
    hide UsedOk, UsedFlag, UsedAt;
    var first := |c.marks| - |c.used|;
    forall i | 0 <= i < |c.used[1..]| ensures c.used[1..][i].0 != id {
      RememberedIsUsed(c, 0);
      RememberedIsUsed(c, i + 1);
      UsesAreApart(c, id, c.used[i + 1].0, first, first + i + 1);
    }
  }

  // ----- Sections -----

  lemma ReserveMoves(c: Core, x: string, hasToken: bool, id: string)
    requires UsedOk(c.used, c.marks, c.ids)
    ensures Moves(LifeOf(c, id), LifeOf(ReserveOutgoing(c, x, hasToken).0, id))
  {
    var (c', r) := ReserveOutgoing(c, x, hasToken);
    var l, l' := LifeOf(c, id), LifeOf(c', id);
    if r.Ok? {
      OutgoingIds(x);
      FlagAfterMark(c, x, false, id);
      assert Makes(l, Starts, l') || Makes(l, Stutter, l') || Makes(l, Forgotten, l');
    } else {
      ClearKeepsIds(c.used, x);
      assert Makes(l, Refused, l') || Makes(l, Stutter, l');
    }
  }

  lemma HangupMoves(c: Core, x: string, id: string)
    requires UsedOk(c.used, c.marks, c.ids) && LifeOk(LifeOf(c, id))
    ensures Moves(LifeOf(c, id), LifeOf(TakeForHangup(c, x).0, id))
  {
    var (c', taken) := TakeForHangup(c, x);
    var l, l' := LifeOf(c, id), LifeOf(c', id);
    if taken.NotYetMade? {
      OutgoingIds(x);
      FlagAfterMark(c, x, true, id);
      assert Makes(l, PreCancels, l') || Makes(l, Stutter, l') || Makes(l, Forgotten, l');
    } else {
      assert Makes(l, Leaves, l') || Makes(l, Stutter, l');
    }
  }

  /** The maps' keys and the used ids are as they were. */
  predicate SameKeys(c: Core, c': Core) {
    c'.calls.Keys == c.calls.Keys && c'.ringing.Keys == c.ringing.Keys && c'.used == c.used && c'.marks == c.marks
  }

  lemma SameKeysMoves(c: Core, c': Core, id: string)
    requires SameKeys(c, c')
    ensures Moves(LifeOf(c, id), LifeOf(c', id))
  {
    assert id in c.calls.Keys <==> id in c'.calls.Keys;
    assert id in c.ringing.Keys <==> id in c'.ringing.Keys;
    assert Makes(LifeOf(c, id), Stutter, LifeOf(c', id));
  }

  /** One id leaves one map; the rest is as it was. */
  lemma RemovalMoves(c: Core, c': Core, x: string, id: string)
    requires LifeOk(LifeOf(c, id)) && c'.used == c.used && c'.marks == c.marks
    requires || (c'.calls.Keys == c.calls.Keys - {x} && c'.ringing.Keys == c.ringing.Keys)
             || (c'.ringing.Keys == c.ringing.Keys - {x} && c'.calls.Keys == c.calls.Keys)
    ensures Moves(LifeOf(c, id), LifeOf(c', id))
  {
    var l, l' := LifeOf(c, id), LifeOf(c', id);
    assert id in c.calls.Keys <==> l.connected;
    assert id in c'.calls.Keys <==> l'.connected;
    assert id in c.ringing.Keys <==> l.ringing;
    assert id in c'.ringing.Keys <==> l'.ringing;
    assert Makes(l, Leaves, l') || Makes(l, Stutter, l');
  }

  lemma HoldSameKeys(c: Core, keep: string)
    ensures SameKeys(c, HoldOthers(c, keep))
  {
    assert HeldExcept(c.calls, keep).Keys == c.calls.Keys;
  }

  lemma SwitchSameKeys(c: Core, id: string, onHold: bool)
    requires id in c.calls
    ensures SameKeys(c, SwitchHold(c, id, onHold))
  {
    assert SwitchHold(c, id, onHold).calls.Keys == c.calls.Keys;
  }

  lemma SwapSameKeys(c: Core, active: string, held: string)
    ensures SameKeys(c, SwapCalls(c, active, held).0)
  {
    if active in c.calls && held in c.calls {
      SwitchSameKeys(c, active, true);
      var c1 := SwitchHold(c, active, true);
      HoldSameKeys(c1, held);
      hide HoldOthers, SwitchHold;
      var c2 := HoldOthers(c1, held);
      assert held in c2.calls.Keys;
      SwitchSameKeys(c2, held, false);
    }
  }

  lemma MuteSameKeys(c: Core, id: string, muted: bool)
    ensures SameKeys(c, SetMute(c, id, muted).0)
  {
    if id in c.calls { assert SetMute(c, id, muted).0.calls.Keys == c.calls.Keys; }
  }

  lemma SetHoldSameKeys(c: Core, id: string, onHold: bool)
    ensures SameKeys(c, SetHold(c, id, onHold).0)
  {
    HoldSameKeys(c, id);
    hide HoldOthers;
    var c1 := if onHold then c else HoldOthers(c, id);
    if id in c.calls {
      assert id in c1.calls.Keys;
      assert SetHold(c, id, onHold).0.calls.Keys == c1.calls.Keys;
    }
  }

  lemma ConnectMoves(c: Core, x: string, source: nat, answer: Answer, id: string)
    requires x in c.ringing ==> x !in c.calls
    ensures Moves(LifeOf(c, id), LifeOf(ConnectDialed(c, x, source, answer).0, id))
  {
    HoldSameKeys(c.(ringing := c.ringing - {x}), x);
    hide HoldOthers;
    var c' := ConnectDialed(c, x, source, answer).0;
    var l, l' := LifeOf(c, id), LifeOf(c', id);
    if x in c.ringing {
      assert c'.calls.Keys == c.calls.Keys + {x} && c'.ringing.Keys == c.ringing.Keys - {x};
      assert id in c.calls.Keys <==> l.connected;
      assert id in c'.calls.Keys <==> l'.connected;
      assert Makes(l, Answers, l') || Makes(l, Stutter, l');
    } else {
      assert Makes(l, Stutter, l');
    }
  }

  lemma AcceptMoves(c: Core, token: string, source: nat, route: Route, id: string)
    requires DirectionOf(id).Outbound?
    ensures Moves(LifeOf(c, id), LifeOf(ConnectAccepted(c, token, source, route).0, id))
  {
    IncomingIds(token, token);
    HoldSameKeys(ReleaseAccept(c, token), IncomingId(token));
    hide HoldOthers;
    var c' := ConnectAccepted(c, token, source, route).0;
    assert id in c.calls.Keys <==> id in c'.calls.Keys;
    assert Makes(LifeOf(c, id), Stutter, LifeOf(c', id));
  }

  // ----- Steps -----

  lemma DialMoves(w: World, step: DialStep, id: string)
    requires UsedOk(w.core.used, w.core.marks, w.core.ids) && w.core.calls.Keys !! w.core.ringing.Keys
    requires CanDial(w, step) && LifeOk(LifeOf(w.core, id))
    ensures Moves(LifeOf(w.core, id), LifeOf(DoDial(w, step).core, id))
  {
    hide Outgoing.Do, Moves, LifeOf, LifeOk, SameKeys, UsedOk;
    hide ReserveOutgoing, TakeRinging, MarkDialing, ConnectDialed, SetCell, Say;
    var c := w.core;
    match step
    case Reserve(x, hasToken, _, _) => ReserveMoves(c, x, hasToken, id);
    case Tries(k, route) => StillMoves(c, k, InfoOf(id, Ringing), route, id);
    case MediaFails(k) => TakeMoves(c, c.ids[k], id);
    case MarksDialing(k) => MarkMoves(c, c.ids[k], id);
    case Joins(k) => TakeMoves(c, c.ids[k], id); StillMoves(c, k, InfoOf(id, Ringing), Route(""), id);
    case Connects(k) =>
      assert c.ids[k] in c.ringing.Keys ==> c.ids[k] !in c.calls.Keys;
      ConnectMoves(c, c.ids[k], k, w.attempts[k].dial.answer, id);
    case ReportsCancelled(k) => StillMoves(c, k, AsEnded(InfoOf(c.ids[k], Ringing), Cancelled), Route(""), id);
    case Acts(k, act) => StillMoves(c, k, InfoOf(id, Ringing), Route(""), id);
  }

  lemma StillMoves(c: Core, k: nat, info: CallInfo, route: Route, id: string)
    ensures Moves(LifeOf(c, id), LifeOf(c, id))
    ensures Moves(LifeOf(c, id), LifeOf(Say(c, k, info), id)) && Moves(LifeOf(c, id), LifeOf(SetCell(c, k, route), id))
  {
    hide Moves, LifeOf;
    SameKeysMoves(c, c, id);
    SameKeysMoves(c, Say(c, k, info), id);
    SameKeysMoves(c, SetCell(c, k, route), id);
  }

  lemma MarkMoves(c: Core, x: string, id: string)
    ensures Moves(LifeOf(c, id), LifeOf(MarkDialing(c, x), id))
  {
    if x in c.ringing { assert MarkDialing(c, x).ringing.Keys == c.ringing.Keys; }
    SameKeysMoves(c, MarkDialing(c, x), id);
  }

  lemma TakeMoves(c: Core, x: string, id: string)
    requires LifeOk(LifeOf(c, id))
    ensures Moves(LifeOf(c, id), LifeOf(TakeRinging(c, x).0, id)) && Moves(LifeOf(c, id), LifeOf(TakeCall(c, x).0, id))
  {
    assert (c.ringing - {x}).Keys == c.ringing.Keys - {x} && (c.calls - {x}).Keys == c.calls.Keys - {x};
    RemovalMoves(c, TakeRinging(c, x).0, x, id);
    RemovalMoves(c, TakeCall(c, x).0, x, id);
  }

  lemma EndMoves(w: World, step: EndStep, id: string)
    requires UsedOk(w.core.used, w.core.marks, w.core.ids)
    requires CanEnd(w, step) && LifeOk(LifeOf(w.core, id))
    ensures Moves(LifeOf(w.core, id), LifeOf(DoEnd(w, step).core, id))
  {
    hide Outgoing.Do, Outgoing.Can, Moves, LifeOf, LifeOk, UsedOk, TakeForHangup, TakeCall, Say;
    var c := w.core;
    match step
    case HangsUp(x) => HangupMoves(c, x, id);
    case Removes(x, reason, hangUp) => TakeMoves(c, x, id); StillMoves(c, 0, InfoOf(id, Ended), Route(""), id);
    case PaysDebt(k, hasToken) => StillMoves(c, k, w.debts[k].info, Route(""), id);
  }

  lemma ControlMoves(w: World, step: ControlStep, id: string)
    ensures Moves(LifeOf(w.core, id), LifeOf(DoControl(w, step).core, id))
  {
    hide SameKeys, Moves, LifeOf, SetMute, SetHold, SwapCalls;
    var c := w.core;
    match step
    case Mutes(x, muted) => MuteSameKeys(c, x, muted); SameKeysMoves(c, SetMute(c, x, muted).0, id);
    case Holds(x, onHold) => SetHoldSameKeys(c, x, onHold); SameKeysMoves(c, SetHold(c, x, onHold).0, id);
    case Swaps(active, held) => SwapSameKeys(c, active, held); SameKeysMoves(c, SwapCalls(c, active, held).0, id);
  }

  lemma OfferedMoves(c: Core, t: string, route: Route, abandoned: bool, id: string)
    ensures Moves(LifeOf(c, id), LifeOf(WatchIncoming(c, t, route, abandoned), id))
  {
    hide Moves, LifeOf;
    SameKeysMoves(c, WatchIncoming(c, t, route, abandoned), id);
  }

  lemma WatchMoves(c: Core, t: string, seen: Seen, id: string)
    ensures Moves(LifeOf(c, id), LifeOf(TakeOffered(c, t).0, id))
    ensures Moves(LifeOf(c, id), LifeOf(WatchStatus(c, t, seen).0, id))
  {
    hide Moves, LifeOf, Emit, AsEnded, InfoOf;
    SameKeysMoves(c, TakeOffered(c, t).0, id);
    SameKeysMoves(c, WatchStatus(c, t, seen).0, id);
  }

  lemma BeginMoves(c: Core, t: string, id: string)
    ensures Moves(LifeOf(c, id), LifeOf(ReserveAccept(c, t).0, id))
    ensures Moves(LifeOf(c, id), LifeOf(ReleaseAccept(c, t), id))
    ensures Moves(LifeOf(c, id), LifeOf(BeginAccept(c, t).0, id))
    ensures Moves(LifeOf(c, id), LifeOf(RefuseAccept(c, t), id))
  {
    hide Moves, LifeOf, LiveCount, IncomingId;
    SameKeysMoves(c, ReserveAccept(c, t).0, id);
    SameKeysMoves(c, ReleaseAccept(c, t), id);
    SameKeysMoves(c, BeginAccept(c, t).0, id);
    SameKeysMoves(c, RefuseAccept(c, t), id);
  }

  lemma OfferStepMoves(w: World, step: OfferStep, id: string)
    requires CanOffer(w, step)
    ensures Moves(LifeOf(w.core, id), LifeOf(DoOffer(w, step).core, id))
  {
    hide Moves, LifeOf, WatchIncoming, TakeOffered, WatchStatus, Say;
    var c := w.core;
    match step
    case Offers(t, route) => OfferedMoves(c, t, route, false, id);
    case Rejects(t) => WatchMoves(c, t, SawOther, id); StillMoves(c, 0, InfoOf(id, Ended), Route(""), id);
    case ReportsRejected(k) => StillMoves(c, k, AsEnded(InfoOf(c.ids[k], Ended), Rejected), Route(""), id);
    case Watches(t, seen) => WatchMoves(c, t, seen, id);
  }

  lemma AcceptStepMoves(w: World, step: AcceptStep, id: string)
    requires CanAccept(w, step) && DirectionOf(id).Outbound?
    ensures Moves(LifeOf(w.core, id), LifeOf(DoAccept(w, step).core, id))
  {
    hide Moves, LifeOf, Say;
    hide ReserveAccept, ReleaseAccept, BeginAccept, RefuseAccept, WatchIncoming, TakeOffered, ConnectAccepted;
    var c := w.core;
    BeginMoves(c, step.token, id);
    StillMoves(c, 0, InfoOf(id, Ended), Route(""), id);
    match step
    case AcceptUnknown(t, route) => OfferedMoves(c, t, route, true, id);
    case AcceptReportsFailed(t) =>
      StillMoves(c, w.accepts[t].source, AsEnded(InfoOf(IncomingId(t), Connected), Failed), Route(""), id);
    case AcceptClears(t) => WatchMoves(c, t, SawOther, id);
    case AcceptConnects(t, route) => AcceptMoves(c, t, w.accepts[t].source, route, id);
    case _ =>
  }

  lemma StepMoves(w: World, step: Step, id: string)
    requires WorldInv(w) && Can(w, step) && DirectionOf(id).Outbound? && LifeOk(LifeOf(w.core, id))
    ensures Moves(LifeOf(w.core, id), LifeOf(Do(w, step).core, id))
  {
    WorldCore(w);
    hide WorldInv, Moves, LifeOf, LifeOk, UsedOk;
    match step
    case Dialling(dial) => DialMoves(w, dial, id);
    case Ending(end) => EndMoves(w, end, id);
    case Control(control) => ControlMoves(w, control, id);
    case Offering(offer) => OfferStepMoves(w, offer, id);
    case Accepting(accept) => AcceptStepMoves(w, accept, id);
  }

  // ----- Uses of ids -----

  /** Uses are only added. */
  lemma UsesStay(c: Core, c': Core, id: string, p: nat)
    requires Grows(c, c') && UsedAt(c, id, p)
    ensures UsedAt(c', id, p) && |c.marks| <= |c'.marks|
  {
    assert c'.marks[p] == c.marks[p];
  }

  // ----- Runs -----

  /** An id with a phase other than `New` has been used. */
  lemma PhaseIsUsed(w: World, id: string) returns (p: nat)
    requires WorldInv(w) && DirectionOf(id).Outbound? && !PhaseOf(w.core, id).New?
    ensures UsedAt(w.core, id, p)
  {
    WorldCore(w);
    hide WorldInv, Inv;
    var c := w.core;
    if UsedFlag(c.used, id).Some? {
      RememberedIffRecent(c, id);
      p :| UsedAt(c, id, p) && |c.marks| - p <= USED_OUTGOING_IDS;
    } else {
      p := OwnedIsUsed(c, id, if id in c.calls then c.calls[id].source else c.ringing[id].source);
    }
  }

  lemma OwnedIsUsed(c: Core, id: string, k: nat) returns (p: nat)
    requires UsedOk(c.used, c.marks, c.ids) && DirectionOf(id).Outbound? && k < |c.ids| && c.ids[k] == id
    ensures UsedAt(c, id, p)
  {
    assert k in c.marks;
    p :| 0 <= p < |c.marks| && c.marks[p] == k;
  }

  /** In every reachable state an outgoing id's maps are consistent, and the next step, whatever it is,
      is a stutter or an edge of the automaton; or the id, used before, becomes new again, and then at
      least 256 uses of other ids have followed every use of it. */
  lemma {:induction false} EveryStepIsAnEdge(steps: seq<Step>, id: string)
    requires Run(steps).Some? && DirectionOf(id).Outbound?
    ensures LifeOk(LifeOf(Run(steps).value.core, id))
    ensures steps != [] ==>
              && Run(steps[..|steps| - 1]).Some?
              && var before, after := Run(steps[..|steps| - 1]).value.core, Run(steps).value.core;
                 || Edge(PhaseOf(before, id), PhaseOf(after, id))
                 || (&& !PhaseOf(before, id).New? && PhaseOf(after, id).New?
                     && (exists p: nat :: UsedAt(after, id, p)) && !Recent(after, id))
  {
    hide WorldInv, Do, Can, Moves, UsedAt, UsedOk;
    if steps != [] {
      var n := |steps| - 1;
      var earlier := steps[..n];
      RunKeeps(earlier);
      EveryStepIsAnEdge(earlier, id);
      var w := Run(earlier).value;
      StepMoves(w, steps[n], id);
      MovesKeepLife(LifeOf(w.core, id), LifeOf(Run(steps).value.core, id));
      RunKeeps(steps);
      WorldCore(Run(steps).value);
      if !PhaseOf(w.core, id).New? && PhaseOf(Run(steps).value.core, id).New? {
        RememberedIffRecent(Run(steps).value.core, id);
        var p := PhaseIsUsed(w, id);
        StepGrows(w, steps[n]);
        UsesStay(w.core, Run(steps).value.core, id, p);
      }
    }
  }

  lemma {:induction false} LifeOnlyGoesForward(w: World, steps: seq<Step>, id: string, p: nat)
    requires WorldInv(w) && RunFrom(w, steps).Some? && DirectionOf(id).Outbound? && LifeOk(LifeOf(w.core, id))
    requires UsedAt(w.core, id, p)
    ensures var c, c' := w.core, RunFrom(w, steps).value.core;
            && LifeOk(LifeOf(c', id)) && |c.marks| <= |c'.marks|
            && (|c'.marks| - p <= USED_OUTGOING_IDS ==> Leads(PhaseOf(c, id), PhaseOf(c', id)))
  {
    hide WorldInv, Do, Can, Makes, UsedAt, UsedOk;
    if steps != [] {
      var earlier, last := steps[..|steps| - 1], steps[|steps| - 1];
      RunFromKeeps(w, earlier);
      LifeOnlyGoesForward(w, earlier, id, p);
      var v, v' := RunFrom(w, earlier).value, RunFrom(w, steps).value;
      StepMoves(v, last, id);
      MovesKeepLife(LifeOf(v.core, id), LifeOf(v'.core, id));
      RunGrows(w, earlier);
      UsesStay(w.core, v.core, id, p);
      StepGrows(v, last);
      UsesStay(v.core, v'.core, id, p);
      RunFromKeeps(w, steps);
      WorldCore(v');
      RememberedIffRecent(v'.core, id);
    }
  }

  /** In every run, while fewer than 256 uses of ids have followed the `p`-th, which was a use of `id`:
      once over, the id never comes back; pre-cancelled, it is never made; connected, it never rings again. */
  lemma OverIsForGood(steps: seq<Step>, more: seq<Step>, id: string, p: nat)
    requires Run(steps).Some? && Run(steps + more).Some? && DirectionOf(id).Outbound?
    requires UsedAt(Run(steps).value.core, id, p)
    requires |Run(steps + more).value.core.marks| - p <= USED_OUTGOING_IDS
    ensures Leads(PhaseOf(Run(steps).value.core, id), PhaseOf(Run(steps + more).value.core, id))
  {
    hide WorldInv, RunFrom, LifeOf, LifeOk, PhaseIn, UsedAt;
    RunSplit(START, steps, more);
    RunKeeps(steps);
    EveryStepIsAnEdge(steps, id);
    LifeOnlyGoesForward(Run(steps).value, more, id, p);
  }

  // ----- What a hangup that finds nothing means -----

  /** `take_for_hangup` finds nothing exactly for ids that are over, pre-cancelled, or not valid for
      an outgoing call. */
  lemma MissingIff(c: Core, id: string)
    ensures TakeForHangup(c, id).1.Missing? <==>
              match PhaseOf(c, id)
              case New => !OutgoingId(id)
              case PreCancelled => true
              case Over => true
              case _ => false
  {
    match PhaseOf(c, id)
    case New =>
    case PreCancelled => assert UsedFlag(c.used, id) == Some(true);
    case Over => assert UsedFlag(c.used, id) == Some(false);
    case _ =>
  }

  /** A call that `hangup` finds nothing of is not lost: every call that was ever reported under the
      id has got its `Ended`, or the section that took it is about to queue it. */
  lemma MissingIsOver(steps: seq<Step>, id: string, k: nat)
    requires Run(steps).Some? && TakeForHangup(Run(steps).value.core, id).1.Missing?
    requires var c := Run(steps).value.core;
             k < |c.ids| && c.ids[k] == id && Reports(c.log.queue, k) != []
    ensures var w := Run(steps).value;
            || Reports(w.core.log.queue, k)[|Reports(w.core.log.queue, k)| - 1].state.Ended?
            || k in w.debts
            || (k in w.attempts && w.attempts[k].canceller.Took?)
  {
    RunKeeps(steps);
    var w := Run(steps).value;
    LastOfReports(w.core.log.queue, k);
    WorldCore(w);
    hide WorldInv, UsedOk, OwnIds;
    if k !in w.core.log.ended { MissingIsOwed(w, id, k); }
  }

  lemma MissingIsOwed(w: World, id: string, k: nat)
    requires WorldInv(w) && TakeForHangup(w.core, id).1.Missing?
    requires k < |w.core.ids| && w.core.ids[k] == id && Last(w.core.log.queue, k).Some? && k !in w.core.log.ended
    ensures k in w.debts || (k in w.attempts && w.attempts[k].canceller.Took?)
  {
    hide Outgoing.AttemptOk, AttemptsOk, OneDial, DebtsOk, AcceptsOk, RequestsOk, SlotsOk, Inv;
  }
}
