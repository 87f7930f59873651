/** The engine's locks: whatever number of threads run its sections, in whatever interleaving, none of
    them waits for ever. */
module Locks {
  import opened Types

  /** `Events(e)` is the gate of one call; `Other` are locks under which no other listed lock is taken:
      the queue's sender, attempt cells, the token, the media session's own. */
  datatype Lock = Calls | PendingOutgoing | Accepting | PendingIncoming | Events(e: nat) | Other(n: nat)

  const QUEUE: Lock := Other(0)
  const TOKEN: Lock := Other(1)
  const CELL: Lock := Other(2)
  const MEDIA: Lock := Other(3)

  /** The documented order; the rest come after. */
  function Rank(l: Lock): nat {
    match l
    case Calls => 0
    case PendingOutgoing => 1
    case Accepting => 2
    case PendingIncoming => 3
    case Events(_) => 4
    case Other(_) => 5
  }

  datatype Op = Take(lock: Lock) | Free(lock: Lock)

  /** The order is kept, except that a holder of `calls` may take one call's gate inside another's. */
  predicate MayTake(held: set<Lock>, l: Lock) {
    l !in held && forall h :: h in held ==> Rank(h) < Rank(l) || (h.Events? && l.Events? && Calls in held)
  }

  /** What is held after `ops`, if they keep the order. */
  function After(held: set<Lock>, ops: seq<Op>): Option<set<Lock>>
    decreases |ops|
  {
    if ops == [] then Some(held)
    else
      match ops[0]
      case Take(l) => if MayTake(held, l) then After(held + {l}, ops[1..]) else None
      case Free(l) => if l in held then After(held - {l}, ops[1..]) else None
  }

  // ----- Threads -----

  datatype Thread = Thread(held: set<Lock>, todo: seq<Op>)

  /** Each thread keeps the order to its end, and no lock is held twice. */
  ghost predicate Valid(ts: seq<Thread>) {
    && (forall t :: 0 <= t < |ts| ==> After(ts[t].held, ts[t].todo) == Some({}))
    && (forall t, u :: 0 <= t < u < |ts| ==> ts[t].held !! ts[u].held)
  }

  predicate Holds(ts: seq<Thread>, l: Lock) {
    exists u :: 0 <= u < |ts| && l in ts[u].held
  }

  predicate CanStep(ts: seq<Thread>, t: nat) {
    t < |ts| && ts[t].todo != [] && (ts[t].todo[0].Take? ==> !Holds(ts, ts[t].todo[0].lock))
  }

  function Step(ts: seq<Thread>, t: nat): seq<Thread>
    requires CanStep(ts, t)
  {
    var op, rest := ts[t].todo[0], ts[t].todo[1..];
    ts[t := match op
            case Take(l) => Thread(ts[t].held + {l}, rest)
            case Free(l) => Thread(ts[t].held - {l}, rest)]
  }

  lemma StepKeeps(ts: seq<Thread>, t: nat)
    requires Valid(ts) && CanStep(ts, t)
    ensures Valid(Step(ts, t))
  {
  }

  function Remaining(ts: seq<Thread>): nat {
    if ts == [] then 0 else |ts[0].todo| + Remaining(ts[1..])
  }

  lemma {:induction false} RemainingUpdate(ts: seq<Thread>, t: nat, th: Thread)
    requires t < |ts|
    ensures Remaining(ts[t := th]) + |ts[t].todo| == Remaining(ts) + |th.todo|
  {
    if t == 0 {
      assert ts[t := th][1..] == ts[1..];
    } else {
      assert ts[t := th][1..] == ts[1..][t - 1 := th];
      RemainingUpdate(ts[1..], t - 1, th);
    }
  }

  lemma {:induction false} SomeRemain(ts: seq<Thread>)
    requires Remaining(ts) > 0
    ensures exists t :: 0 <= t < |ts| && ts[t].todo != []
  {
    if ts[0].todo == [] {
      SomeRemain(ts[1..]);
      var t :| 0 <= t < |ts[1..]| && ts[1..][t].todo != [];
      assert ts[t + 1].todo != [];
    }
  }

  // ----- No deadlock -----

  /** Of the threads among the first `n` that have something to do, one whose next lock ranks highest. */
  lemma {:induction false} Highest(ts: seq<Thread>, n: nat) returns (t: nat)
    requires n <= |ts| && exists u :: 0 <= u < n && ts[u].todo != []
    ensures t < n && ts[t].todo != []
    ensures forall u :: 0 <= u < n && ts[u].todo != [] ==> Rank(ts[u].todo[0].lock) <= Rank(ts[t].todo[0].lock)
  {
    if exists u :: 0 <= u < n - 1 && ts[u].todo != [] {
      t := Highest(ts, n - 1);
      if ts[n - 1].todo != [] && Rank(ts[n - 1].todo[0].lock) > Rank(ts[t].todo[0].lock) { t := n - 1; }
    } else {
      t := n - 1;
    }
  }

  /** A thread that holds something is not done, and what it waits for ranks above it, or is the gate
      of one more call, taken under `calls`. */
  lemma HolderGoesOn(th: Thread, l: Lock)
    requires After(th.held, th.todo) == Some({}) && l in th.held
    ensures th.todo != []
    ensures th.todo[0].Take? ==>
              var next := th.todo[0].lock;
              next !in th.held && (Rank(l) < Rank(next) || (l.Events? && next.Events? && Calls in th.held))
  {
  }

  /** As long as some thread has something left to do, some thread can go on. */
  lemma NoDeadlock(ts: seq<Thread>) returns (t: nat)
    requires Valid(ts) && Remaining(ts) > 0
    ensures CanStep(ts, t)
  {
    SomeRemain(ts);
    t := Highest(ts, |ts|);
    if !CanStep(ts, t) {
      var l := ts[t].todo[0].lock;
      var u: nat :| u < |ts| && l in ts[u].held;
      HolderGoesOn(ts[u], l);
      t := u;
      if !CanStep(ts, u) {
        // `u` nests gates, so it is the one thread that holds `calls`.
        var next := ts[u].todo[0].lock;
        var v: nat :| v < |ts| && next in ts[v].held;
        HolderGoesOn(ts[v], next);
        assert v != u;
        t := v;
      }
    }
  }

  /** `n` threads that have nothing left to do, and hold nothing. */
  predicate Finished(ts: seq<Thread>, n: nat) {
    |ts| == n && forall t :: 0 <= t < n ==> ts[t] == Thread({}, [])
  }

  /** Every thread gets to its end: whatever has happened, the threads can be run on until none has
      anything left to do, and they hold no lock then. */
  lemma {:induction false} AllFinish(ts: seq<Thread>) returns (schedule: seq<nat>)
    requires Valid(ts)
    ensures |schedule| == Remaining(ts)
    ensures Scheduled(ts, schedule).Some? && Finished(Scheduled(ts, schedule).value, |ts|)
    decreases Remaining(ts)
  {
    if Remaining(ts) == 0 {
      schedule := [];
      AllDone(ts);
      forall t | 0 <= t < |ts| ensures ts[t] == Thread({}, []) { assert After(ts[t].held, []) == Some(ts[t].held); }
    } else {
      var t := NoDeadlock(ts);
      var ts' := Step(ts, t);
      StepKeeps(ts, t);
      RemainingUpdate(ts, t, ts'[t]);
      var rest := AllFinish(ts');
      schedule := [t] + rest;
      assert schedule[1..] == rest;
    }
  }

  lemma {:induction false} AllDone(ts: seq<Thread>)
    requires Remaining(ts) == 0
    ensures forall t :: 0 <= t < |ts| ==> ts[t].todo == []
  {
    if ts != [] {
      AllDone(ts[1..]);
      forall t | 0 <= t < |ts| ensures ts[t].todo == [] {
        if t > 0 { assert ts[t] == ts[1..][t - 1]; } else { assert |ts[0].todo| == 0; }
      }
    }
  }

  /** The threads after the steps of `schedule`, if each of them could happen. */
  function Scheduled(ts: seq<Thread>, schedule: seq<nat>): Option<seq<Thread>>
    decreases |schedule|
  {
    if schedule == [] then Some(ts)
    else if CanStep(ts, schedule[0]) then Scheduled(Step(ts, schedule[0]), schedule[1..])
    else None
  }

  lemma {:induction false} ScheduledKeeps(ts: seq<Thread>, schedule: seq<nat>)
    requires Valid(ts) && Scheduled(ts, schedule).Some?
    ensures Valid(Scheduled(ts, schedule).value)
    decreases |schedule|
  {
    if schedule != [] {
      StepKeeps(ts, schedule[0]);
      ScheduledKeeps(Step(ts, schedule[0]), schedule[1..]);
    }
  }

  // ----- The engine's sections -----

  /** A whole section: it starts and ends holding nothing. */
  predicate Section(ops: seq<Op>) {
    After({}, ops) == Some({})
  }

  lemma {:induction false} AfterBoth(held: set<Lock>, a: seq<Op>, b: seq<Op>)
    ensures After(held, a + b) == if After(held, a).Some? then After(After(held, a).value, b) else None
    decreases |a|
  {
    if a == [] {
      assert a + b == b;
    } else {
      assert (a + b)[1..] == a[1..] + b;
      AfterBoth(match a[0] case Take(l) => held + {l} case Free(l) => held - {l}, a[1..], b);
    }
  }

  /** `lock` around `inner`. */
  function Under(lock: Lock, inner: seq<Op>): seq<Op> {
    [Take(lock)] + inner + [Free(lock)]
  }

  lemma UnderKeeps(held: set<Lock>, lock: Lock, inner: seq<Op>)
    requires MayTake(held, lock) && After(held + {lock}, inner) == Some(held + {lock})
    ensures After(held, Under(lock, inner)) == Some(held)
  {
    var ops := Under(lock, inner);
    assert ops[1..] == inner + [Free(lock)];
    AfterBoth(held + {lock}, inner, [Free(lock)]);
    assert [Free(lock)][1..] == [];
    assert held + {lock} - {lock} == held;
  }

  /** `CallEvents::emit`: the event is sent inside the call's gate. */
  function EmitOps(e: nat): seq<Op> {
    Under(Events(e), Under(QUEUE, []))
  }

  lemma EmitKeeps(held: set<Lock>, e: nat)
    requires MayTake(held, Events(e)) && forall h :: h in held ==> Rank(h) <= 4
    ensures After(held, EmitOps(e)) == Some(held)
  {
    UnderKeeps(held + {Events(e)}, QUEUE, []);
    UnderKeeps(held, Events(e), Under(QUEUE, []));
  }

  /** `hold_others`, reporting the calls `others`. */
  function HoldOps(others: seq<nat>): seq<Op> {
    if others == [] then [] else EmitOps(others[0]) + HoldOps(others[1..])
  }

  lemma {:induction false} HoldKeeps(held: set<Lock>, others: seq<nat>)
    requires Calls in held && (forall h :: h in held ==> Rank(h) <= 4)
    requires forall o :: o in others ==> Events(o) !in held
    ensures After(held, HoldOps(others)) == Some(held)
  {
    if others != [] {
      EmitKeeps(held, others[0]);
      HoldKeeps(held, others[1..]);
      AfterBoth(held, EmitOps(others[0]), HoldOps(others[1..]));
    }
  }

  /** `set_hold`, `swap_calls` and `set_mute`: everything under `calls`, each report in its own gate. */
  function ControlOps(others: seq<nat>): seq<Op> {
    Under(Calls, HoldOps(others))
  }

  /** `take_call` and `end_call_locally`: the call is taken under `calls` and reported afterwards. */
  function EndOps(e: nat): seq<Op> {
    Under(Calls, []) + EmitOps(e)
  }

  /** `reserve_outgoing`: the offers' routes are read first; the pin reads the cells of ringing calls. */
  function ReserveOps(e: nat): seq<Op> {
    Under(PendingIncoming, [])
    + Under(Calls, Under(PendingOutgoing, Under(Accepting, Under(CELL, [])) + Under(TOKEN, []) + EmitOps(e)))
  }

  /** `dial` connects its call: the others are held, its media starts, it is reported. */
  function ConnectOps(e: nat, others: seq<nat>): seq<Op> {
    Under(Calls, Under(PendingOutgoing, HoldOps(others) + Under(MEDIA, []) + EmitOps(e)))
  }

  /** `take_for_hangup` of a ringing call, then `cancel_ringing`. */
  function HangupOps(e: nat): seq<Op> {
    Under(Calls, Under(PendingOutgoing, [])) + EmitOps(e) + Under(TOKEN, [])
  }

  /** `reserve_accept` */
  function ReserveAcceptOps(): seq<Op> {
    Under(Calls, Under(PendingOutgoing, Under(Accepting, [])))
  }

  /** `answer_offer` connects its call: the slot is given back, and the others are held inside the gate of
      the new call `e`. */
  function AnswerOps(e: nat, others: seq<nat>): seq<Op> {
    Under(Calls, Under(Accepting, []) + Under(Events(e), HoldOps(others) + Under(QUEUE, [])) + Under(MEDIA, []))
  }

  /** The incoming watch: decided, and reported, under the offers' lock. */
  function WatchOps(e: nat): seq<Op> {
    Under(PendingIncoming, EmitOps(e))
  }

  lemma ControlIsSection(others: seq<nat>)
    ensures Section(ControlOps(others))
  {
    HoldKeeps({} + {Calls}, others);
    UnderKeeps({}, Calls, HoldOps(others));
  }

  lemma EndIsSection(e: nat)
    ensures Section(EndOps(e))
  {
    UnderKeeps({}, Calls, []);
    EmitKeeps({}, e);
    AfterBoth({}, Under(Calls, []), EmitOps(e));
  }

  lemma ReserveIsSection(e: nat)
    ensures Section(ReserveOps(e))
  {
    var h2 := {} + {Calls} + {PendingOutgoing};
    UnderKeeps({}, PendingIncoming, []);
    UnderKeeps(h2 + {Accepting}, CELL, []);
    UnderKeeps(h2, Accepting, Under(CELL, []));
    UnderKeeps(h2, TOKEN, []);
    EmitKeeps(h2, e);
    var a, b, c := Under(Accepting, Under(CELL, [])), Under(TOKEN, []), EmitOps(e);
    AfterBoth(h2, a, b);
    AfterBoth(h2, a + b, c);
    UnderKeeps({} + {Calls}, PendingOutgoing, a + b + c);
    UnderKeeps({}, Calls, Under(PendingOutgoing, a + b + c));
    AfterBoth({}, Under(PendingIncoming, []), Under(Calls, Under(PendingOutgoing, a + b + c)));
  }

  lemma ConnectIsSection(e: nat, others: seq<nat>)
    ensures Section(ConnectOps(e, others))
  {
    var h2 := {} + {Calls} + {PendingOutgoing};
    HoldKeeps(h2, others);
    UnderKeeps(h2, MEDIA, []);
    EmitKeeps(h2, e);
    var a, b, c := HoldOps(others), Under(MEDIA, []), EmitOps(e);
    AfterBoth(h2, a, b);
    AfterBoth(h2, a + b, c);
    UnderKeeps({} + {Calls}, PendingOutgoing, a + b + c);
    UnderKeeps({}, Calls, Under(PendingOutgoing, a + b + c));
  }

  lemma HangupIsSection(e: nat)
    ensures Section(HangupOps(e))
  {
    var a, b, c := Under(Calls, Under(PendingOutgoing, [])), EmitOps(e), Under(TOKEN, []);
    UnderKeeps({} + {Calls}, PendingOutgoing, []);
    UnderKeeps({}, Calls, Under(PendingOutgoing, []));
    EmitKeeps({}, e);
    UnderKeeps({}, TOKEN, []);
    AfterBoth({}, a, b);
    AfterBoth({}, a + b, c);
  }

  lemma ReserveAcceptIsSection()
    ensures Section(ReserveAcceptOps())
  {
    UnderKeeps({} + {Calls} + {PendingOutgoing}, Accepting, []);
    UnderKeeps({} + {Calls}, PendingOutgoing, Under(Accepting, []));
    UnderKeeps({}, Calls, Under(PendingOutgoing, Under(Accepting, [])));
  }

  lemma AnswerIsSection(e: nat, others: seq<nat>)
    requires e !in others
    ensures Section(AnswerOps(e, others))
  {
    var h1 := {} + {Calls};
    var h2 := h1 + {Events(e)};
    UnderKeeps(h1, Accepting, []);
    HoldKeeps(h2, others);
    UnderKeeps(h2, QUEUE, []);
    AfterBoth(h2, HoldOps(others), Under(QUEUE, []));
    UnderKeeps(h1, Events(e), HoldOps(others) + Under(QUEUE, []));
    UnderKeeps(h1, MEDIA, []);
    var a, b, c := Under(Accepting, []), Under(Events(e), HoldOps(others) + Under(QUEUE, [])), Under(MEDIA, []);
    AfterBoth(h1, a, b);
    AfterBoth(h1, a + b, c);
    UnderKeeps({}, Calls, a + b + c);
  }

  lemma WatchIsSection(e: nat)
    ensures Section(WatchOps(e))
  {
    EmitKeeps({} + {PendingIncoming}, e);
    UnderKeeps({}, PendingIncoming, EmitOps(e));
  }

  lemma {:induction false} SelfHold(held: set<Lock>, e: nat, others: seq<nat>)
    requires Events(e) in held && e in others
    ensures After(held, HoldOps(others)).None?
  {
    AfterBoth(held, EmitOps(others[0]), HoldOps(others[1..]));
    if others[0] != e && After(held, EmitOps(others[0])).Some? {
      EmitGivesBack(held, others[0]);
      SelfHold(held, e, others[1..]);
    }
  }

  /** A lock around something that gives back what it takes gives back what it takes. */
  lemma UnderGivesBack(held: set<Lock>, lock: Lock, inner: seq<Op>)
    requires After(held + {lock}, inner).None? || After(held + {lock}, inner) == Some(held + {lock})
    ensures After(held, Under(lock, inner)).None? || After(held, Under(lock, inner)) == Some(held)
  {
    var ops := Under(lock, inner);
    assert ops[0] == Take(lock) && ops[1..] == inner + [Free(lock)];
    if MayTake(held, lock) {
      AfterBoth(held + {lock}, inner, [Free(lock)]);
      if After(held + {lock}, inner).Some? { UnderKeeps(held, lock, inner); }
    }
  }

  lemma EmitGivesBack(held: set<Lock>, e: nat)
    requires After(held, EmitOps(e)).Some?
    ensures After(held, EmitOps(e)) == Some(held)
  {
    UnderGivesBack(held + {Events(e)}, QUEUE, []);
    UnderGivesBack(held, Events(e), Under(QUEUE, []));
  }

  lemma SelfHoldFails(held: set<Lock>, e: nat, others: seq<nat>)
    requires e in others
    ensures After(held, Under(Events(e), HoldOps(others) + Under(QUEUE, []))).None?
  {
    var inner := HoldOps(others) + Under(QUEUE, []);
    SelfHold(held + {Events(e)}, e, others);
    AfterBoth(held + {Events(e)}, HoldOps(others), Under(QUEUE, []));
    AfterBoth(held + {Events(e)}, inner, [Free(Events(e))]);
    assert Under(Events(e), inner)[1..] == inner + [Free(Events(e))];
    hide HoldOps, MayTake;
  }

  /** The section in which an accepted call connects is safe exactly because that call is not one of those
      it holds: a gate taken inside itself waits for ever. */
  lemma AnswerIsSectionIff(e: nat, others: seq<nat>)
    ensures Section(AnswerOps(e, others)) <==> e !in others
  {
    if e !in others {
      AnswerIsSection(e, others);
    } else {
      hide HoldOps, MayTake;
      var h1 := {} + {Calls};
      var a, b, c := Under(Accepting, []), Under(Events(e), HoldOps(others) + Under(QUEUE, [])), Under(MEDIA, []);
      SlotIsBalanced(h1);
      SelfHoldFails(h1, e, others);
      AfterBoth(h1, a, b);
      AfterBoth(h1, a + b, c);
      AfterBoth(h1, a + b + c, [Free(Calls)]);
      assert AnswerOps(e, others)[1..] == a + b + c + [Free(Calls)];
    }
  }

  lemma SlotIsBalanced(held: set<Lock>)
    requires held == {Calls}
    ensures After(held, Under(Accepting, [])) == Some(held)
  {
    UnderKeeps(held, Accepting, []);
  }

  // ----- Threads that run the engine's sections -----

  /** One run through a section of the engine: `e` is the call it is about, `others` are those it holds. */
  datatype Visit =
    | Controls(others: seq<nat>)
    | Ends(e: nat)
    | Reserves(e: nat)
    | Connects(e: nat, others: seq<nat>)
    | HangsUp(e: nat)
    | ReservesAccept
    | Answers(e: nat, others: seq<nat>)
    | Watches(e: nat)

  function OpsOf(v: Visit): seq<Op> {
    match v
    case Controls(others) => ControlOps(others)
    case Ends(e) => EndOps(e)
    case Reserves(e) => ReserveOps(e)
    case Connects(e, others) => ConnectOps(e, others)
    case HangsUp(e) => HangupOps(e)
    case ReservesAccept => ReserveAcceptOps()
    case Answers(e, others) => AnswerOps(e, others)
    case Watches(e) => WatchOps(e)
  }

  /** A call that is answered is not among those held for it. */
  predicate Proper(v: Visit) {
    v.Answers? ==> v.e !in v.others
  }

  /** Every section of the engine keeps the order, the one that answers a call exactly if that call is not
      among those it holds. */
  lemma SectionsKeepOrder(v: Visit)
    ensures Section(OpsOf(v)) <==> Proper(v)
  {
    match v
    case Controls(others) => ControlIsSection(others);
    case Ends(e) => EndIsSection(e);
    case Reserves(e) => ReserveIsSection(e);
    case Connects(e, others) => ConnectIsSection(e, others);
    case HangsUp(e) => HangupIsSection(e);
    case ReservesAccept => ReserveAcceptIsSection();
    case Answers(e, others) => AnswerIsSectionIff(e, others);
    case Watches(e) => WatchIsSection(e);
  }

  /** Sections one after the other. */
  function ProgramOf(visits: seq<Visit>): seq<Op> {
    if visits == [] then [] else OpsOf(visits[0]) + ProgramOf(visits[1..])
  }

  lemma {:induction false} ProgramIsSection(visits: seq<Visit>)
    requires forall v :: v in visits ==> Proper(v)
    ensures Section(ProgramOf(visits))
  {
    if visits != [] {
      SectionsKeepOrder(visits[0]);
      ProgramIsSection(visits[1..]);
      AfterBoth({}, OpsOf(visits[0]), ProgramOf(visits[1..]));
    }
  }

  function Programs(threads: seq<seq<Visit>>): seq<seq<Op>> {
    seq(|threads|, i requires 0 <= i < |threads| => ProgramOf(threads[i]))
  }

  /** Any number of threads that each run through any of the engine's sections, any number of times and in
      any order: however far they have got, they can all get to their end. */
  lemma NobodyWaitsForEver(threads: seq<seq<Visit>>, schedule: seq<nat>) returns (more: seq<nat>)
    requires forall t, i :: 0 <= t < |threads| && 0 <= i < |threads[t]| ==> Proper(threads[t][i])
    requires Scheduled(Started(Programs(threads)), schedule).Some?
    ensures var ts := Scheduled(Started(Programs(threads)), schedule).value;
            Scheduled(ts, more).Some? && Finished(Scheduled(ts, more).value, |threads|)
  {
    var programs := Programs(threads);
    forall t | 0 <= t < |programs| ensures Section(programs[t]) { ProgramIsSection(threads[t]); }
    more := SectionsFinish(programs, schedule);
  }

  lemma SectionsFinish(programs: seq<seq<Op>>, schedule: seq<nat>) returns (more: seq<nat>)
    requires forall t :: 0 <= t < |programs| ==> Section(programs[t])
    requires Scheduled(Started(programs), schedule).Some?
    ensures var ts := Scheduled(Started(programs), schedule).value;
            Scheduled(ts, more).Some? && Finished(Scheduled(ts, more).value, |programs|)
  {
    var ts := Started(programs);
    assert Valid(ts);
    ScheduledKeeps(ts, schedule);
    SameThreads(ts, schedule);
    more := AllFinish(Scheduled(ts, schedule).value);
  }

  function Started(programs: seq<seq<Op>>): seq<Thread> {
    seq(|programs|, i requires 0 <= i < |programs| => Thread({}, programs[i]))
  }

  lemma {:induction false} SameThreads(ts: seq<Thread>, schedule: seq<nat>)
    requires Scheduled(ts, schedule).Some?
    ensures |Scheduled(ts, schedule).value| == |ts|
    decreases |schedule|
  {
    if schedule != [] { SameThreads(Step(ts, schedule[0]), schedule[1..]); }
  }
}
