/** What the gateway's answers about the legs of a transfer mean, told from all answers so far: which legs
    have followed, and which answer decides the transfer. Times are in milliseconds. */
module Outcomes {
  import opened Types
  import Polls

  datatype Outcome =
    | NoField            // the gateway does not report outcomes
    | Undecided
    | Refused(code: Option<nat>)  // `failed`, with the SIP status if it was reported

  /** What a status request brought back. `reason` is what an end would be reported as. */
  datatype Reply =
    | Status(status: string, reason: EndReason, outcome: Outcome)
    | Unauthorized
    | Unreachable

  /** One leg's turn within a round: the legs that other threads took out of the call map since the
      last turn, and the answer to this leg's status request. */
  datatype Turn = Turn(taken: set<nat>, reply: Reply)

  /** One round: whether there was a gateway token, the legs' turns, and the clock at its end. */
  datatype Round = Round(token: bool, turns: seq<Turn>, now: nat)

  /** `poll_interval`, `transfer_timeout` and `TRANSFER_SETTLE`. */
  datatype Times = Times(interval: nat, timeout: nat, settle: nat)

  /** `TRANSFER_SETTLE.min(transfer_timeout)` */
  function Settle(times: Times): (s: nat)
    ensures s <= times.settle && s <= times.timeout && (s == times.settle || s == times.timeout)
  {
    if times.settle < times.timeout then times.settle else times.timeout
  }

  /** Every leg has a turn in every round. */
  predicate Full(rounds: seq<Round>, count: nat) {
    forall r :: 0 <= r < |rounds| ==> |rounds[r].turns| == count
  }

  /** Turn `j` of round `q` comes before turn `i` of round `r`. */
  predicate Before(q: nat, j: nat, r: nat, i: nat) {
    q < r || (q == r && j < i)
  }

  function ReplyIn(rounds: seq<Round>, count: nat, i: nat, r: nat): Reply
    requires Full(rounds, count) && i < count && r < |rounds|
  {
    rounds[r].turns[i].reply
  }

  function PollReply(reply: Reply): Polls.Reply {
    if reply.Status? then Polls.Status(reply.status) else Polls.Failed(reply.Unauthorized?)
  }

  /** What leg `i` was answered in the first `n` rounds. */
  function Replies(rounds: seq<Round>, count: nat, i: nat, n: nat): seq<Polls.Reply>
    requires Full(rounds, count) && i < count && n <= |rounds|
  {
    if n == 0 then [] else Replies(rounds, count, i, n - 1) + [PollReply(ReplyIn(rounds, count, i, n - 1))]
  }

  /** Leg `i` is over at the gateway, says the answer in round `r`: it is `ended`, or the third `unknown` in
      a row. */
  predicate Gone(rounds: seq<Round>, count: nat, i: nat, r: nat)
    requires Full(rounds, count)
  {
    && i < count && r < |rounds| && ReplyIn(rounds, count, i, r).Status?
    && Polls.Verdict(Replies(rounds, count, i, r + 1))
  }

  predicate OwnTransfer(rounds: seq<Round>, count: nat, i: nat, r: nat)
    requires Full(rounds, count)
  {
    Gone(rounds, count, i, r) && ReplyIn(rounds, count, i, r).reason.Transferred?
  }

  /** Before turn `i` of round `r`, some leg was over because it was transferred. */
  ghost predicate Succeeded(rounds: seq<Round>, count: nat, r: nat, i: nat)
    requires Full(rounds, count)
  {
    exists q: nat, j: nat :: Before(q, j, r, i) && OwnTransfer(rounds, count, j, q)
  }

  /** Leg `i` followed the transfer in round `r`: it was over, because it was transferred, or after another
      one was. */
  ghost predicate Followed(rounds: seq<Round>, count: nat, i: nat, r: nat)
    requires Full(rounds, count)
  {
    Gone(rounds, count, i, r) && (ReplyIn(rounds, count, i, r).reason.Transferred? || Succeeded(rounds, count, r, i))
  }

  ghost predicate FollowedBefore(rounds: seq<Round>, count: nat, l: nat, r: nat, i: nat)
    requires Full(rounds, count)
  {
    exists q: nat :: Before(q, l, r, i) && Followed(rounds, count, l, q)
  }

  ghost predicate GoneBefore(rounds: seq<Round>, count: nat, i: nat, r: nat)
    requires Full(rounds, count)
  {
    exists q: nat :: q < r && Gone(rounds, count, i, q)
  }

  /** The result that turn `i` of round `r` decides on, if it does. */
  ghost function Decision(rounds: seq<Round>, count: nat, r: nat, i: nat): Option<Result<(), MobileError>>
    requires Full(rounds, count) && r < |rounds| && i < count
  {
    var reply := ReplyIn(rounds, count, i, r);
    if GoneBefore(rounds, count, i, r) || reply.Unreachable? then None
    else if reply.Unauthorized? then Some(Err(AuthenticationError))
    else if Gone(rounds, count, i, r) then
      if Followed(rounds, count, i, r) then None else Some(Err(InvalidState))
    else if reply.status != "active" || Succeeded(rounds, count, r, i) then None
    else
      match reply.outcome
      case NoField => Some(Ok(()))
      case Refused(code) => Some(Err(if code == Some(408) then Timeout else CallFailed))
      case Undecided => None
  }

  /** No turn before turn `i` of round `r` decides. */
  ghost predicate PassedOver(rounds: seq<Round>, count: nat, r: nat, i: nat)
    requires Full(rounds, count)
  {
    forall q: nat, j: nat :: q < |rounds| && j < count && Before(q, j, r, i) ==> Decision(rounds, count, q, j).None?
  }

  /** Another thread took leg `l` out of the call map before turn `i` of round `r`. */
  ghost predicate TakenBefore(rounds: seq<Round>, count: nat, l: nat, r: nat, i: nat)
    requires Full(rounds, count)
  {
    exists q: nat, j: nat :: q < |rounds| && j < count && Before(q, j, r, i) && l in rounds[q].turns[j].taken
  }

  // ----- The end of a round -----

  ghost predicate AllFollowedBy(rounds: seq<Round>, count: nat, r: nat)
    requires Full(rounds, count)
  {
    forall l: nat :: l < count ==> FollowedBefore(rounds, count, l, r, count)
  }

  /** After round `r` the time is over: the settle time since some leg was seen transferred, or, if none was,
      the transfer timeout. */
  ghost predicate Overdue(rounds: seq<Round>, count: nat, start: nat, times: Times, r: nat)
    requires Full(rounds, count) && r < |rounds|
  {
    if Succeeded(rounds, count, r, count) then
      exists f: nat :: f <= r && Succeeded(rounds, count, f, count) && rounds[r].now >= rounds[f].now + Settle(times)
    else rounds[r].now >= start + times.timeout
  }

  // ----- Where the loop is -----

  /** Before turn `i` of round `r`, the legs marked are those that have followed, and no other leg is over. */
  ghost predicate Marked(rounds: seq<Round>, count: nat, r: nat, i: nat, transferred: seq<bool>)
    requires Full(rounds, count)
  {
    && |transferred| == count
    && (forall l: nat :: l < count && transferred[l] ==> FollowedBefore(rounds, count, l, r, i))
    && (forall l: nat, q: nat :: l < count && Before(q, l, r, i) && Gone(rounds, count, l, q) ==> transferred[l])
  }

  /** The legs' counts of `unknown` answers in a row. */
  predicate Counted(rounds: seq<Round>, count: nat, r: nat, i: nat, transferred: seq<bool>, streaks: seq<nat>)
    requires Full(rounds, count) && |transferred| == count
  {
    && |streaks| == count && r <= |rounds| && (i > 0 ==> r < |rounds|)
    && forall l: nat :: l < count && !transferred[l] ==>
        streaks[l] == Streak(rounds, count, l, if l < i then r + 1 else r)
  }

  function Streak(rounds: seq<Round>, count: nat, l: nat, n: nat): nat
    requires Full(rounds, count) && l < count && n <= |rounds|
  {
    Polls.TrailingUnknown(Polls.Answered(Replies(rounds, count, l, n)))
  }

  predicate Any(transferred: seq<bool>) {
    exists i :: 0 <= i < |transferred| && transferred[i]
  }

  predicate All(transferred: seq<bool>) {
    forall i :: 0 <= i < |transferred| ==> transferred[i]
  }

  lemma SucceededLater(rounds: seq<Round>, count: nat, q: nat, j: nat, r: nat, i: nat)
    requires Full(rounds, count) && Succeeded(rounds, count, q, j) && (Before(q, j, r, i) || (q == r && j == i))
    ensures Succeeded(rounds, count, r, i)
  {
    hide OwnTransfer;
    var p: nat, k: nat :| Before(p, k, q, j) && OwnTransfer(rounds, count, k, p);
    assert Before(p, k, r, i);
  }

  /** Some leg is marked exactly if one was transferred. */
  lemma AnyIffSucceeded(rounds: seq<Round>, count: nat, r: nat, i: nat, transferred: seq<bool>)
    requires Full(rounds, count) && Marked(rounds, count, r, i, transferred)
    ensures Any(transferred) <==> Succeeded(rounds, count, r, i)
  {
    hide Polls.Verdict, Replies;
    if Any(transferred) {
      var l: nat :| l < count && transferred[l];
      var q: nat :| Before(q, l, r, i) && Followed(rounds, count, l, q);
      if ReplyIn(rounds, count, l, q).reason.Transferred? { assert OwnTransfer(rounds, count, l, q); }
      else { SucceededLater(rounds, count, q, l, r, i); }
    }
    if Succeeded(rounds, count, r, i) {
      var q: nat, j: nat :| Before(q, j, r, i) && OwnTransfer(rounds, count, j, q);
      assert transferred[j];
    }
  }

  lemma MarkedIffFollowed(rounds: seq<Round>, count: nat, r: nat, i: nat, transferred: seq<bool>)
    requires Full(rounds, count) && Marked(rounds, count, r, i, transferred)
    ensures forall l: nat :: l < count ==> (transferred[l] <==> FollowedBefore(rounds, count, l, r, i))
  {
    hide Polls.Verdict, Replies, Succeeded;
    forall l: nat | l < count && FollowedBefore(rounds, count, l, r, i) ensures transferred[l] {
      var q: nat :| Before(q, l, r, i) && Followed(rounds, count, l, q);
      assert Gone(rounds, count, l, q);
    }
  }

  /** At its turn, a leg is marked exactly if it was over in an earlier round. */
  lemma MarkedIffGone(rounds: seq<Round>, count: nat, r: nat, i: nat, transferred: seq<bool>)
    requires Full(rounds, count) && i < count && Marked(rounds, count, r, i, transferred)
    ensures transferred[i] <==> GoneBefore(rounds, count, i, r)
  {
    hide Gone, Succeeded;
    if transferred[i] {
      var q: nat :| Before(q, i, r, i) && Followed(rounds, count, i, q);
      assert q < r && Gone(rounds, count, i, q);
    }
    if GoneBefore(rounds, count, i, r) {
      var q: nat :| q < r && Gone(rounds, count, i, q);
      assert Before(q, i, r, i);
    }
  }

  /** The detector's count says at a leg's turn what the answers say. */
  lemma CountSaysGone(rounds: seq<Round>, count: nat, r: nat, i: nat)
    requires Full(rounds, count) && i < count && r < |rounds|
    ensures var reply, streak := ReplyIn(rounds, count, i, r), Streak(rounds, count, i, r);
            && (reply.Status? ==> (Gone(rounds, count, i, r) <==> Polls.GoneNow(streak, reply.status)))
            && (!Gone(rounds, count, i, r) ==>
                  Streak(rounds, count, i, r + 1) ==
                  if reply.Status? then Polls.NextStreak(streak, reply.status) else streak)
  {
    var before, reply := Replies(rounds, count, i, r), ReplyIn(rounds, count, i, r);
    if reply.Status? { Polls.CountingIsEnough(before, reply.status); }
    else { Polls.NotAnswered(before, PollReply(reply)); }
    hide Polls.Verdict, Polls.TrailingUnknown, Polls.Answered;
  }

  // ----- One turn on, one round on -----

  lemma StartsMarked(rounds: seq<Round>, count: nat, transferred: seq<bool>, streaks: seq<nat>)
    requires Full(rounds, count) && |transferred| == |streaks| == count
    requires forall l: nat :: l < count ==> !transferred[l] && streaks[l] == 0
    ensures Marked(rounds, count, 0, 0, transferred) && Counted(rounds, count, 0, 0, transferred, streaks)
    ensures PassedOver(rounds, count, 0, 0)
  {
  }

  lemma MarkNext(rounds: seq<Round>, count: nat, r: nat, i: nat, transferred: seq<bool>)
    requires Full(rounds, count) && i < count && Marked(rounds, count, r, i, transferred)
    requires Gone(rounds, count, i, r) ==> transferred[i] || Followed(rounds, count, i, r)
    ensures Marked(rounds, count, r, i + 1, transferred[i := transferred[i] || Followed(rounds, count, i, r)])
  {
    hide Gone, Followed;
    var transferred' := transferred[i := transferred[i] || Followed(rounds, count, i, r)];
    forall l: nat | l < count && transferred'[l] ensures FollowedBefore(rounds, count, l, r, i + 1) {
      if transferred[l] {
        var q: nat :| Before(q, l, r, i) && Followed(rounds, count, l, q);
        assert Before(q, l, r, i + 1);
      } else {
        assert Before(r, l, r, i + 1);
      }
    }
    forall l: nat, q: nat | l < count && Before(q, l, r, i + 1) && Gone(rounds, count, l, q) ensures transferred'[l] {
      if !Before(q, l, r, i) { assert q == r && l == i; }
    }
  }

  lemma CountNext(rounds: seq<Round>, count: nat, r: nat, i: nat, transferred: seq<bool>, streaks: seq<nat>,
                  followed: bool, streak: nat)
    requires Full(rounds, count) && i < count && r < |rounds| && |transferred| == count
    requires Counted(rounds, count, r, i, transferred, streaks)
    requires !transferred[i] && !followed ==> streak == Streak(rounds, count, i, r + 1)
    ensures Counted(rounds, count, r, i + 1, transferred[i := transferred[i] || followed], streaks[i := streak])
  {
    hide Streak;
  }

  lemma PassNext(rounds: seq<Round>, count: nat, r: nat, i: nat)
    requires Full(rounds, count) && i < count && r < |rounds|
    requires PassedOver(rounds, count, r, i) && Decision(rounds, count, r, i).None?
    ensures PassedOver(rounds, count, r, i + 1)
  {
    hide Decision;
    forall q: nat, j: nat | q < |rounds| && j < count && Before(q, j, r, i + 1)
      ensures Decision(rounds, count, q, j).None?
    {
      if !Before(q, j, r, i) { assert q == r && j == i; }
    }
  }

  lemma NextRound(rounds: seq<Round>, count: nat, r: nat, transferred: seq<bool>, streaks: seq<nat>)
    requires Full(rounds, count) && r < |rounds| && Marked(rounds, count, r, count, transferred)
    requires Counted(rounds, count, r, count, transferred, streaks) && PassedOver(rounds, count, r, count)
    ensures Marked(rounds, count, r + 1, 0, transferred) && PassedOver(rounds, count, r + 1, 0)
    ensures Counted(rounds, count, r + 1, 0, transferred, streaks)
  {
    hide Gone, Decision, Streak, Followed;
    forall l: nat | l < count && transferred[l] ensures FollowedBefore(rounds, count, l, r + 1, 0) {
      var q: nat :| Before(q, l, r, count) && Followed(rounds, count, l, q);
      assert Before(q, l, r + 1, 0);
    }
    forall l: nat, q: nat | l < count && Before(q, l, r + 1, 0) && Gone(rounds, count, l, q) ensures transferred[l] {
      assert Before(q, l, r, count);
    }
    forall q: nat, j: nat | q < |rounds| && j < count && Before(q, j, r + 1, 0)
      ensures Decision(rounds, count, q, j).None?
    {
      assert Before(q, j, r, count);
    }
  }

  /** When a round is over, all legs are marked exactly if all have followed. */
  lemma AllIffFollowed(rounds: seq<Round>, count: nat, r: nat, transferred: seq<bool>)
    requires Full(rounds, count) && Marked(rounds, count, r, count, transferred)
    ensures All(transferred) <==> AllFollowedBy(rounds, count, r)
  {
    hide Polls.Verdict, Replies, Succeeded;
    if AllFollowedBy(rounds, count, r) {
      forall l | 0 <= l < count ensures transferred[l] {
        assert FollowedBefore(rounds, count, l, r, count);
        var q: nat :| Before(q, l, r, count) && Followed(rounds, count, l, q);
        assert Gone(rounds, count, l, q);
      }
    }
  }
}
