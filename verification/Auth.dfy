/** The gateway token and its generation (src/auth.rs): the app is asked for a new token once per token
    that was rejected, however many background requests hold it. */
module Auth {
  import opened Types

  datatype Guarded = Guarded(token: string, generation: nat, reported: bool)

  /** `GatewayAuth`; an empty token means that there is none. */
  class GatewayAuth {
    var inner: Guarded

    constructor (token: string)
      ensures inner == Guarded(token, 0, false)
    {
      inner := Guarded(token, 0, false);
    }

    method Set(token: string)
      modifies this
      ensures inner == Replaced(old(inner), token)
    {
      inner := inner.(token := token);
      inner := inner.(generation := inner.generation + 1, reported := false);
    }

    /** What a background request is sent with. */
    method Snapshot() returns (token: string, generation: nat)
      ensures token == inner.token && generation == inner.generation
    {
      return inner.token, inner.generation;
    }

    method ReportRejection(generation: nat) returns (tell: bool)
      modifies this
      ensures (inner, tell) == Rejection(old(inner), generation)
    {
      if inner.generation != generation || inner.reported { return false; }
      inner := inner.(reported := true);
      return true;
    }
  }

  function Replaced(g: Guarded, token: string): Guarded {
    Guarded(token, g.generation + 1, false)
  }

  function Rejection(g: Guarded, generation: nat): (Guarded, bool) {
    if g.generation != generation || g.reported then (g, false) else (g.(reported := true), true)
  }

  // ----- Runs -----

  /** `Sends` starts a background request with the current token; `Rejected` is the 401 of request
      number `request`, which may come any time later. */
  datatype Step = Sets(token: string) | Sends | Rejected(request: nat)

  /** `held` are the generations the requests were sent with; `told` the generations of the tokens the
      app was asked to replace. */
  datatype State = State(auth: Guarded, held: seq<nat>, told: seq<nat>)

  function After(token: string, steps: seq<Step>): State {
    if steps == [] then State(Guarded(token, 0, false), [], [])
    else
      var s := After(token, steps[..|steps| - 1]);
      match steps[|steps| - 1]
      case Sets(t) => s.(auth := Replaced(s.auth, t))
      case Sends => s.(held := s.held + [s.auth.generation])
      case Rejected(r) =>
        if r >= |s.held| then s
        else
          var (auth, tell) := Rejection(s.auth, s.held[r]);
          s.(auth := auth, told := if tell then s.told + [s.auth.generation] else s.told)
  }

  function Replacements(steps: seq<Step>): nat {
    if steps == [] then 0 else Replacements(steps[..|steps| - 1]) + if steps[|steps| - 1].Sets? then 1 else 0
  }

  /** Step `i` is a rejection of the token of generation `g`, which is still the current one. */
  predicate RejectsCurrent(token: string, steps: seq<Step>, i: nat, g: nat)
    requires i < |steps|
  {
    var s := After(token, steps[..i]);
    steps[i].Rejected? && steps[i].request < |s.held| && s.held[steps[i].request] == g == s.auth.generation
  }

  predicate OncePerToken(s: State, replacements: nat) {
    && s.auth.generation == replacements
    && (forall g :: g in s.told ==> g <= s.auth.generation)
    && (s.auth.reported <==> s.auth.generation in s.told)
    && (forall i, j :: 0 <= i < j < |s.told| ==> s.told[i] < s.told[j])
    && |s.told| <= replacements + (if s.auth.reported then 1 else 0)
  }

  /** The app is asked for a new token at most once per generation, in order, and never more often than
      tokens were set, plus one for the first. */
  lemma {:induction false} OneRequestPerToken(token: string, steps: seq<Step>)
    ensures OncePerToken(After(token, steps), Replacements(steps))
  {
    if steps != [] {
      var n := |steps| - 1;
      OneRequestPerToken(token, steps[..n]);
      var s, s' := After(token, steps[..n]), After(token, steps);
      match steps[n]
      case Sets(_) =>
      case Sends =>
      case Rejected(_) =>
        if s'.told != s.told {
          assert s'.told == s.told + [s.auth.generation];
          assert forall i :: 0 <= i < |s.told| ==> s.told[i] in s.told;
        }
    }
  }

  /** What one step adds to the generations the app was told about. */
  lemma ToldNext(token: string, steps: seq<Step>)
    requires steps != []
    ensures var n := |steps| - 1;
            forall g: nat :: g in After(token, steps).told <==>
              g in After(token, steps[..n]).told || RejectsCurrent(token, steps, n, g)
  {
    OneRequestPerToken(token, steps[..|steps| - 1]);
  }

  /** The app is told of exactly those tokens that were rejected while they were current. */
  lemma {:induction false} ToldIff(token: string, steps: seq<Step>, g: nat)
    ensures g in After(token, steps).told <==> exists i :: 0 <= i < |steps| && RejectsCurrent(token, steps, i, g)
  {
    if steps != [] {
      var n := |steps| - 1;
      ToldNext(token, steps);
      ToldIff(token, steps[..n], g);
      forall i | 0 <= i < n ensures RejectsCurrent(token, steps, i, g) <==> RejectsCurrent(token, steps[..n], i, g) {
        assert steps[..n][..i] == steps[..i];
      }
    }
  }

  /** The token in use is the one set last. */
  lemma {:induction false} LatestTokenIsUsed(token: string, steps: seq<Step>, i: nat, t: string)
    requires i < |steps| && steps[i] == Sets(t) && forall j :: i < j < |steps| ==> !steps[j].Sets?
    ensures After(token, steps).auth.token == t
  {
    var n := |steps| - 1;
    if i < n { LatestTokenIsUsed(token, steps[..n], i, t); }
  }
}
