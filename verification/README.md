# A verified model of the call lifecycle engine

This project models the engine that places, answers, holds, transfers and ends calls for the mobile SDK
(`src/lib.rs`, with `src/events.rs`, `src/auth.rs`, the sending half of `src/gateway_client.rs` and the SDP half of
`src/media.rs`), and proves what the engine promises its application and the gateway. `dafny verify dfyconfig.toml`
checks all of it.

## How the engine is modelled

Everything the engine does to its shared state happens in sections that hold its locks. `Calls` has one function per
section, from state to state, and `Engines.Engine` is the same engine as an object: its fields are the locked maps,
the list of used ids, the set of calls being accepted and the event log, and each of its methods is proved to do
exactly what the function of the same name says, loops over maps in any order included. `CallEvents` objects are
numbers in `Calls`, so that sharing one between an offer, an accept and a call is visible; `Dispatch` has them, and
the dispatcher's queue, as objects.

`World` puts the sections together: any number of outgoing attempts (`Outgoing` is the automaton of one: `dial`, the
request task, the hangup, the cancel task and the task that hangs up a late answer), accepts, watches, polls,
transfers and call controls, with a step for every section and every answer the gateway may give, at any time. Taking
a call out of a map and queueing its `Ended` are two steps; in between the `Ended` is owed. A run is any sequence of
steps that can happen; `Lifecycle.RunKeeps` is the invariant of all of them, and `Guarantees`, `Phases`, `Routes`,
`Capacity`, `Abandoned`, `Tokens` and `Effects` state what follows, for every run or in every reachable state.
`Projection.RunIsActs` says that what a run does to an attempt is a sequence of the attempt's acts; with times for the
steps, `CancelTiming` then says which of these sequences keep the time limits. `Takers` says who ended a call and what
the application is told of it, `HangUps` which calls are hung up at the gateway, and `Answering` how an offer, its
watch and the user's accept get along; all three speak of the steps of the run and of literal reasons.

Several calls may be reported under one id: an outgoing id may be used again after more than 256 others, and a token
that is offered or accepted anew after its offer was dropped gets another `CallEvents`. `SharedIds.OneStoryIff` says
exactly when the application still sees one story under the id, and `Guarantees.OneStoryPerId` and `Tokens` which runs
keep to that.

The application is held to one rule: it does not dial under an id, or accept a call token, while an earlier
`make_call_with_id` or `accept_incoming_call` for the same one is still running, unless the engine refuses it anyway
(`World.NotRunning`, `World.CanAccept`). `Capacity.ReacceptBreaksCap` shows that the two-call cap fails without it.

The rest stands by itself: `CancelTiming` (the clock of a cancel), `Outcomes` and `Transfers` (what the answers about a
transfer mean, and the loop that follows them), `Polls` (when a status means that a call is gone), `Failover`, `Auth`,
`Heartbeats`, `Text` and `Sdp` (printing and parsing), and `Locks` (deadlock freedom).

## Where the code does less than is said of it

- A second call is pinned to the first one's gateway instance so that the PBX can join the two
  (src/lib.rs:1112-1120). While the first one still rings, its own request may fail over afterwards, and the two end up
  connected on different instances: `SplitCalls.FailoverSplitsThem` is a run that does this. In every run the second
  call never leaves the instance the first one was on when it was dialled (`Routes.SecondCallSharesInstance`), so the
  two share an instance whenever the first was connected by then (`Instances.ConnectedShareInstance`), and otherwise
  exactly when the first is connected on the route it was being tried on then (`Instances.RingingShareInstanceIff`).
- Each reported id is to get exactly one `Ended` and nothing after it (line 187 of the repository's README.md). An incoming id may get two. If the
  caller gives up after an accept has reserved its slot and before `answer_offer` looks for the offer, and the accept's
  outcome is then unknown, both the watch and the accept report the end (`TokenRaces.CallerGoneRace`). If the push of a
  call is delivered again once the call is up, its watch reports the call answered elsewhere, and the hangup reports
  another end (`TokenRaces.PushedAgainRace`). The cause is the `None => Arc::default()` of src/lib.rs:940 and the new
  entry of a watch: once the calls are over, the property holds exactly when no two `CallEvents` made there were
  reported (`Tokens.OneStoryPerTokenIff`); `Tokens.OneSource` says when no second one is made.
- A cancel that the gateway carries out but whose answer is lost counts as not accepted, so a call that was answered
  anyway is then hung up as well: `LostCancels.LostCancelEndsTwice` is a run that does this, and
  `Guarantees.EndedExactlyOnce` says that this is the only way in which the gateway ends such a call twice.
- `AcceptReservation::drop` gives back a slot by token (src/lib.rs:512-519), also one that a later accept of the same
  token holds: `Capacity.ReacceptBreaksCap`.
- `negotiate_codec` falls back to PCMU even when PCMU was not offered: `Sdp.NegotiatesFromOffer` says exactly when.

## Model

| member | source | states |
|---|---|---|
| Events.StoryIsGrammar | src/events.rs:185-220 | the step-by-step rule for one call's events is exactly the written-out grammar: `Ringing` first and for outgoing calls only, then `Connected`/`OnHold`, then at most one `Ended`, which alone has a reason |
| Events.EmitKeepsLog | src/events.rs:185-206 | a report that passes the gate keeps every call's story and flag, and is the last thing reported of its call |
| Events.FirstEndedGetsThrough | src/events.rs:185-220 | whatever any threads report, a call is closed exactly when someone reported it ended |
| Events.NothingFollowsEnded | src/events.rs:163-169 | nothing is queued for a call after its `Ended`, whoever reports it |
| Dispatch.CallEvents.EmitAfter | src/events.rs:185-206 | events of other calls are queued just ahead of the call's own, and not at all when it has ended |
| Dispatch.CallEvents.EmitInfo | src/events.rs:177-179 | one event is queued, or none when the call has ended; the flag is set by `Ended` |
| Dispatch.Dispatcher.Send | src/events.rs:79-87 | an event goes to the back of the queue |
| Dispatch.Dispatcher.Drain | src/events.rs:54-58 | the dispatch thread handles everything queued, in order, with the handler installed |
| Dispatch.DeliveredInOrder | src/events.rs:10-13 | what was delivered is a prefix of what was queued: nothing is skipped, repeated or reordered |
| Outgoing.ActKeeps | src/lib.rs:1237-1488 | every act of `dial`, hangup, cancel task and late task keeps the attempt's invariant |
| Outgoing.RunKeeps | src/lib.rs:1237-1488 | the attempt's invariant holds after any acts in any order |
| Outgoing.NeverBoth | src/lib.rs:1461-1488 | never two accepted cancels, two hang-ups or one of each; a hang-up goes to the answering route; an unsent call is never ended at the gateway |
| Outgoing.NothingIsStuck | src/lib.rs:1237-1488 | when none of this handset's acts is due and no answer is outstanding, the attempt is over |
| Outgoing.ExactlyOnce | src/lib.rs:1447-1488 | a call hung up while it rang and answered anyway is ended exactly once |
| Outgoing.GatewayEndsOnceIff | src/lib.rs:269-281 | after any acts, the gateway has ended such a call once, counting the cancels it carried out and the hang-ups, exactly when none of the acts was a cancel carried out with its answer lost |
| Outgoing.CancelIsRetried | src/lib.rs:232-284 | the cancel of a call whose request is still out is given up only without a token, after an answer other than 404, or after the fifth 404; there is no sixth |
| LostCancels.LostCancelEndsTwice | src/lib.rs:1461-1488 | a run in which it ends one twice |
| Projection.StepDoes | src/lib.rs:1237-1488 | every step of the engine is at most one act of an attempt, or makes a fresh one |
| Projection.RunIsActs | src/lib.rs:1237-1488 | in every run, an attempt is what its acts, in order, make of a fresh one |
| Sections.ReserveKeeps | src/lib.rs:1121-1226 | reserving a call keeps the engine's invariant |
| Sections.ConnectDialedKeeps | src/lib.rs:1393-1425 | so does moving an answered call from ringing to connected |
| Sections.TakeForHangupKeeps | src/lib.rs:1596-1622 | so does taking a call for a hangup |
| Sections.SwapCallsKeeps | src/lib.rs:1946-1972 | so does swapping two calls, at no point leaving two off hold |
| Sections.SetHoldKeeps | src/lib.rs:1924-1940 | so does holding or resuming a call |
| Sections.ConnectAcceptedKeeps | src/lib.rs:978-1018 | so does connecting an accepted call, which holds the others only if it is not refused |
| Sections.WatchStatusKeeps | src/lib.rs:2179-2226 | so does each verdict of the incoming watch |
| Lifecycle.StepKeeps | src/lib.rs:660-2567 | every step of everything that runs keeps the invariant that ties attempts, accepts and owed `Ended`s to the maps |
| Lifecycle.RunKeeps | src/lib.rs:660-2567 | the invariant holds in every reachable state |
| Guarantees.EveryStoryIsGrammatical | src/events.rs:163-220 | in every run, each call's events follow the grammar |
| Guarantees.IdsComeBackLate | src/lib.rs:545-572 | an outgoing id is given to a second call only after more than 256 other uses |
| SharedIds.OneStoryIff | src/events.rs:163-220 | what is reported under an id is one grammatical story exactly when no two calls clash: none is reported after another's `Ended`, and none starts to ring after another was reported |
| Guarantees.OneStoryUnlessClash | src/events.rs:163-220 | so in every run, for every id |
| Guarantees.OneUseOneStory | src/lib.rs:543-572 | in every run, an id that one call was given has one story, so one `Ended` at most |
| Guarantees.OneStoryPerId | src/lib.rs:543-572 | in every run, an outgoing id all of whose uses are among the last 257 was given to one call and has one story |
| Guarantees.EveryCallEnds | src/lib.rs:142-153 | once whoever took a call has reported it, a reported call is live here or got its one `Ended` |
| Guarantees.OneActiveCall | src/lib.rs:325-338 | at most one call in the map is off hold, with its media, and at every point of the queue the app believes at most one of them active |
| Guarantees.AtMostTwoCalls | src/lib.rs:88-98 | connected, ringing and being-accepted calls are never more than two, and exactly the running accepts hold slots |
| Guarantees.ReportsAgree | src/lib.rs:1905-1938 | a connected call that has not been reported ended was last reported as it now is, a ringing one as `Ringing` |
| Guarantees.NeverEndedTwice | src/lib.rs:1287-1488 | in every run, never two accepted cancels, two hang-ups or, unless the wait expired, one of each; none for a call that was never sent or is connected here |
| Guarantees.AnsweredIsOneOfThree | src/lib.rs:1287-1543 | in every run, an answered call whose tasks are done is live here under its token and route and not ended; or was connected and is hung up exactly if whoever took it ordered that; or was hung up while it rang and is ended exactly once |
| HangUps.HungUpIffOrdered | src/lib.rs:1527-1543 | in every run, an outgoing call that was connected is hung up, on the route and with the token of its answer, exactly if a hangup that found a token, or a poll or transfer that said so, took it and its end was reported |
| HangUps.IncomingHungUpIff | src/lib.rs:978-1030 | in every run, an incoming call is hung up once exactly if it was taken so, its accept went through after it had ended, or it was answered here after it was abandoned; and else never |
| Takers.StepAnnounces | src/events.rs:185-220 | a step of the engine ends one call at most, the one it announces, for the reason announced |
| Takers.EndedForReason | src/events.rs:210-220 | in every run, each `Ended` carries the reason of someone who took the call: `LocalHangup` for a hangup of the connected call, `Cancelled` before that, the reason given by a poll or a transfer, `Failed` for a failed dial or an accept of unknown outcome, `Rejected`, or what the watch of an offer nobody accepts here saw |
| Takers.TakenIsReported | src/lib.rs:142-153 | and in every run, a call that someone took has got its `Ended` or is still owed it |
| Takers.LastReportHasReason | src/lib.rs:1527-1543 | so a call taken for one reason is in the end reported with it |
| Guarantees.EndedExactlyOnce | src/lib.rs:1447-1488 | in every run that keeps the time limits, a call hung up while it rang and answered anyway is, when its tasks are done, ended by this handset exactly once, and by the gateway once exactly when no step lost the answer of a cancel it carried out |
| Guarantees.IncomingEndedOnce | src/lib.rs:1020-1030 | an incoming call is hung up at most once and rejected by its watch at most once |
| Guarantees.AnswerIsSafe | src/lib.rs:989-999 | in every run, the calls held inside the gate of a call that connects have other gates than it |
| Phases.RememberedIffRecent | src/lib.rs:545-572 | an id is remembered exactly as long as fewer than 256 uses of ids have followed a use of it |
| Phases.MovesKeepLife | src/lib.rs:1596-1622 | a section takes an id along an edge of the automaton new, pre-cancelled, rings, talks, over, or makes an id that was not new forgotten |
| Phases.EveryStepIsAnEdge | src/lib.rs:1121-1226 | in every run, every step is a stutter or an edge for every outgoing id, which never both rings and talks; or an id that was used becomes new, and then at least 256 uses of ids have followed every use of it |
| Phases.OverIsForGood | src/lib.rs:543-545 | in every run, while fewer than 256 uses of ids have followed a use of the id, it stays over once it is, a pre-cancelled one is never dialled, and a connected one never rings |
| Phases.MissingIff | src/lib.rs:1596-1622 | `take_for_hangup` finds nothing exactly for ids that are over, pre-cancelled, or not valid |
| Phases.MissingIsOver | src/lib.rs:1596-1622 | and then every call reported under the id has its `Ended`, or the section that took it owes it |
| Routes.OnlyThePinIsTried | src/gateway_client.rs:243-245 | in every run, a pinned call tried only its pin, and a call is connected on the last route it tried |
| Routes.OldestIsUnique | src/lib.rs:351-369 | the route of the oldest live call does not depend on the order in which the maps are walked |
| Routes.PinIsTheOthers | src/lib.rs:1157-1166 | below the cap, the pin is the other call's route, or, if none is known, that of a call being accepted; none exactly if there is none of these |
| Routes.SecondCallSharesInstance | src/lib.rs:1112-1120 | whatever follows, a call dialled while another one's route is known is tried and connected only there |
| Growth.RunGrows | src/lib.rs:660-2567 | in every run, ids and their uses are only added, and a connected call keeps its `CallEvents` and its route until it is taken out of the map for good |
| Instances.ConnectedShareInstance | src/lib.rs:1112-1120 | a call dialled while another is connected is on the same instance whenever both are up |
| Instances.RingingShareInstanceIff | src/lib.rs:1112-1120 | a call dialled while another rings is on the same instance, when both are up, exactly if the other was answered on the route it was being tried on at that time |
| SplitCalls.FailoverSplitsThem | src/lib.rs:1112-1120 | a run after which both calls are up, on different instances |
| Capacity.RefusedDialLeavesNoTrace | src/lib.rs:1099-1176 | a refused dial changes nothing but the pre-cancelled mark of its id, and which error it gives |
| Capacity.DialCounts | src/lib.rs:1138-1176 | a dial adds one call exactly when its id is valid, new and not live, there is a token, and the cap is not reached |
| Capacity.AcceptCounts | src/lib.rs:852-878 | an accept reserves one slot, only below the cap, or changes nothing |
| Capacity.ConnectingConserves | src/lib.rs:1396-1425 | a ringing call that connects keeps the number of live calls |
| Capacity.AcceptingCounts | src/lib.rs:978-1018 | an accepted call that connects takes its slot's place; one that ended meanwhile gives it back |
| Capacity.AcceptingKeepsCapIff | src/lib.rs:978-1018 | connecting keeps the cap exactly when the slot is there, the call has ended, is in the map, or there is room |
| Capacity.ReacceptBreaksCap | src/lib.rs:507-519 | from a new engine, three live calls, when a token is accepted again before its first accept has returned |
| Answering.MarkedIffSending | src/lib.rs:928-969 | in every run, an offer is marked as being accepted exactly while an accept with its `CallEvents` is with the gateway |
| Answering.AnsweredElsewhereIff | src/lib.rs:2185-2201 | in every run, a watch that sees the call answered reports `AnsweredElsewhere` exactly if the offer is not abandoned and no accept of it is with the gateway, and nothing otherwise |
| Answering.RefusedIsWatched | src/lib.rs:960-969 | after a refused accept, whatever follows but another accept, the watch tells the application that the call was answered elsewhere |
| Answering.LateOnlyIfTaken | src/lib.rs:978-1018 | in every run, an accept about to connect finds its call ended only if the user rejected it, its watch saw it gone or answered while nobody accepted it, or an earlier accept had an unknown outcome |
| Answering.AcceptConnectsUnlessTaken | src/lib.rs:978-1030 | and otherwise it connects, under its token and on its route, and is reported so; a late one reports nothing and is hung up once |
| TokenRaces.AcceptedAgainIsLate | src/lib.rs:944-958 | a run in which nothing but an earlier accept of unknown outcome makes an accept late |
| Abandoned.WatchAbandoned | src/lib.rs:2185-2226 | the watch of an abandoned call reports nothing, rejects once while it rings and hangs up when it was answered |
| Abandoned.AbandonedCallIsEnded | src/lib.rs:944-958 | after an accept with unknown outcome, in every continuation that leaves the token alone: one `Ended` from the accept's `CallEvents` and nothing from the watch's, at most one reject, and one hang-up exactly if the first verdict is that it was answered |
| Tokens.StepAdds | src/lib.rs:928-941 | a step makes a `CallEvents` for a token exactly if it is a push, the start of an accept or an accept given up, of a token that is not watched |
| Tokens.OneSource | src/lib.rs:928-941 | in every run, a token has had one `CallEvents` at most exactly when no step made another one for it |
| Tokens.OneMakerOneStory | src/lib.rs:487-491 | and then what is reported under the incoming id is one story, so one `Ended` at most |
| Tokens.OneStoryPerToken | src/lib.rs:487-491 | the same, also if accepts with unknown outcome make another one, of runs that leave the token alone after such an accept |
| Tokens.OneStoryPerTokenIff | src/lib.rs:928-941 | in every run, when every reported call of a token is over, what is reported under its id is one story exactly when no two steps made a `CallEvents` for it that was reported |
| TokenRaces.CallerGoneRace | src/lib.rs:928-958 | a run with one push and one accept that reports two ends under one id |
| TokenRaces.PushedAgainRace | src/lib.rs:2131-2171 | a run in which a push delivered again has a call reported as answered elsewhere while it is up, and ended again by the hangup |
| Effects.SwapEffect | src/lib.rs:1941-1972 | after a swap exactly the one call is off hold, and nothing but hold states has changed |
| Effects.SwapReports | src/lib.rs:1941-1972 | the call going on hold is reported first, then the one coming off it, each only if it changed |
| Effects.SetHoldEffect | src/lib.rs:1920-1940 | a resumed call is the only one off hold, a held one leaves the others alone, and it is reported as it now is |
| Effects.MuteEffect | src/lib.rs:1905-1918 | a mute changes that flag of the one call, as it was told to, and reports the call as it is then |
| Effects.ConnectingKeepsPlaces | src/lib.rs:1393-1425 | a ringing call that connects keeps its place in the order of creation |
| Effects.NewCallIsNewest | src/lib.rs:1178-1226 | a call that is made comes last in that order |
| Effects.AnsweredCallIsNewest | src/lib.rs:978-1018 | so does an incoming call when it is answered |
| Queries.AscendingIsUnique | src/lib.rs:373-384 | an ascending list of live calls is determined by what it holds |
| Queries.CallsAreDetermined | src/lib.rs:2444-2458 | `get_calls` has one answer, whatever the order of the maps |
| Queries.ActiveIsDetermined | src/lib.rs:2426-2440 | so has `get_active_call` |
| Queries.Sort | src/lib.rs:382 | the live calls, oldest first |
| Engines.Engine.EmitEvent | src/events.rs:185-206 | one pass through a call's gate |
| Engines.Engine.ApplyHold | src/lib.rs:311-323 | a call's media and report go on or off hold together; whether that changed something |
| Engines.Engine.HoldAllOthers | src/lib.rs:331-338 | every call but one is held, and the one that was not held already is reported, in any order of the map |
| Engines.Engine.FindUsed | src/lib.rs:559-564 | the first place of an id in the list of used ids |
| Engines.Engine.MarkIdUsed | src/lib.rs:566-571 | an id is remembered among the last 256 |
| Engines.Engine.ReserveOutgoing | src/lib.rs:1121-1226 | the reservation, its refusals, and its pin |
| Engines.Engine.LiveCallRoute | src/lib.rs:351-369 | the route of the oldest live call whose route is known |
| Engines.Engine.FindPin | src/lib.rs:1157-1164 | that route, or that of the first call that is still being accepted |
| Engines.Engine.MarkDialing | src/lib.rs:1288-1303 | the call is marked as sent, if it still rings |
| Engines.Engine.TakeRinging | src/lib.rs:1625-1631 | a ringing call is taken, if a hangup has not taken it |
| Engines.Engine.ConnectDialed | src/lib.rs:1393-1430 | the answered call moves to the call map, the others held and reported first |
| Engines.Engine.TakeCall | src/lib.rs:146-153 | whoever removes the entry owns the call's end |
| Engines.Engine.TakeForHangup | src/lib.rs:1596-1622 | the call is found in either map, or its id is remembered as pre-cancelled |
| Engines.Engine.SetMute | src/lib.rs:1905-1918 | the call is muted and reported |
| Engines.Engine.SetHold | src/lib.rs:1924-1940 | the call is held, or resumed after the others are held, and reported |
| Engines.Engine.SwapCalls | src/lib.rs:1946-1972 | one call is held and reported, then the others, then the other is resumed and reported |
| Engines.Engine.ReserveAccept | src/lib.rs:852-878 | a slot for an accept, or a refusal |
| Engines.Engine.ReleaseAccept | src/lib.rs:512-519 | the slot of a token is given back |
| Engines.Engine.BeginAccept | src/lib.rs:928-941 | the offer is marked as being accepted, and its events are shared |
| Engines.Engine.RefuseAccept | src/lib.rs:960-969 | the offer stays, no longer being accepted |
| Engines.Engine.WatchIncoming | src/lib.rs:2131-2171 | a new offer, or the existing one marked abandoned and no longer being accepted |
| Engines.Engine.TakeOffered | src/lib.rs:2237-2246 | the offer is no longer watched |
| Engines.Engine.ConnectAccepted | src/lib.rs:978-1018 | the accepted call connects inside its gate, unless it was reported ended |
| Engines.Engine.WatchStatus | src/lib.rs:2179-2226 | the watch's decision and its report |
| Engines.Engine.LiveCalls | src/lib.rs:373-384 | exactly the connected and ringing calls, in strictly increasing creation order |
| Engines.Engine.GetCalls | src/lib.rs:2444-2458 | their reports, in that order |
| Engines.Engine.GetActiveCall | src/lib.rs:2426-2440 | the call off hold, or else the newest live call |
| CancelTiming.CancelAtGateway | src/lib.rs:232-284 | at most five attempts, spaced by the delays, each retry after a 404 with the request still in flight; the outcome is known 30 s after the later of the hangup and the request's return |
| CancelTiming.CancelledAndAnswered | src/lib.rs:1461-1488 | the 35 s wait never expires: the call is left to the gateway exactly when the cancel was accepted |
| CancelTiming.AttemptsAreSpaced | src/lib.rs:211-219 | when each attempt is sent and answered, at the earliest and the latest |
| CancelTiming.NeverExpires | src/lib.rs:1461-1488 | whatever a timed attempt does, the 35 s wait for the cancel's outcome does not expire |
| Outcomes.AnyIffSucceeded | src/lib.rs:1798 | some leg is marked transferred exactly if an earlier answer said that a leg was over because it was transferred |
| Outcomes.CountSaysGone | src/lib.rs:1799 | at a leg's turn the detector's count says what all its answers say: `ended`, or the third `unknown` in a row |
| Outcomes.AllIffFollowed | src/lib.rs:1866-1868 | all legs are marked exactly if each one's own answers said that it followed |
| Transfers.FollowLeg | src/lib.rs:1789-1861 | the leg is marked exactly if its answers so far say that it followed, the loop ends exactly if this answer decides, told from all answers so far, and which legs end here |
| Transfers.EndTheRest | src/lib.rs:1888-1903 | legs that did not follow are ended here as transferred, and hung up only if they were still here |
| Transfers.DueIsOverdue | src/lib.rs:1869-1884 | the settle deadline, set once, tells whether the settle time since the first transferred leg is over |
| Transfers.AwaitOutcome | src/lib.rs:1769-1884 | for any legs, answers and other threads: the loop ends in the first round without token, at the first answer that decides, or after the first round in which all legs have followed or the time is over, and with that result; the legs marked are those whose answers say that they followed; every leg is still up, ended here as the result says, or taken by another thread; at most (timeout + min(settle, timeout)) / interval + 2 rounds |
| Transfers.OutcomeIsAnswered | src/lib.rs:1784-1865 | told from the deciding answer: 408 is a timeout, another SIP status a failed transfer, no outcome field success, a 401 is passed on, a leg that is over without a transfer makes the call invalid; and no earlier answer called for an end |
| Transfers.TimeIsKept | src/lib.rs:1869-1884 | rounds go on only before the timeout, or, once a leg was transferred, before the shorter of settle time and timeout, and the loop ends undecided only after it |
| Transfers.OutcomeIsDetermined | src/lib.rs:1769-1884 | the loop can end in one place only, with one result |
| Polls.GoneDetector.IsGone | src/lib.rs:399-413 | the detector's count and verdict |
| Polls.CountingIsEnough | src/lib.rs:386-413 | counting finds exactly `ended` and the third `unknown` in a row among the answers |
| Polls.PollVerdict | src/lib.rs:2012-2066 | the poll ends the call at the first answer that calls for it; failed requests, 401 included, change nothing |
| Polls.RemoteHangup | src/lib.rs:2086-2107 | the call ends here, for the poll's reason, unless someone took it, and only then its id is kept for `check_remote_hangup` |
| Polls.RemoteEnded.Push | src/lib.rs:2098-2104 | the last sixteen ids are kept |
| Polls.RemoteEnded.Pop | src/lib.rs:2406-2411 | the latest id is returned and forgotten |
| Polls.BacklogIsBounded | src/lib.rs:100-102 | never more than sixteen, only ids that were pushed, and none twice while none is reused |
| Polls.NewestAreKept | src/lib.rs:2097-2107 | the latest ended call is the next returned, and of those before it the newest are kept |
| Failover.AtMostOneDelivery | src/gateway_client.rs:337-344 | of the routes tried, only the last can have received the request |
| Failover.SendOn | src/gateway_client.rs:354-377 | every route tried before the last could not be connected to; the result is that of the last one |
| Failover.PlaceCall | src/gateway_client.rs:626-670 | the attempt cell names each route before it is tried; a pinned call tries its pin only |
| Auth.GatewayAuth.Set | src/auth.rs:48-53 | a new token is a new generation, not yet reported |
| Auth.GatewayAuth.ReportRejection | src/auth.rs:81-88 | the app is told only of the current token, once |
| Auth.OneRequestPerToken | src/auth.rs:21-26 | over any run, at most once per generation, in order, at most sets plus one times |
| Auth.ToldIff | src/auth.rs:77-88 | over any run, exactly for the tokens rejected while they were current |
| Auth.LatestTokenIsUsed | src/auth.rs:48-60 | the token in use is the one set last |
| Heartbeats.HeartbeatState.Request | src/lib.rs:2505-2517 | a notification asks for a heartbeat, and starts a task if none runs |
| Heartbeats.HeartbeatState.TakeRequest | src/lib.rs:2539-2548 | a task takes the request, or ends |
| Heartbeats.NoneIsLost | src/lib.rs:2498-2565 | one task at most, no more rounds than notifications, and a round after the last notification once nothing runs |
| Text.LinesOfDocument | src/media.rs:730 | splitting lines that end in CR LF gives them back |
| Text.SocketText | src/media.rs:753 | a printed address and port are parsed back |
| Sdp.BuildOffer | src/media.rs:648-694 | the offer's text is the document of its lines |
| Sdp.BuildAnswer | src/media.rs:696-722 | so is the answer's |
| Sdp.CodecsAreNamed | src/media.rs:667-678 | each codec's attribute lines, with its registered name and clock rate |
| Sdp.ParseRemote | src/media.rs:725-758 | the last connection and audio lines decide |
| Sdp.Negotiate | src/media.rs:766-785 | the earliest preference among the offered payload types, or PCMU |
| Sdp.OfferRoundTrip | src/media.rs:648-758 | an offer is read back as its address, port and first codec, key or no key, and as nothing if it has no codec |
| Sdp.AnswerRoundTrip | src/media.rs:696-758 | an answer is read back as its address, port and codec |
| Sdp.OfferedIsPrinted | src/media.rs:767-777 | the payload types read from an offer are those of its codecs, and 101 |
| Sdp.NegotiatesFromOffer | src/media.rs:766-785 | from an offer, the choice is the earliest preference among its codecs, or PCMU exactly when there is none |
| Locks.NoDeadlock | src/lib.rs:444-451 | of threads that keep the lock order, some thread can always go on |
| Locks.NobodyWaitsForEver | src/lib.rs:444-451 | any number of threads, each running any of the engine's sections any number of times, can all get to their end, however far they are |
| Locks.SectionsKeepOrder | src/lib.rs:852-1018 | each section of the engine keeps the order, the one that answers a call exactly if that call is not among those it holds |
| Locks.AnswerIsSectionIff | src/lib.rs:989-999 | holding the others inside the gate of a new call is safe exactly if it is not one of them |

## Left out

- HTTP, TLS, JSON, DNS, the runtime and the media itself: the gateway's answers are arbitrary, media is one hold flag.
- `remote_uri`, `remote_name` and `duration_secs` of a report: nothing here depends on them.
- The display texts of errors, and which HTTP status becomes which error.
- A call without a call token (src/lib.rs:1538-1540): every call the engine connects has one.
- A watch or poll that stops on its stop flag or expires: in the model it may also just never act again, so everything
  proved holds for it; an expired watch leaves its offer in the map, as in the code.
- `spawn_status_poll` ties each watch to one offer; the model lets any status of the token reach the offer at any time.
- The streak of `unknown`s that a watch counts: `World` takes the verdict as given, `Polls` says when it is reached.
- Routes.SecondCallSharesInstance: says nothing about a first call whose route is not known when the second is dialled: then
  the second one is not pinned.
- Transfers.AwaitOutcome: legs are numbers and their tokens and routes are left out; a call map entry is a member of a
  set; a leg is not taken by another thread between the legs of one section.
- Tokens.OneStoryPerTokenIff: whether a `CallEvents` is reported is not told from the steps; one that only an abandoned
  watch has is not, unless the user rejects the call.
- Abandoned.AbandonedCallIsEnded: is about the `CallEvents` of the accept and of the watch, not about the id, and not about a
  user who rejects the call after its accept has failed, which may report it once more.
- Phases.OverIsForGood: an id that 256 others have followed is forgotten, as in the code, and may be used again.
- Guarantees.OneStoryPerId: an outgoing id that comes back after 257 others may have a second story.
- The crypto attribute of an offer is any text without a line break: the crate that prints it is not part of this model.
- Text.SocketText: `SocketAddr` also parses bracketed IPv6 addresses, which no `IN IP4` line has.
- Auth.GatewayAuth.Set: generations are unbounded numbers, in the code 64-bit ones.
- Guarantees.EndedExactlyOnce: the time limits are those of one attempt; gateway requests take at most 30 s, and steps
  that wait for nothing take no time.
- HangUps.IncomingHungUpIff: says that an incoming call is hung up, not on which route: its offer's route is kept but
  not followed further.
- Answering.LateOnlyIfTaken: a rejection counts from when the user takes the offer, not from its report.
- Queue, sequence number and counter widths: unbounded here.
- Device registration, push tokens, DTMF, statistics, audio levels and the on-device AI.
