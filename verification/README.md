# A verified model of the realtime stack

The server's WebSocket stack is a small concurrent system: connections are registered, re-checked and
admitted while revocations commit and close them; frames queue for sockets that write when they like;
requests wait on limiters; and a browser client correlates, queues, aborts and reconnects on its side.
Its guarantees are meant to hold over every interleaving. This project models that system in Dafny and
proves them.

JavaScript runs each turn to completion, so every model is a state machine whose events are single
synchronous runs: a method call, an adapter event, a timer, or the part of a method after an `await`.
What a run cannot decide by itself - what the socket takes, which sends throw, what a handler returns,
when a timer fires, what the database holds - is a parameter of the event, and every theorem is about
all values of it.

Most components come as these files:

- a *model*: the state as a datatype, each operation as a function of it, the events, and the invariant;
- *runs*: the invariant kept by every event;
- *theorems*: what follows for whole runs, and counterexamples where a property needs a condition;
- *outcomes*: what each event does, stated by what can be seen of it - what starts, settles, leaves or is
  answered - and not by the function that does it;
- the *class* of the source, with its fields updated in place, each method proved equal to the model's
  function (`Model() == F(old(Model()))`) and to keep the invariant.

The entries and reservations of the rate limiter and the outbound queue's linked list are heap objects,
compared by identity as the source compares them.

## What is modelled

| files | what |
|---|---|
| `PeerRequests` | the server's requests to one client: nested table, ids, deadlines, drain |
| `RegistryModel`, `RegistryProofs`, `RegistryRuns`, `RegistryOutcomes`, `ConnectionRegistry` | two-phase registration, admission, eviction, closes that throw, shutdown, fan-out, peer requests |
| `Admission`, `AdmissionTheorems`, `RevocationTheorems` | database, revocations, owed closes, registry and sockets as one transition system |
| `MemberAdmission` | the same over every registry of a backend, closes fanning out to all |
| `AdmittedDispatch` | registry, database and socket sessions as one system: what is dispatched, and on whose credential |
| `RealtimeCloser` | counted members, fan-out past errors, which connections an audit row closes |
| `RateLimiterModel`, `RateLimiterTheorems`, `RateLimiterOutcomes`, `RateLimiter` | sliding window, reservations in flight, parked calls and their wakers |
| `OutboundModel`, `OutboundRuns`, `OutboundTheorems`, `OutboundOutcomes`, `OutboundWriter` | budgeted queue, write-through, pump, poll, write deadline, close |
| `SessionModel`, `SessionRuns`, `SessionRecords`, `SessionTheorems`, `SessionOutcomes`, `SocketSession` | one socket's admission, pre-admission queue, dispatch and live requests |
| `ClientModel`, `ClientRuns`, `ClientTheorems`, `ClientOutcomes`, `SocketClient` | the browser client |
| `ActionEvents` | the action event's lifecycle, the client's request method and the server's answer |
| `Periodic` | the periodic task |
| `Utf8`, `EmailGrammar`, `LikePattern` | the length checks, the address grammar, the escaped prefix search |
| `Common` | filters, folds and distinctness |

## Where the code and its comments differ

The models follow the code.

- `RateLimiter.#settle` says a reserved entry may be gone because it was "reset with nothing in flight
  but this". A reset keeps the entry while anything is in flight, so only an eviction parts a
  reservation from its entry (`OnlyEvictionOrphans`).
- `stop` of a periodic task is documented to resolve once the running pass has finished. Called from
  the pass's own first synchronous run it finds no pass in progress and resolves at once
  (`OwnStopDoesNotWait`); called from anywhere else it waits (`OutsideStopWaits`, `StopWaits`).

## Properties that hold under a condition

- A refusal's `retry_after` is the wait for the oldest recorded attempt. It is enough exactly when
  every attempt over the cap has expired by then (`RetryHint`): always for callers that only reserve
  (`ReservingRetryHint`), not always after bare records past the cap (`BareRecordsOutlastTheHint`).
- The write deadline counts bytes handed over, thrown-on ones included. It is never late; it is exact
  on a socket that does not throw (`DeadlineExact`), and is cleared over unwritten bytes exactly when
  the frames thrown on since its arming hold as many (`DeadlineClearedEarly`) - which takes a send that
  threw (`EarlyOnlyAfterAThrow`) and does happen (`DeadlineMetUnwritten`).
- An eviction of a rate-limited key frees the key and wakes nobody (`EvictionLeavesASleeper`), so
  "asleep only while the key is at its cap" (`NoWakeupLost`) is for runs without one. In every run a
  sleeping call still has an unsettled reservation of its key whose settle wakes it
  (`SleepersAreAwaited`).
- The window bound counts the attempts recorded since the key's last reset, which forgives the ones
  before it.
- A call's result always comes, but from an event at its end exactly when no receive handler threw: one
  that did leaves the event waiting in `receive_error`, whose handler the call never runs
  (`CallCompletes`).
- An actor tombstoned on its own owes no close, so an admitted connection's acting actor is no part of
  `AdmissionSafety`; its credential, account and role are. The code tombstones actors only inside an
  account delete (src/lib/auth/admin_actions.ts:501-514), which does close the account; the model
  allows the lone event as a harsher environment.

## Model

| member | source | states |
|---|---|---|
| AdmissionTheorems.AdmissionSafety | src/lib/actions/ws_socket_session.ts:17-50 | over every interleaving of upgrades, re-reads, admissions, commits and closes, an admitted connection has a live session or token, a live account and a held role, or the close of a committed revocation naming it is still owed |
| AdmissionTheorems.NoRevokedConnectionOnceClosed | src/lib/actions/connection_registry.ts:6-36 | once all owed closes have run, every admitted connection is entitled; that a commit takes its rows is `CommitTakesItsRows` |
| AdmissionTheorems.RunsKeepInv | src/lib/actions/ws_socket_session.ts:580-675 | every reachable state satisfies the system invariant |
| AdmissionTheorems.ShutdownIsFinal | src/lib/actions/connection_registry.ts:686-692 | after a shutdown the registry is empty in every later state, whatever upgrades were in flight |
| AdmissionTheorems.ClosingForever | src/lib/actions/connection_registry.ts:686-702 | the shutdown flag, once set, is set in every later state of every run |
| AdmissionTheorems.RereadsDecide | src/lib/auth/resolved_auth.ts:253-269 | with no commit in between, the four re-reads pass the socket on with the registry untouched exactly when all remaining checks hold, and otherwise close exactly its own registration |
| AdmissionTheorems.UndisturbedUpgrade | src/lib/actions/ws_socket_session.ts:580-675 | an upgrade nothing interferes with is admitted if and only if credential, account, actor and role are live; a refused one leaves every other connection as it was |
| AdmissionTheorems.OneStepRegistrationMissesARevocation | src/lib/actions/connection_registry.ts:493-503 | registered in one step after its revocation's close has run, a connection on a dead session is admitted, with no close owed that names it unless one was all along: why registration has two phases |
| AdmissionTheorems.ClosingBeforeTheCommitMissesAnUpgrade | src/lib/actions/connection_closer.ts:256-264 | were a revocation to close before it commits, an upgrade in between would stay admitted on the revoked session: why closes follow the commit |
| AdmissionTheorems.FailedRereadCloses | src/lib/actions/ws_socket_session.ts:601-675 | a re-read that cannot be made ends its own connection with 1011 and nothing else |
| RevocationTheorems.CommitTakesItsRows | src/lib/auth/api_token_queries.ts:236-246 | a commit deletes exactly the rows its revocation names - token, session, every credential of the account, the account and its actors, or the grant - leaves every other row as it was, and owes one close |
| RevocationTheorems.RevokedStaysGone | src/lib/auth/api_token_queries.ts:236-246 | in every later state of every run those rows are still gone, until one is added back |
| RevocationTheorems.RevokedAreOut | src/lib/actions/ws_socket_session.ts:17-50 | in every later state in which no owed close names it, no connection that rests on what was revoked is admitted |
| RevocationTheorems.RestingIsDead | src/lib/auth/resolved_auth.ts:253-269 | with the rows gone, a re-read of whoever rested on them refuses |
| RevocationTheorems.CloseReaches | src/lib/actions/connection_registry.ts:32-36 | a revocation's close matches exactly the session, the token, the account, or the connections of the account gated on the role |
| RevocationTheorems.OwedIsWhatIsLeft | src/lib/actions/connection_closer.ts:256-264 | over every run the closes owed are those of its commits less those that have run, with multiplicity |
| RevocationTheorems.DeletedActorIsDead | src/lib/actions/ws_socket_session.ts:43-47 | a deleted actor is refused by every later re-read, and nothing else changes |
| MemberAdmission.BackendSafety | src/lib/actions/connection_closer.ts:288-360 | on whichever registry of the backend, an admitted connection is entitled, or the close of a committed revocation naming it has yet to fan out |
| MemberAdmission.NoRevokedConnectionAnywhere | src/lib/actions/connection_closer.ts:288-360 | once every close has fanned out, no registry holds a revoked connection admitted |
| MemberAdmission.ShutdownReachesAll | src/lib/actions/connection_closer.ts:94-104 | a shutdown leaves every registry that was a member empty in every later state |
| MemberAdmission.FanOutIsTheClosers | src/lib/actions/connection_closer.ts:323-341 | the closer's fan-out, however many closes throw, leaves the members as that system's step does |
| AdmittedDispatch.DispatchIsCovered | src/lib/actions/ws_socket_session.ts:17-50 | whenever a frame starts on a socket, the shared registry holds its connection admitted, and it is entitled or the close of a committed revocation naming it is owed |
| AdmittedDispatch.EveryDispatchWasCovered | src/lib/actions/ws_socket_session.ts:677-751 | every frame ever started in a run started in such a step |
| AdmittedDispatch.NoDispatchOnceRevoked | src/lib/actions/ws_socket_session.ts:17-50 | with every close run, no frame starts on a revoked credential, account or role |
| AdmittedDispatch.GatewayKeepsInv | src/lib/actions/ws_socket_session.ts:511-675 | every event of registry, database and sockets keeps each session told the truth: registered exactly while held, admitted as its connection is |
| AdmittedDispatch.LiveReadAdmits | src/lib/actions/ws_socket_session.ts:580-599 | a re-read that finds everything live admits a socket still held, in the registry and in its session; on one no longer held it ends the session |
| Admission.CloseNamesTheRevoked | src/lib/actions/connection_registry.ts:197-215 | the close each kind of revocation owes matches every connection whose credential, account or role that revocation takes away |
| Admission.NextKeepsInv | src/lib/actions/ws_socket_session.ts:580-675 | each event of the system keeps the invariant linking database, owed closes, registry and sockets |
| Admission.CommitKeepsInv | src/lib/actions/connection_closer.ts:256-264 | a commit, whose rows `CommitTakesItsRows` names, leaves its close owed and keeps every connection covered |
| Admission.CloseKeepsInv | src/lib/actions/connection_registry.ts:661-666 | running an owed close discharges it without uncovering a connection |
| Admission.RereadKeepsInv | src/lib/auth/resolved_auth.ts:253-269 | one re-read, passed or refused, keeps the invariant |
| Admission.FinishKeepsInv | src/lib/actions/connection_registry.ts:444-455 | the flip to admitted after the last re-read keeps the invariant, evictions included |
| RegistryRuns.RoomMadeEffect | src/lib/actions/connection_registry.ts:807-823 | making room removes exactly the account's earliest-registered admitted connections, leaves it the latest ones, and leaves one place free under the cap |
| RegistryRuns.RoomSparesOthers | src/lib/actions/connection_registry.ts:807-838 | an eviction touches no pending registration and no other account's connection |
| RegistryRuns.AdmittedEffect | src/lib/actions/connection_registry.ts:444-455 | a refused `admit` changes nothing at all; any other leaves the connection admitted |
| RegistryRuns.AdmissionSparesPending | src/lib/actions/connection_registry.ts:444-455 | an admission evicts no other pending registration |
| RegistryRuns.AdmittedKeepsInv | src/lib/actions/connection_registry.ts:444-455 | admission keeps the cap, peer ownership and the close-once record |
| RegistryRuns.ClosedWhereEffect | src/lib/actions/connection_registry.ts:611-635 | a conditional close leaves exactly the connections the condition does not name, in order |
| RegistryRuns.ClosedAllKeepsInv | src/lib/actions/connection_registry.ts:686-692 | the shutdown close leaves the registry closing and empty |
| RegistryRuns.DeliveredAllOffers | src/lib/actions/connection_registry.ts:878-891 | a fan-out offers the frame to each recipient exactly once, in registration order |
| RegistryRuns.DeliveredAllEffect | src/lib/actions/connection_registry.ts:755-783 | a fan-out removes exactly the recipients whose writer overflowed |
| RegistryRuns.BroadcastEffect | src/lib/actions/connection_registry.ts:850-891 | a broadcast reaches each admitted match once and loses exactly the overflowed ones; pending entries and everyone else stay |
| RegistryRuns.RequestedKeepsInv | src/lib/actions/connection_registry.ts:956-986 | a peer request keeps every pending request owned by an admitted connection, whatever the writer answers |
| RegistryRuns.StepKeepsInv | src/lib/actions/connection_registry.ts:306-342 | every registry operation keeps the invariant: cap, distinct ids, owned peer requests, at most one close a socket, empty when shut |
| RegistryRuns.Run | src/lib/actions/connection_registry.ts:686-702 | any sequence of operations keeps the invariant, and one on a closing registry ends closing and empty |
| RegistryOutcomes.EndedAllOutcome | src/lib/actions/connection_registry.ts:729-745 | ending connections leaves the others in order, aborts and closes each in order, notes the code of the ones still pending, keeps their writers until settled, and settles exactly their peer requests |
| RegistryOutcomes.TargetOutcome | src/lib/actions/connection_registry.ts:661-666 | a close by target so ends exactly the connections named, with 4006 for a role and 4001 otherwise |
| RegistryOutcomes.ShutdownOutcome | src/lib/actions/connection_registry.ts:686-692 | a shutdown so ends every connection, pending or not, with 1001, and the registry is closing |
| RegistryOutcomes.CloseOneOutcome | src/lib/actions/connection_registry.ts:584-593 | a close of one connection so ends it with the code given; of no connection, it does nothing |
| RegistryOutcomes.RoomOutcome | src/lib/actions/connection_registry.ts:807-823 | room is made by so ending, with 4004, exactly the earliest admitted connections of the account that leave one place |
| RegistryOutcomes.RegisterOutcome | src/lib/actions/connection_registry.ts:399-406 | a registration is pending, last, under a new id - or aborted and closed as born while shutting down |
| RegistryOutcomes.AdmitOutcome | src/lib/actions/connection_registry.ts:444-455 | an admission flips its own entry once room is made, and nothing else |
| RegistryOutcomes.AddOutcome | src/lib/actions/connection_registry.ts:493-503 | one-step registration makes room and adds an admitted entry |
| RegistryOutcomes.RemoveOutcome | src/lib/actions/connection_registry.ts:552-562 | a removal forgets entry, code and closing writer, settles its peer requests, disposes of its writers and closes nothing |
| RegistryOutcomes.StallOutcome | src/lib/actions/connection_registry.ts:789-799 | a stalled connection is forgotten and its controller aborted, with no close |
| RegistryOutcomes.SendOutcome | src/lib/actions/connection_registry.ts:755-783 | a frame is offered once; an overflow ends the connection with 4005 and no flush |
| RegistryOutcomes.RequestOutcome | src/lib/actions/connection_registry.ts:956-986 | a peer request is refused at once when the connection is gone or saturated; otherwise it has a new id and waits exactly if its frame was encoded and accepted, settling as gone if not |
| RegistryOutcomes.AnswerOutcome | src/lib/actions/peer_request.ts:178-190 | a reply settles the request it answers with its own result or error, and any other does nothing |
| RegistryOutcomes.DeadlineOutcome | src/lib/actions/peer_request.ts:144-163 | a deadline settles its request as timed out, unless it is settled already |
| ConnectionRegistries.ConnectionRegistry.RegisterPending | src/lib/actions/connection_registry.ts:399-406 | inserts a pending entry, or closes it as born when shutting down |
| ConnectionRegistries.ConnectionRegistry.TakePendingCloseCode | src/lib/actions/connection_registry.ts:421-426 | answers, once, the code a pending registration was closed with |
| ConnectionRegistries.ConnectionRegistry.Admit | src/lib/actions/connection_registry.ts:444-455 | refines admission; answers whether the registration was still there, which is whether it is admitted now |
| ConnectionRegistries.ConnectionRegistry.AddConnection | src/lib/actions/connection_registry.ts:493-503 | refines the one-step registration under the cap |
| ConnectionRegistries.ConnectionRegistry.RemoveConnection | src/lib/actions/connection_registry.ts:552-562 | forgets the connection, its code and its closing writer, and drains its peer requests |
| ConnectionRegistries.ConnectionRegistry.CloseConnection | src/lib/actions/connection_registry.ts:584-593 | closes the one connection, answering whether it was held |
| ConnectionRegistries.ConnectionRegistry.EndConnection | src/lib/actions/connection_registry.ts:729-745 | removes, records a pending one's code, aborts its controller and closes its socket, in that order |
| ConnectionRegistries.ConnectionRegistry.EvictOldestForAccount | src/lib/actions/connection_registry.ts:807-823 | refines the eviction of the account's earliest |
| ConnectionRegistries.ConnectionRegistry.CloseWhere | src/lib/actions/connection_registry.ts:611-635 | iterating over the map it deletes from, past closes that throw, ends exactly the matches; answers their count or the first failure |
| ConnectionRegistries.ConnectionRegistry.CloseConnections | src/lib/actions/connection_registry.ts:661-666 | afterwards no connection matches the target and every other one remains |
| ConnectionRegistries.ConnectionRegistry.CloseAllConnections | src/lib/actions/connection_registry.ts:686-692 | leaves the registry closing and empty however many closes throw |
| ConnectionRegistries.ResultMeaning | src/lib/actions/connection_registry.ts:617-635 | a close counts everything it closed, or reports the earliest failure |
| ConnectionRegistries.ConnectionRegistry.FanOut | src/lib/actions/connection_registry.ts:878-891 | iterating over a map that overflows shrink, offers to each match once and counts exactly the acceptances |
| ConnectionRegistries.ConnectionRegistry.BroadcastFiltered | src/lib/actions/connection_registry.ts:878-891 | the same, keeping the invariant, with the offers recorded |
| ConnectionRegistries.ConnectionRegistry.SendToAccount | src/lib/actions/connection_registry.ts:907-909 | reaches the account's admitted connections and counts their acceptances |
| ConnectionRegistries.ConnectionRegistry.SendTo | src/lib/actions/connection_registry.ts:929-933 | accepted only on an admitted connection whose writer accepts |
| ConnectionRegistries.ConnectionRegistry.RequestConnection | src/lib/actions/connection_registry.ts:956-986 | refuses the gone and the saturated, and settles a request whose frame could not be sent |
| ConnectionRegistries.ConnectionRegistry.ResolvePeerResponse | src/lib/actions/connection_registry.ts:999-1004 | matched exactly when the reply answers a request pending on that connection |
| ConnectionRegistries.ConnectionRegistry.DropStalled | src/lib/actions/connection_registry.ts:789-799 | a stalled connection is removed and aborted, without a second close |
| ConnectionRegistries.ConnectionRegistry.PeerDeadlineFires | src/lib/actions/peer_request.ts:144-163 | a deadline settles its pending request as timed out, once |
| ConnectionRegistries.ConnectionRegistry.CloseDeadlineSettles | src/lib/actions/connection_registry.ts:729-745 | a closing writer is forgotten once its close has settled |
| ConnectionRegistries.ConnectionRegistry.Counts | src/lib/actions/connection_registry.ts:1029-1049 | admitted and pending counts, which add up to every entry |
| PeerRequests.RegisteredKeepsOk | src/lib/actions/peer_request.ts:144-163 | a registration is refused exactly at the cap and otherwise takes an id never used before |
| PeerRequests.SettledKeepsOk | src/lib/actions/peer_request.ts:199-207 | settling resolves the promise once, disarms its timer, empties no other slot and leaves no empty inner map |
| PeerRequests.DrainedKeepsOk | src/lib/actions/peer_request.ts:215-223 | draining settles the connection's requests as gone, each once, and nobody else's |
| PeerRequests.ReplyIsIsolated | src/lib/actions/peer_request.ts:178-190 | a reply can settle only a request issued on its own connection; one that answers nothing changes nothing |
| PeerRequests.ReplySettles | src/lib/actions/peer_request.ts:178-207 | a reply resolves its request with its own body, as success or as the client's error, disarms the timer, and leaves every other request as it was |
| PeerRequests.PendingPeerRequests.Register | src/lib/actions/peer_request.ts:144-163 | refines registration on the nested table |
| PeerRequests.PendingPeerRequests.Settle | src/lib/actions/peer_request.ts:199-207 | refines settling |
| PeerRequests.PendingPeerRequests.Resolve | src/lib/actions/peer_request.ts:178-190 | refines a reply, answering whether it matched |
| PeerRequests.PendingPeerRequests.Drain | src/lib/actions/peer_request.ts:215-223 | its loop resolves every entry of the connection in order |
| RealtimeClosers.FailedRowsCloseNothing | src/lib/actions/connection_closer.ts:162-192 | a row that did not succeed leaves every registry as it was, and a successful one removes exactly the connections its own scope's key names |
| RealtimeClosers.ClosedTargetCalls | src/lib/actions/connection_registry.ts:729-745 | every match has its controller aborted and its socket closed with the target's code, whichever other closes throw |
| RealtimeClosers.SummedMeaning | src/lib/actions/connection_closer.ts:323-341 | the answer is the sum exactly when no member threw, and otherwise the earliest member's error |
| RealtimeClosers.AllReached | src/lib/actions/connection_closer.ts:323-341 | a completed fan-out leaves each member as its own close does, none holding what was named, every invariant kept |
| RealtimeClosers.RealtimeCloser.Add | src/lib/actions/connection_closer.ts:320-360 | a member's count goes up by one and is its un-removed additions; it is appended only the first time |
| RealtimeClosers.RealtimeCloser.Remove | src/lib/actions/connection_closer.ts:320-360 | releases its own addition once; the member leaves with its last one |
| RealtimeClosers.RealtimeCloser.MemberCount | src/lib/actions/connection_closer.ts:320-360 | how many distinct members there are |
| RealtimeClosers.RealtimeCloser.FanOut | src/lib/actions/connection_closer.ts:323-341 | calls each member once in first-addition order, past errors |
| RealtimeClosers.RealtimeCloser.CloseConnections | src/lib/actions/connection_closer.ts:320-360 | afterwards no member holds a match, however many closes threw; the answer is the members' sum or first error |
| RealtimeClosers.RealtimeCloser.CloseAllConnections | src/lib/actions/connection_closer.ts:320-360 | afterwards every member is closing and empty |
| RateLimiterModel.SettledKeepsOk | src/lib/rate_limiter.ts:637-656 | settling a holder gives back exactly its own slot; an orphan or a settled one gives back none |
| RateLimiterModel.GivenBackKeepsOk | src/lib/rate_limiter.ts:637-656 | the in-flight count stays the number of holders: the clamp at zero never bites |
| RateLimiterModel.TurnKeepsOk | src/lib/rate_limiter.ts:533-569 | whichever way a turn of the retry loop ends, the waiter count is the parked calls, at most the cap |
| RateLimiterModel.StepKeepsOk | src/lib/rate_limiter.ts:314-731 | every event keeps both counts exact, and tracks no idle entry |
| RateLimiterTheorems.RunKeepsOk | src/lib/rate_limiter.ts:314-731 | so does every run |
| RateLimiterTheorems.WindowBound | src/lib/rate_limiter.ts:491-511 | for callers that reserve, no window of the configured length holds more than the cap of the attempts recorded since the last reset, and the live ones plus those in flight never exceed it |
| RateLimiterTheorems.SpreadBounds | src/lib/rate_limiter.ts:427-454 | attempts no closer together than the cap allows leave at most the cap in every window |
| RateLimiterTheorems.SortedActive | src/lib/rate_limiter.ts:427-454 | of attempts in order, the live ones are exactly a suffix |
| RateLimiterTheorems.RunBounded | src/lib/rate_limiter.ts:427-511 | the bound as an invariant: pruning early forgets nothing a later look would count |
| RateLimiterTheorems.BareRecordsPassTheCap | src/lib/rate_limiter.ts:463-489 | two bare records pass a cap of one: why callers reserve |
| RateLimiterTheorems.OnlyEvictionOrphans | src/lib/rate_limiter.ts:637-656 | without evictions no reservation is ever parted from its entry |
| RateLimiterTheorems.RetryHint | src/lib/rate_limiter.ts:427-454 | waiting the hint out frees the key exactly when the attempts over the cap expire by then, and a second less never does |
| RateLimiterTheorems.ReservingRetryHint | src/lib/rate_limiter.ts:427-454 | for callers that reserve the hint is exact |
| RateLimiterTheorems.NoWakeupLost | src/lib/rate_limiter.ts:581-611 | while a call sleeps its key is at the in-flight cap with a holder left to wake it, or an attempt has expired since it fell asleep; with the clock held only the first |
| RateLimiterTheorems.SettlesWakeAll | src/lib/rate_limiter.ts:607-656 | a settle, a record and a reset each leave nobody asleep |
| RateLimiterTheorems.BareRecordsOutlastTheHint | src/lib/rate_limiter.ts:463-489 | the hint falling short after bare records: a cap of one, attempts at 0 and 1500 in a window of 2000, and a second's wait leaves the key refused |
| RateLimiterTheorems.SleepersAreAwaited | src/lib/rate_limiter.ts:614-656 | in every run, evictions included, a sleeping call has an unsettled reservation of its key, and settling any of those wakes it |
| RateLimiterTheorems.SleepEnds | src/lib/rate_limiter.ts:581-611 | a sleep ends with a settle, a bare record, a reset or the call's own timer or signal, and with nothing else |
| RateLimiterTheorems.EvictionLeavesASleeper | src/lib/rate_limiter.ts:614-645 | an eviction leaves the key free and its sleepers asleep until the evicted reservations settle |
| RateLimiterOutcomes.LoadMeaning | src/lib/rate_limiter.ts:427-454 | the load is free exactly when live attempts and those in flight leave room, recorded exactly when the live attempts alone fill the cap, and its hint is the wait for the oldest |
| RateLimiterOutcomes.ZeroCapRefuses | src/lib/rate_limiter.ts:427-454 | a cap of zero refuses always, with the window in whole seconds, at least one, as the wait |
| RateLimiterOutcomes.FreeMeansRoom | src/lib/rate_limiter.ts:614-656 | for reserving callers, over runs: free exactly when attempts recorded in the window and unsettled reservations are fewer than the cap |
| RateLimiterOutcomes.ArrivalDecides | src/lib/rate_limiter.ts:533-569 | a new call is reserved exactly when the key is free, refused with the load's own hint exactly when it is recorded, refused with 1 when out of time or past the waiters' cap, and parked and counted otherwise |
| RateLimiterOutcomes.ResumedDecides | src/lib/rate_limiter.ts:533-569 | a woken call decides again by the same rule, sleeping again still counted or giving its place back; one that timed out is refused with 1 |
| RateLimiterOutcomes.WokenTakesTheSlot | src/lib/rate_limiter.ts:518-569 | over runs: a woken call that resumes holds a slot and has left the waiters exactly when the key is free |
| RateLimiterOutcomes.SettleOutcome | src/lib/rate_limiter.ts:637-656 | the first settle gives back its own slot - none once its entry was evicted - and adds its attempt exactly if recorded; a second does nothing |
| RateLimiterOutcomes.RecordOutcome | src/lib/rate_limiter.ts:463-489 | a bare record adds its attempt and touches no reservation |
| RateLimiterOutcomes.ResetOutcome | src/lib/rate_limiter.ts:689-697 | a reset forgives the recorded attempts and keeps what is in flight and the waiters |
| RateLimiterOutcomes.PruningChangesNothing | src/lib/rate_limiter.ts:706-718 | a check or a cleanup changes no answer then or later |
| RateLimiterOutcomes.TryOutcome | src/lib/rate_limiter.ts:507-511 | an immediate reservation takes a slot exactly when the key is free, and leaves the waiters alone |
| RateLimiters.RateLimiter.InFlightIsHeld | src/lib/rate_limiter.ts:614-656 | an entry's in-flight count is the number of unsettled reservations holding that very entry object |
| RateLimiters.RateLimiter.Load | src/lib/rate_limiter.ts:427-454 | refines the load, pruning and untracking as it reads |
| RateLimiters.RateLimiter.Check | src/lib/rate_limiter.ts:414-424 | the answer for each kind of load |
| RateLimiters.RateLimiter.Record | src/lib/rate_limiter.ts:463-489 | records, wakes, and answers against recorded plus in-flight attempts |
| RateLimiters.RateLimiter.TryReserve | src/lib/rate_limiter.ts:507-511 | a fresh reservation exactly when the key is free, else the wait |
| RateLimiters.RateLimiter.Reserve | src/lib/rate_limiter.ts:533-569 | the first turn of a call: reserved, refused or parked |
| RateLimiters.RateLimiter.Resume | src/lib/rate_limiter.ts:533-569 | a woken call reserves, is refused or sleeps again by what it finds (`Decision`), and a timed-out one leaves refused with 1; every exit gives its waiter place back |
| RateLimiters.RateLimiter.GiveUp | src/lib/rate_limiter.ts:581-604 | a timer or an abort takes the waker off the key |
| RateLimiters.RateLimiter.Wake | src/lib/rate_limiter.ts:607-611 | every waker of the key runs and takes itself off it |
| RateLimiters.RateLimiter.Settle | src/lib/rate_limiter.ts:637-656 | the first settle wins; the slot goes back only to the very entry it was taken from |
| RateLimiters.RateLimiter.GiveBack | src/lib/rate_limiter.ts:637-656 | one holder less on its entry, recorded or not |
| RateLimiters.RateLimiter.Hold | src/lib/rate_limiter.ts:614-635 | one attempt more in flight on the key's entry, held by identity |
| RateLimiters.RateLimiter.Leave | src/lib/rate_limiter.ts:572-578 | the last one out removes the key's slot |
| RateLimiters.RateLimiter.Reset | src/lib/rate_limiter.ts:689-697 | forgives what was recorded and keeps what is in flight |
| RateLimiters.RateLimiter.Cleanup | src/lib/rate_limiter.ts:706-718 | sweeps every key, dropping exactly the idle ones |
| OutboundRuns.HandedOverPrefix | src/lib/actions/ws_outbound_writer.ts:389-404 | a hand-over takes a prefix of what waits |
| OutboundRuns.HandedOverKeeps | src/lib/actions/ws_outbound_writer.ts:389-404 | and keeps order, budget, deadline bytes and the mark |
| OutboundRuns.DrainedKeeps | src/lib/actions/ws_outbound_writer.ts:416-448 | a drain leaves whatever still waits or is unwritten scheduled, and nothing waiting below the mark |
| OutboundRuns.PushedKeepsInv | src/lib/actions/ws_outbound_writer.ts:273-296 | a push is accepted at the end of the record, or leaves the record alone |
| OutboundRuns.ClosedKeepsInv | src/lib/actions/ws_outbound_writer.ts:318-344 | a close keeps the invariant of a closed writer: nothing waits and no timer but its own runs |
| OutboundRuns.StepKeepsInv | src/lib/actions/ws_outbound_writer.ts:210-499 | every event keeps order, exact budget, schedule, deadline bytes and the mark |
| OutboundTheorems.AcceptedIsHandedThenWaiting | src/lib/actions/ws_outbound_writer.ts:273-296 | on any socket, accepted frames in push order are those offered to it, those waiting, and those a close discarded; it has exactly the offered ones it did not throw on, and nothing is discarded while open |
| OutboundTheorems.SteadyLosesNothing | src/lib/actions/ws_outbound_writer.ts:389-404 | a socket that never throws has every accepted frame that neither waits nor was discarded, in order |
| OutboundTheorems.OpenRunsAreScheduled | src/lib/actions/ws_outbound_writer.ts:406-448 | after any push to an open writer, what waits or is unwritten has a pump or poll coming and what is unwritten a deadline |
| OutboundTheorems.CloseDropsASuffix | src/lib/actions/ws_outbound_writer.ts:318-344 | a close hands over a prefix and discards the suffix; a flush drops frames only at the mark |
| OutboundTheorems.NothingFollowsTheClose | src/lib/actions/ws_outbound_writer.ts:318-361 | in every continuation of a run, a closed writer sends no data and accepts no frame, whatever is pushed or fires |
| OutboundTheorems.IdlePushPrecedesTheClose | src/lib/actions/ws_outbound_writer.ts:273-296 | a frame pushed at an idle connection is on the socket ahead of a close right after it |
| OutboundTheorems.DeadlineCleared | src/lib/actions/ws_outbound_writer.ts:416-427 | on any socket a drain clears the deadline exactly when bytes written and bytes thrown on reach those covered |
| OutboundTheorems.DeadlineExact | src/lib/actions/ws_outbound_writer.ts:416-448 | on a socket that does not throw, a drain clears the deadline exactly when every byte buffered at its arming is written |
| OutboundTheorems.DeadlineClearedEarly | src/lib/actions/ws_outbound_writer.ts:389-427 | the deadline is never late, and is cleared over unwritten bytes exactly when the bytes thrown on since its arming are as many |
| OutboundTheorems.EarlyOnlyAfterAThrow | src/lib/actions/ws_outbound_writer.ts:389-427 | in every run, an early clearing means a frame's send threw |
| OutboundTheorems.DeadlineMetUnwritten | src/lib/actions/ws_outbound_writer.ts:389-427 | a run in which it happens: 100 bytes sent, 200 thrown on in the pump, and the deadline met with nothing written |
| OutboundTheorems.BufferUnderMark | src/lib/actions/ws_outbound_writer.ts:389-404 | the socket's buffer is always under the high-water mark plus the frame it took last |
| OutboundTheorems.PumpRunsDry | src/lib/actions/ws_outbound_writer.ts:406-427 | a pump turn leaves nothing waiting unless the buffer is at the mark |
| OutboundOutcomes.PushOutcome | src/lib/actions/ws_outbound_writer.ts:273-296 | a push is refused when closed, written through when nothing waits, is scheduled or is unwritten, an overflow exactly when something waits and it would pass the byte budget with its overhead, and otherwise accepted, last in the queue; a pump turn is then scheduled |
| OutboundOutcomes.PushesOverRuns | src/lib/actions/ws_outbound_writer.ts:273-296 | the same over runs, by the bytes waiting |
| OutboundOutcomes.DrainOutcome | src/lib/actions/ws_outbound_writer.ts:389-427 | a pump or poll hands over a prefix in order and stops only when nothing waits or the buffer is at the mark |
| OutboundOutcomes.PollBacksOff | src/lib/actions/ws_outbound_writer.ts:430-448 | a poll that moves nothing doubles the next delay to its bound; progress resets it |
| OutboundOutcomes.PollingEnds | src/lib/actions/ws_outbound_writer.ts:430-448 | with nothing waiting and nothing unwritten the polling ends and starts over at its shortest delay |
| OutboundOutcomes.CloseOutcome | src/lib/actions/ws_outbound_writer.ts:318-344 | a close ends the record with the close frame, a discarding one writing nothing else and a flushing one stopping short only at the mark or a throw; no timer but the close deadline stays |
| OutboundOutcomes.StallOutcome | src/lib/actions/ws_outbound_writer.ts:451-481 | a missed write deadline drops what waits and cuts the socket, or closes it where it cannot be cut |
| OutboundOutcomes.CloseDeadlineOutcome | src/lib/actions/ws_outbound_writer.ts:318-344 | a closing socket still holding bytes at the close deadline is cut |
| OutboundOutcomes.DisposeOutcome | src/lib/actions/ws_outbound_writer.ts:351-361 | a disposed writer keeps no frame and no timer |
| OutboundWriters.OutboundBudget.Admit | src/lib/realtime/outbound_budget.ts:88-99 | one frame always fits an empty queue, and otherwise frames and overhead within the budget |
| OutboundWriters.OutboundBudget.Release | src/lib/realtime/outbound_budget.ts:107-110 | gives back one frame's bytes |
| OutboundWriters.WsOutboundWriter.Push | src/lib/actions/ws_outbound_writer.ts:273-296 | refines write-through, queueing, refusal and overflow on the linked list, and answers what the connection's state deserves (`Deserved`): an overflow exactly past the budget |
| OutboundWriters.WsOutboundWriter.Append | src/lib/actions/ws_outbound_writer.ts:273-296 | links one frame behind the tail |
| OutboundWriters.WsOutboundWriter.HandOver | src/lib/actions/ws_outbound_writer.ts:389-404 | its loop over the list is the recursive hand-over |
| OutboundWriters.WsOutboundWriter.Drain | src/lib/actions/ws_outbound_writer.ts:416-427 | refines the drain |
| OutboundWriters.WsOutboundWriter.Watch | src/lib/actions/ws_outbound_writer.ts:430-448 | arms deadline and poll as the drain's model does |
| OutboundWriters.WsOutboundWriter.PumpTurn | src/lib/actions/ws_outbound_writer.ts:406-413 | the scheduled pump turn |
| OutboundWriters.WsOutboundWriter.PollFires | src/lib/actions/ws_outbound_writer.ts:430-448 | the poll timer, its delay doubling to its bound |
| OutboundWriters.WsOutboundWriter.StallFires | src/lib/actions/ws_outbound_writer.ts:451-481 | the write deadline ends the connection |
| OutboundWriters.WsOutboundWriter.Close | src/lib/actions/ws_outbound_writer.ts:318-344 | refines the close with either backlog |
| OutboundWriters.WsOutboundWriter.CloseDeadline | src/lib/actions/ws_outbound_writer.ts:318-344 | the close deadline cuts a socket that never wrote its close frame |
| OutboundWriters.WsOutboundWriter.Dispose | src/lib/actions/ws_outbound_writer.ts:351-361 | drops what waits and every timer |
| SessionTheorems.DispatchOnlyWhileOpen | src/lib/actions/ws_socket_session.ts:677-751 | a frame starts only after admission and the open hook and before the end; frames start in arrival order; an ended socket answers nothing |
| SessionTheorems.PromisesSettleOnce | src/lib/actions/ws_socket_session.ts:472-523 | each frame's promise is outstanding or settled exactly once, and an ended socket leaves none queued |
| SessionTheorems.Bounded | src/lib/actions/ws_socket_session.ts:959-1005 | the pre-admission queue keeps its count and byte bounds, and at most 128 requests with distinct ids are live |
| SessionTheorems.RefusedRequests | src/lib/actions/ws_socket_session.ts:825-868 | in any run a request message is dispatched, and takes its id, exactly when the id is free, the ceiling not reached, the method known and the socket open and held; otherwise nothing live is disturbed |
| SessionTheorems.DuplicatesAreRefused | src/lib/actions/ws_socket_session.ts:827-841 | however long a request runs, a second one under its id is refused until the first's handler has returned |
| SessionTheorems.CancelIsScoped | src/lib/actions/ws_socket_session.ts:799-818 | in any run what is newly cancelled is a handler running then and after; a cancel message aborts exactly the handler live under the id it names |
| SessionTheorems.AnsweringFreesTheId | src/lib/actions/ws_socket_session.ts:859-946 | in every run an id, once live, stays its request's through everything exactly until that request's handler returns |
| SessionTheorems.AnsweredIffReplied | src/lib/actions/ws_socket_session.ts:929-935 | a frame is answered exactly when its handler returned a reply while the registry held the connection |
| SessionTheorems.AnsweredOnce | src/lib/actions/ws_socket_session.ts:929-935 | in every run a frame is answered at most once, and only after it started |
| SessionTheorems.NoAdmissionAfterTheEnd | src/lib/actions/ws_socket_session.ts:654-675 | in every run a socket is admitted at most once, and never after it ended |
| SessionTheorems.RecheckAdmitsOrEnds | src/lib/actions/ws_socket_session.ts:601-675 | the re-read's return admits a held connection or ends the socket |
| SessionOutcomes.OpeningStartsTheQueue | src/lib/actions/ws_socket_session.ts:738-751 | over runs: completing the opening of a held socket starts the queue in arrival order up to and including the first frame that overflows, each at work and a known request under its id if free; the rest settle unstarted |
| SessionOutcomes.MessageOutcome | src/lib/actions/ws_socket_session.ts:959-1005 | over runs: a message is ignored once ended, ends the socket when too big, past the queue's bounds or no longer held, waits last while opening, and starts at once while open |
| SessionOutcomes.OpensOutcome | src/lib/actions/ws_socket_session.ts:580-599 | opening registers the connection unless it is born closed or the socket has ended |
| SessionOutcomes.RecheckOutcome | src/lib/actions/ws_socket_session.ts:601-675 | the re-read admits exactly when it passed and the connection is held, and ends the socket otherwise |
| SessionOutcomes.TickOutcome | src/lib/actions/ws_socket_session.ts:677-737 | after the admission timers run and the hook is awaited where there is one |
| SessionOutcomes.EndingsOutcome | src/lib/actions/ws_socket_session.ts:511-544 | a timer, a failed hook, the registry and the peer each end the socket; the close hook runs for an admitted one |
| SessionOutcomes.ForgottenOutcome | src/lib/actions/connection_registry.ts:552-562 | a bare removal leaves a session open, no longer held, and all else as it was |
| SessionOutcomes.ReturnOutcome | src/lib/actions/ws_socket_session.ts:929-946 | a handler's return answers exactly if it replies on a held connection, frees the id, and its promise settles once its effects are done |
| SessionRecords.StepKeepsRecord | src/lib/actions/ws_socket_session.ts:948-1041 | every event keeps each mark unique, replies after starts, and running handlers unanswered |
| SessionRuns.FlushedKeeps | src/lib/actions/ws_socket_session.ts:743-750 | flushing the queue, overflows midway included, keeps order and every promise |
| SessionRuns.MessageKeepsInv | src/lib/actions/ws_socket_session.ts:959-1005 | a message keeps the invariant whatever it is and whenever it comes |
| SessionRuns.AnsweredKeepsInv | src/lib/actions/ws_socket_session.ts:929-935 | an answer keeps live ids and running handlers one to one |
| SessionRuns.StepKeepsInv | src/lib/actions/ws_socket_session.ts:948-1041 | every adapter event, timer, registry close and handler return keeps the invariant |
| SocketSessions.WsSocket.OnOpen | src/lib/actions/ws_socket_session.ts:580-599 | registers, or ends a socket born closed |
| SocketSessions.WsSocket.AfterRecheck | src/lib/actions/ws_socket_session.ts:601-675 | admits or refuses |
| SocketSessions.WsSocket.AfterAdmission | src/lib/actions/ws_socket_session.ts:677-737 | starts its timers only if still alive, then the hook or the flush |
| SocketSessions.WsSocket.AfterOpenHook | src/lib/actions/ws_socket_session.ts:738-751 | opens and flushes, unless the socket ended meanwhile |
| SocketSessions.WsSocket.AfterOpenHookFailed | src/lib/actions/ws_socket_session.ts:729-736 | ends the socket |
| SocketSessions.WsSocket.OnMessage | src/lib/actions/ws_socket_session.ts:959-1005 | ignores, closes, queues or dispatches |
| SocketSessions.WsSocket.Flush | src/lib/actions/ws_socket_session.ts:743-750 | its loop is the recursive flush, which starts the queue as `OpeningStartsTheQueue` says |
| SocketSessions.WsSocket.HandleFrame | src/lib/actions/ws_socket_session.ts:755-868 | a frame up to its first await |
| SocketSessions.WsSocket.AfterHandler | src/lib/actions/ws_socket_session.ts:929-935 | replies, then frees the id |
| SocketSessions.WsSocket.AfterEffects | src/lib/actions/ws_socket_session.ts:934-946 | settles the frame's promise |
| SocketSessions.WsSocket.EndSocket | src/lib/actions/ws_socket_session.ts:511-544 | the abort listener runs once, whoever ended the socket |
| SocketSessions.WsSocket.OnClose | src/lib/actions/ws_socket_session.ts:1006-1039 | ends, and runs the close hook only for an admitted socket |
| ClientTheorems.RequestConservation | src/lib/actions/socket.svelte.ts:600-684 | for distinct ids, at every event boundary a request made is in flight, queued or settled: exactly one, once; on a revoked client settled |
| ClientTheorems.WireDiscipline | src/lib/actions/socket.svelte.ts:720-764 | in every run each request is written at most once, pending ones have been and queued ones have not, a cancel follows its request, and the queue keeps its bound and call order |
| ClientTheorems.AbortCancelsInFlight | src/lib/actions/socket.svelte.ts:634-652 | an abort settles the request, and sends `cancel` exactly when its frame was in flight and the socket takes it |
| ClientTheorems.OpenFlushesInCallOrder | src/lib/actions/socket.svelte.ts:738-764 | on open the queue empties onto the wire in call order, whichever entries are aborted and whichever sends fail |
| ClientTheorems.OpenFlushesAll | src/lib/actions/socket.svelte.ts:738-764 | with none of either, every queued request is written, the i-th queued as the i-th frame |
| ClientTheorems.Lifecycle | src/lib/actions/socket.svelte.ts:888-992 | `reconnecting` is exactly an armed timer, the socket exists exactly while connecting or connected, and a revoked client has nothing pending |
| ClientTheorems.RevokedIsAbsorbing | src/lib/actions/socket.svelte.ts:937-948 | in every continuation of a run, a revoked client is closed with nothing pending, and makes and writes nothing more |
| ClientTheorems.SupersededWaitsForConnect | src/lib/actions/socket.svelte.ts:949-962 | in every continuation of a run without `connect`, a superseded client stays closed without a timer |
| ClientTheorems.SetReconnectNeverLater | src/lib/actions/socket.svelte.ts:345-386 | a policy change never makes a scheduled attempt fire later, and drops it only when reconnecting is off |
| ClientOutcomes.ResponseOutcome | src/lib/actions/socket.svelte.ts:1006-1064 | a response to a request in flight appends exactly its own outcome, removes exactly that id from the pending, and leaves queue, wire and status alone; any other moves only the clock |
| ClientOutcomes.OutcomesComeFromResponses | src/lib/actions/socket.svelte.ts:1006-1064 | in every run, whatever resolves or rejects with a wire code came from such a response to a request then in flight |
| ClientOutcomes.RequestOutcome | src/lib/actions/socket.svelte.ts:600-684 | a request is written, queued or rejected by the state it finds, and rejected for the right reason |
| ClientOutcomes.TerminalCloseOutcome | src/lib/actions/socket.svelte.ts:934-992 | a terminal close settles everything for its own reason and leaves the client closed |
| ClientOutcomes.LossOutcome | src/lib/actions/socket.svelte.ts:934-992 | a lost connection rejects what is in flight, keeps the queue, and schedules an attempt where the policy reconnects |
| ClientOutcomes.DisconnectOutcome | src/lib/actions/socket.svelte.ts:526-533 | disconnecting settles everything as unavailable and drops the attempt |
| ClientOutcomes.ConnectOutcome | src/lib/actions/socket.svelte.ts:489-515 | a connect makes a socket, or fails and schedules as a loss does |
| ClientOutcomes.FlushOutcome | src/lib/actions/socket.svelte.ts:738-764 | a flush writes each queued request the socket takes, in order, and settles the aborted and the failed as such |
| ClientOutcomes.OpenOutcome | src/lib/actions/socket.svelte.ts:924-932 | an open socket connects the client, starts the backoff over and flushes |
| ClientOutcomes.CancelOutcome | src/lib/actions/socket.svelte.ts:435-440 | cancelling drops the scheduled attempt and nothing else that waits |
| ClientOutcomes.PolicyOutcome | src/lib/actions/socket.svelte.ts:345-386 | a changed policy brings a scheduled attempt forward to its own delay, if sooner |
| ClientOutcomes.PolicyOffOutcome | src/lib/actions/socket.svelte.ts:345-361 | one that no longer reconnects drops the attempt, starts the backoff over and leaves all that waits |
| ClientOutcomes.FirstDelays | src/lib/actions/socket.svelte.ts:888-908 | the first attempt waits the policy's delay and the second its factor times that, within the bound |
| ClientRuns.TakenOutKeeps | src/lib/actions/socket.svelte.ts:714-736 | taking a request out to settle it conserves requests and the wire record |
| ClientRuns.FlushedKeeps | src/lib/actions/socket.svelte.ts:738-764 | a flush, aborted entries and failing sends included, conserves every request |
| ClientRuns.PolicyKeepsInv | src/lib/actions/socket.svelte.ts:345-386 | a policy change keeps the invariant and the timer no later |
| ClientRuns.StepKeepsInv | src/lib/actions/socket.svelte.ts:211-1065 | every call, timer and socket event keeps the invariant |
| SocketClients.FrontendWebsocketClient.Request | src/lib/actions/socket.svelte.ts:600-684 | sends, queues or rejects |
| SocketClients.FrontendWebsocketClient.OnAbort | src/lib/actions/socket.svelte.ts:634-652 | refines the abort |
| SocketClients.FrontendWebsocketClient.HandleMessage | src/lib/actions/socket.svelte.ts:1006-1064 | a reply settles the pending request of its id, if any, with the reply's own outcome (`ResponseOutcome`) |
| SocketClients.FrontendWebsocketClient.Connect | src/lib/actions/socket.svelte.ts:489-515 | refines `connect`, a throwing constructor included |
| SocketClients.FrontendWebsocketClient.Disconnect | src/lib/actions/socket.svelte.ts:526-533 | tears down and settles everything |
| SocketClients.FrontendWebsocketClient.ReconnectTimerFires | src/lib/actions/socket.svelte.ts:888-908 | the scheduled attempt |
| SocketClients.FrontendWebsocketClient.HandleOpen | src/lib/actions/socket.svelte.ts:924-932 | resets the counters and flushes |
| SocketClients.FrontendWebsocketClient.HandleClose | src/lib/actions/socket.svelte.ts:934-992 | the three terminal codes, and the reconnect or the final close |
| SocketClients.FrontendWebsocketClient.SocketBeginsClosing | src/lib/actions/socket.svelte.ts:855-880 | a socket in its closing handshake is still the client's, and no longer open |
| SocketClients.FrontendWebsocketClient.CancelReconnect | src/lib/actions/socket.svelte.ts:435-440 | drops a scheduled attempt and what waits for it |
| SocketClients.FrontendWebsocketClient.SetReconnect | src/lib/actions/socket.svelte.ts:345-386 | replaces the policy and re-times a scheduled attempt |
| ActionEvents.ParseAdvances | src/lib/actions/action_event.ts:168-234 | parsing moves the event forward, whatever it parses, with `error` set exactly when failed or in an error phase |
| ActionEvents.HandleAdvances | src/lib/actions/action_event.ts:249-285 | handling moves it forward twice whether the handler returns, throws or is absent |
| ActionEvents.TransitionAdvances | src/lib/actions/action_event.ts:336-349 | a legal transition starts a later phase |
| ActionEvents.RunsAreShort | src/lib/actions/action_event_types.ts:25-59 | an event moves through at most fifteen places, so every run of one ends |
| ActionEvents.SendOutcome | src/lib/actions/action_event.ts:168-285 | the send succeeds exactly when the input parses and the handler does not throw |
| ActionEvents.ReceiveOutcome | src/lib/actions/action_event.ts:168-285 | how each response and handler leaves the receiving phase |
| ActionEvents.CallAlwaysResults | src/lib/actions/rpc_client.ts:219-261 | a call always yields a result, a value exactly when sent, answered with success, parsed against the output schema and let stand by the handler |
| ActionEvents.CallCompletes | src/lib/actions/action_event_helpers.ts:103-110 | the call leaves its event complete exactly when no receive handler threw; one that did leaves it parsed in its error phase |
| ActionEvents.CallError | src/lib/actions/action_event_helpers.ts:143-168 | a failed call reports the first thing that went wrong, or what its error handler threw |
| ActionEvents.ServedOutcome | src/lib/actions/action_dispatcher.ts:195-258 | a request received is answered with its handler's output once that passes the schema, with null for nothing, and with the error of its input, its output or the throw otherwise |
| ActionEvents.CallEndToEnd | src/lib/actions/rpc_client.ts:219-261 | from caller to handler and back, the caller is handed a value exactly when the input parses on both sides, no handler on the way throws, and the output passes the handler's side and then the caller's |
| ActionEvents.LocalCallOutcome | src/lib/actions/rpc_client.ts:161-214 | a local call parses its input, runs its handler and checks the output, and any of them fails it |
| ActionEvents.NotificationOutcome | src/lib/actions/rpc_client.ts:264-296 | a notification is sent, or taken in, exactly when it parses and its handler does not throw |
| ActionEvents.RequestMethod | src/lib/actions/rpc_client.ts:219-261 | every move the client makes is legal, and it returns the call's result |
| ActionEvents.ReceiveRequestMethod | src/lib/actions/action_dispatcher.ts:195-258 | every move the receiver makes is legal, and it returns what `Served` answers |
| ActionEvents.ActionEvent.Parse | src/lib/actions/action_event.ts:168-234 | legal exactly at the initial step |
| ActionEvents.ActionEvent.HandleAsync | src/lib/actions/action_event.ts:249-285 | legal exactly when parsed or failed, and each record it leaves is later than the last |
| ActionEvents.ActionEvent.Transition | src/lib/actions/action_event.ts:336-349 | legal exactly from a handled step to the next phase; a failed event stays |
| ActionEvents.ActionEvent.SetResponse | src/lib/actions/action_event.ts:367-375 | legal exactly at the start of a request's receiving phase |
| ActionEvents.ActionEvent.SetRequest | src/lib/actions/action_event.ts:359-365 | legal exactly at the start of a request's receiving phase on the server |
| Periodic.Schedule | src/lib/periodic.ts:97-135 | passes never overlap; each next one starts at the later of its forerunner's timer and end: one successor, no burst |
| Periodic.NeverStuck | src/lib/periodic.ts:97-135 | until stopped, a pass is running or a timer armed, which is due exactly an interval after the last start |
| Periodic.TimerOutcome | src/lib/periodic.ts:114-121 | over runs: a timer that fires starts one pass at once exactly when the last is over |
| Periodic.PassOutcome | src/lib/periodic.ts:126-134 | a pass that ends starts one at once exactly when its timer has fired and no stop came first |
| Periodic.StopOutcome | src/lib/periodic.ts:138-148 | a stop clears the timer and starts and ends nothing |
| Periodic.NoPassAfterStop | src/lib/periodic.ts:136-148 | in every continuation of a run, no pass starts after a stop |
| Periodic.StopWaits | src/lib/periodic.ts:136-148 | a stop called from outside the pass resolves only once every started pass has ended |
| Periodic.OutsideStopWaits | src/lib/periodic.ts:136-148 | and awaits exactly the running pass, if any |
| Periodic.OwnStopDoesNotWait | src/lib/periodic.ts:114-148 | one called in the pass's own first run resolves at once with the pass still running |
| Periodic.StepKeepsInv | src/lib/periodic.ts:97-148 | the due and finished handshake as an invariant of every event |
| Periodic.PeriodicTask.TimerFires | src/lib/periodic.ts:114-135 | the timer marks the next pass due and starts it if its forerunner is done |
| Periodic.PeriodicTask.PassEnds | src/lib/periodic.ts:114-135 | the end of a pass starts a due successor, unless stopped |
| Periodic.PeriodicTask.Stop | src/lib/periodic.ts:136-148 | clears the timer for good |
| Utf8.EncodeRoundTrips | src/lib/actions/transports.ts:195-218 | the modelled encoding is decodable UTF-8: decoding gives the scalars back |
| Utf8.LengthBounds | src/lib/actions/transports.ts:197-210 | for every string, units <= bytes <= 3 * units |
| Utf8.BoundsAreReached | src/lib/actions/transports.ts:197-210 | neither bound can be tightened |
| Utf8.Utf8LengthOver | src/lib/actions/transports.ts:206-210 | the short-circuit agrees with always measuring |
| Utf8.IsEmailWithinLengthMax | src/lib/primitive_schemas.ts:185-198 | the check is exactly "at most 254 bytes" |
| EmailGrammar.SameLanguage | src/lib/primitive_schemas.ts:156-177 | the linear expression, its quadratic spelling and the plain-words rule accept the same strings |
| EmailGrammar.LinearDomainIsGood | src/lib/primitive_schemas.ts:171-177 | the linear domain accepts exactly the dotted domains with no blank or `@` and no dot at either end |
| EmailGrammar.QuadraticDomainIsGood | src/lib/primitive_schemas.ts:171-177 | and so does the quadratic one |
| EmailGrammar.OneWayToMatch | src/lib/primitive_schemas.ts:171-177 | a linear match splits at the domain's first dot and nowhere else |
| EmailGrammar.EveryDotSplits | src/lib/primitive_schemas.ts:171-177 | the quadratic one splits at every inner dot |
| LikePattern.SearchIsPrefix | src/lib/auth/actor_search_queries.ts:78-107 | the escaped query followed by `%` matches exactly the strings it is a prefix of |
| LikePattern.EscapedMatches | src/lib/auth/actor_search_queries.ts:78-83 | escaping is exact in front of any pattern |
| LikePattern.SearchIsWellFormed | src/lib/auth/actor_search_queries.ts:93-107 | the search pattern never ends in a dangling escape |
| LikePattern.UnescapeUndoes | src/lib/auth/actor_search_queries.ts:78-83 | no information is lost by escaping |
| LikePattern.UnescapedSearch | src/lib/auth/actor_search_queries.ts:78-93 | left unescaped, a query searches by prefix exactly when it has no special character |

## Left out

- Hono, runtime adapters, real sockets, `fetch`, logging and Svelte reactivity: events and parameters stand for them.
- SQL, transactions, password hashing and token generation: the database is its live sessions, tokens, accounts, actors and global grants, with an atomic commit; each of the re-read's queries sees every earlier commit.
- Identifiers, hashes, roles and keys are numbers of which only equality matters; a connection's UUID is a counter.
- A connection's entry is a value in the registry's map: the entry object and its writer are not heap objects there, and a writer's answer to a frame is a parameter of the call.
- `SessionModel` takes the registry's refusals and closes as events; `AdmittedDispatch` ties them to one shared registry, on values rather than through the objects.
- A registry that leaves the realtime closer: in `MemberAdmission` members only join.
- Credential expiry: `schedule_credential_deadline` is a timer event that ends the socket.
- The test-preset path skips the re-read and `add_connection` registers in one step: both are outside the admission theorem, and `OneStepRegistrationMissesARevocation` shows why.
- SSE registries as members of the realtime closer: every member is a connection registry.
- AdmissionTheorems.AdmissionSafety: says nothing of an admitted connection's acting actor, since the model's lone actor tombstone closes nothing; the re-read of the actor at admission is modelled.
- Expiry of sessions, tokens and grants is no commit of the modelled database, and neither is an account purge, whose close is an account delete's (src/lib/auth/admin_actions.ts:571-577).
- RateLimiterTheorems.WindowBound: counts no attempt recorded before the key's last reset, since a reset forgives those by design.
- `queue_connection_close` defers a close to the flush after the commit; the flush itself is not modelled, a close is owed until it runs.
- RateLimiters.RateLimiter.TryReserve: which key an LRU map evicts is left open, and no bound on the number of keys is stated; the theorems about runs are about one key, whatever the others do.
- The option checks of the constructors and their `RangeError`s, and the limiter's and the heartbeat's own interval timers.
- The client's heartbeat and the server's receive watchdog: only that their timers can end a socket at any moment.
- Client backoff is over `real`: floating-point rounding and an overflowing power are not modelled.
- Message handlers, error handlers and observers that call back into the object that notifies them.
- ClientTheorems.RequestConservation: a duplicate explicit id is the caller's duty and is excluded.
- JSON texts, schemas and error messages: parsing is a function from values to values or nothing, and an error is its kind.
- ActionEvents.CallAlwaysResults: handlers and observers do not drive the event they are given; the abort signal and the transport are parameters of the answer, and what the request carries is the parsed input as it is.
- The case folding of the actor search, in JavaScript and in SQL.
- `AuditEmitter`, `perform_action`, HTTP transport, route shapes, code generation, and the admin and account handlers.
