# GRIMOIRE, verified

A Dafny model of the parts of the GRIMOIRE game server that are state machines or algorithms: request
multiplexing between client, gateway and services; the gateway's connection table, session routing and
consistent-hash ring; the stream frame codec; the battle simulation; the room, card and registry services.

Check the whole project with `dafny verify dfyconfig.toml`.

## How the model is built

Each protocol is a `State` datatype, an `Event` datatype and a total function `Apply`; a run is any list of
events, and a step whose guard fails changes nothing. One service call, one timer firing or one action of a
forward task is one atomic step, and nothing is assumed about the order of steps. Ghost ledgers (the number of
the request a reply was computed from, the broadcast history, the history of the directory) appear only in
statements; no step looks at them to decide what to do. Beside each protocol stand classes with the source's own
tables and objects, whose methods are proved to make exactly the step of the model. What a step does is also
stated without it, over the objects' own fields or in lemmas, with the source's numbers written out. What only
the runtime knows (spawned tasks, sleeping timers, the clock) is added to them as extra or ghost fields. The
registry's clock, the shuffle, the order in which hash maps are walked and what the network delivers are
parameters of the steps.

| file | source | subject |
|---|---|---|
| `Mux.dfy`, `MuxLimits.dfy`, `MuxApp.dfy` | gateway `session.rs`, `stream.rs`, sim `client.rs` | replies paired with requests by (conn_id, seq) |
| `ConnTable.dfy` | gateway `session.rs` | accept, resume, close, grace timer, kick |
| `SessionRouting.dfy` | gateway `session.rs` | session directory behind a cache, many gateways |
| `Fnv.dfy`, `HashRing.dfy` | gateway `discovery.rs` | FNV-1a, the ring, the discovery cache |
| `FrameCodec.dfy`, `Common.dfy` | net `lib.rs` | the stream framing |
| `Battle.dfy` | battle-svc `main.rs` | delayed inputs, tick, snapshot ring, resync |
| `RoomService.dfy`, `RoomMembership.dfy`, `RoomApp.dfy` | room-svc `main.rs` | disconnect grace and membership |
| `CardRules.dfy`, `CardMatch.dfy`, `CardRuns.dfy`, `CardService.dfy` | card-svc `main.rs` | matching and the card game |
| `Registry.dfy`, `RegistryService.dfy` | registry `memory_backend.rs`, svcfw `reg.rs` | leases and heartbeats |

## What turned out not to hold

Where the code does not keep what its documentation, or a plain reading, promises, the code is modelled as it
is. For each point below one lemma gives a concrete run that fails and another the exact condition:

- The repository's README promises seamless connection migration (its line 34). A client that resumes starts its
  seqs at 1 again, so the reply to a request of its old connection can reach a request of the new one
  (`ResumeCanCrossTalk`). On an open connection, accepting a frame is safe exactly when no other traffic uses its
  (conn_id, seq) at that moment (`AcceptGuardExact`), and rebinding exactly when nobody uses the keys its requests
  then get (`BindGuardExact`); never accepting a (conn_id, seq) twice is enough (`NeverReusingIsEnough`).
- A forward task makes exactly one Response attempt (`PendingIsWhoWaits`), except that a reply which meets a closed
  session channel is followed by a second attempt on the error path (`SecondAttempt`).
- A second resume of one connection can list its session under two ids (`SecondResumeCanSplit`, with the exact
  condition in `ResumeExact`). The entry of a resumed session is never removed by its own close or timer
  (`ResumedIsNeverCleaned`) and can outlive all connections (`ResumedEntryStays`), because both use the id the
  connection was accepted with.
- A disconnected player is guaranteed its 15 seconds exactly when no earlier clean-up task is still asleep
  (`FullGraceExact`): a resume deletes the generation, and the next disconnect starts again at 1
  (`GraceCanBeCut`).
- A join that switches rooms directly leaves a stale member record behind (`SwitchLeavesARecordBehind`), and no
  other join does (`JoinKeepsExactIff`).
- Two players whose hands are both worth less than twenty play out their cards and the game never ends
  (`WeakGameNeverEnds`); all other two-player games can end (`DealDecides`).
- A heartbeat renews a lease by the registry's own ten seconds, not by the TTL the node asked for, so a node that
  asks for thirty seconds or more can be evicted without losing a beat (`TwoLossesButNotThree`, with the run in
  `TooManyLosses` and the exact condition in `LossesSurvivedExactly`).

The comment at crates/grimoire-battle-svc/src/main.rs:109 speaks of one latest input; the code queues all of them,
and that is what is modelled.

## Model

| member | source | states |
|---|---|---|
| MuxModel.RepliesReachTheirRequests | crates/grimoire-gateway/src/session.rs:425-495 | in every run in which requests are accepted, and connections rebound, only onto keys nobody else is using, any reply a client request receives was computed from that same request, whatever is reordered, late, lost or timed out |
| MuxModel.StepSafe | crates/grimoire-gateway/src/stream.rs:78-95 | each of the fourteen kinds of step keeps the invariant behind it: parcels under way lead to their own task, no two senders share a key, replies in hand and on the wire belong to the request they are addressed to |
| MuxModel.RegisterSafe | crates/grimoire-gateway/src/session.rs:449-450 | entering `pending` under the session's current id keeps the invariant |
| MuxModel.RouteSafe | crates/grimoire-gateway/src/stream.rs:79-85 | a routed reply fills the channel of the very task it was computed for, or is dropped |
| MuxModel.ReceiveSafe | crates/grimoire-sim/src/client.rs:70-79 | a response wakes the request it was computed from |
| MuxModel.WakesItsOwn | crates/grimoire-sim/src/client.rs:75-79 | the request waiting under a response's seq is the one the response answers |
| MuxLimits.AcceptGuardExact | crates/grimoire-gateway/src/session.rs:211-227 | on an open connection: every continuation is free of cross-talk if and only if no parcel or sender uses the new request's (conn_id, seq) when it is accepted |
| MuxModel.BindSafe | crates/grimoire-gateway/src/session.rs:294-303 | rebinding a connection onto free keys keeps the invariant, even while it has requests choosing a node |
| MuxLimits.BindGuardExact | crates/grimoire-gateway/src/session.rs:302 | rebinding an open connection while it has requests choosing a node leaves every continuation free of cross-talk if and only if nobody uses the keys those requests then get |
| MuxLimits.BusyParcelCrosses | crates/grimoire-gateway/src/session.rs:450-468 | a parcel under the same key yields a continuation that delivers the wrong reply |
| MuxLimits.BusySenderCrosses | crates/grimoire-gateway/src/session.rs:448-458 | a task about to send under the same key yields one too |
| MuxLimits.RequestSetsOff | crates/grimoire-sim/src/client.rs:167-182 | a new seq on an open connection, in any state of the invariant, gives a frame that can be accepted, and the invariant stays |
| MuxLimits.RequestIsAnswered | crates/grimoire-gateway/src/session.rs:425-475 | an accepted frame that is entered, sent, served, routed, finished and received leaves its client with the reply to this very request |
| MuxLimits.LostRequestIsAnswered | crates/grimoire-gateway/src/session.rs:459-494 | a request lost on its stream ends in an error response that its client receives, its entry and its parcel gone |
| MuxLimits.RejectionIsAnswered | crates/grimoire-gateway/src/session.rs:213-222 | a frame the gateway answers itself on an open connection reaches the client that sent it |
| MuxLimits.AnsweredOnce | crates/grimoire-sim/src/client.rs:75-79 | a response wakes the waiter under its seq with what it carries, and later ones under that seq wake nobody |
| MuxLimits.DatagramGoesOut | crates/grimoire-gateway/src/session.rs:542-569 | a UDP request goes out under the current conn_id and seq 0, and nobody waits for its reply |
| MuxLimits.TidyInEveryRun | crates/grimoire-gateway/src/session.rs:448-495 | keys of unfinished tasks stay distinct, the table fits the tasks and the attempts fit their ends, in every run with distinct keys and no rebinding mid-request |
| MuxLimits.PendingIsWhoWaits | crates/grimoire-gateway/src/session.rs:448-495 | `pending` maps exactly the keys of the waiting tasks to those tasks, so it is empty once all tasks have ended; a finished task made one Response attempt, or two when its reply met a closed channel |
| MuxLimits.PlainRulesHold | crates/grimoire-sim/src/client.rs:167-182 | seqs used once and never 0, no (conn_id, seq) accepted twice and no resume with requests in flight imply both disciplines in every run |
| MuxLimits.NeverReusingIsEnough | crates/grimoire-gateway/src/session.rs:425-495 | under those rules there is no cross-talk and `pending` fits the waiting tasks |
| MuxLimits.SecondAttempt | crates/grimoire-gateway/src/session.rs:470-493 | a concrete run that keeps every rule and in which one finished task has made two Response attempts |
| MuxLimits.ResumeCanCrossTalk | crates/grimoire-gateway/src/session.rs:294-304 | a concrete run, resume frame included, that keeps the plain rules up to the acceptance of a request after the resume, which breaks them and lets the old reply reach it |
| MuxApp.Session.Send | crates/grimoire-gateway/src/session.rs:94-97 | a frame goes out exactly when the session's channel is open |
| MuxApp.Streams.Known | crates/grimoire-gateway/src/session.rs:425-495 | a task's key and its session's openness are the ones in the state that describes the objects |
| MuxApp.Streams.ReadFrame | crates/grimoire-gateway/src/session.rs:224-226 | spawning the task takes the objects to the state after the model's Accept |
| MuxApp.Streams.Enter | crates/grimoire-gateway/src/session.rs:449-450 | the task is entered in `pending` under (conn_id, seq) of its session as it is now, which is the model's Register |
| MuxApp.Streams.HandOver | crates/grimoire-gateway/src/session.rs:451-458 | the request put on the stream, and the state after it, are those of the model's Send |
| MuxApp.Streams.ReplyArrives | crates/grimoire-gateway/src/stream.rs:81-85 | the reader's step is the model's Route: the entry goes, and its task gets the reply if it still listens |
| MuxApp.Streams.Fail | crates/grimoire-gateway/src/session.rs:477-494 | the error path clears the entry under (conn_id, seq), ends the task and sends one error response with the request's seq exactly when the channel is open |
| MuxApp.Streams.FinishTask | crates/grimoire-gateway/src/session.rs:464-495 | a task with its reply ends as in the model's Finish, with one attempt if its channel is open and two if not |
| MuxApp.Streams.AbortTask | crates/grimoire-gateway/src/session.rs:459-495 | a failure or a timeout is the model's Abort, with one attempt |
| MuxApp.Client.Issue | crates/grimoire-sim/src/client.rs:167-172 | a request takes the low 32 bits of the counter and waits under them |
| MuxApp.Client.OnResponse | crates/grimoire-sim/src/client.rs:75-79 | a response wakes and removes the waiter under its seq, if any |
| MuxApp.ClientSeqsAreFresh | crates/grimoire-sim/src/client.rs:168 | a client's seqs are distinct and non-zero exactly while fewer than 2^32 requests have been issued |
| ConnTableModel.ResumeExact | crates/grimoire-gateway/src/session.rs:283-303 | a resume keeps every entry filed under its session's current id if and only if it leaves no third entry of that session behind |
| ConnTableModel.FirstResumeIsTame | crates/grimoire-gateway/src/session.rs:283-303 | the first resume of a connection meets that condition |
| ConnTableModel.ResumingOnceIsTame | crates/grimoire-gateway/src/session.rs:283-303 | every run in which each connection resumes successfully at most once is tame, and connections that have not resumed keep their original id |
| ConnTableModel.SecondResumeCanSplit | crates/grimoire-gateway/src/session.rs:301-303 | a concrete run with two resumes that lists one session under two ids |
| ConnTableModel.StepSound | crates/grimoire-gateway/src/session.rs:151-312 | accept, tame resume, close, timer, kick and the passing of time each keep the table sound |
| ConnTableModel.EntriesNameTheirSessions | crates/grimoire-gateway/src/session.rs:160-165 | in every run with tame resumes each entry k holds a session whose current id is k, so no session is listed twice |
| ConnTableModel.NamedOnce | crates/grimoire-gateway/src/session.rs:283-303 | where entries name their sessions, no session is listed under two ids |
| ConnTableModel.IdsNameTheGateway | crates/grimoire-common/src/lib.rs:67-84 | the high byte of an id is the gateway and the rest the accept number modulo 2^24, so two ids are equal exactly when both agree |
| ConnTableModel.TimerSparesTakeovers | crates/grimoire-gateway/src/session.rs:251-265 | a grace timer removes at most its own session's entry under its original id, never a session that took the id over |
| ConnTableModel.OnlyResumedRemain | crates/grimoire-gateway/src/session.rs:251-265 | when all connections are closed and all timers have fired, each remaining entry belongs to a connection that resumed |
| ConnTableModel.ResumedIsNeverCleaned | crates/grimoire-gateway/src/session.rs:256-264 | and no close, timer or waiting ever removes such an entry |
| ConnTableModel.ResumedEntryStays | crates/grimoire-gateway/src/session.rs:241-265 | a concrete run that ends with both connections closed, both timers fired and an entry left |
| ConnTableModel.ResumableForEightSeconds | crates/grimoire-gateway/src/session.rs:241-265 | after a close, until eight seconds have passed, any other open connection can take the id over unless somebody acts on that id |
| ConnTable.Ctx.AcceptConnection | crates/grimoire-gateway/src/session.rs:160-165 | a new session object is filed under gateway * 2^24 + number mod 2^24, nothing else changes, and the step is the model's Accept |
| ConnTable.Ctx.HandleResume | crates/grimoire-gateway/src/session.rs:269-313 | the old id is the payload's four bytes, most significant first; any other length, the own id and an unknown id change nothing |
| ConnTable.Ctx.Resume | crates/grimoire-gateway/src/session.rs:283-303 | succeeds exactly for another id that is in the table; then the entries under both ids go, the session is filed under the old one and bears it |
| ConnTable.Ctx.TakeOver | crates/grimoire-gateway/src/session.rs:294-303 | both entries go, the session is filed under the old id, and no other session's id changes |
| ConnTable.Ctx.ConnectionEnds | crates/grimoire-gateway/src/session.rs:241-254 | the timer is set to eight seconds from now and the table stays |
| ConnTable.Ctx.GraceEnds | crates/grimoire-gateway/src/session.rs:253-265 | comparing session objects removes exactly the entry the model's Fire removes |
| ConnTable.Ctx.KickConnection | crates/grimoire-gateway/src/main.rs:108-126 | the entry goes, and the answer says whether it was there |
| RoutingModel.CachesAreFromTheDirectory | crates/grimoire-gateway/src/session.rs:382-387 | every cache entry on every gateway is what the directory named exactly one lifetime before the entry expires |
| RoutingModel.StalenessIsBounded | crates/grimoire-gateway/src/session.rs:359-394 | a returned node was named by the directory for this very session less than 15 seconds ago, and discovery lists it |
| RoutingModel.EverybodyMeetsAtTheHost | crates/grimoire-gateway/src/session.rs:359-394 | if a session only ever has one host, no bound connection on any gateway is sent to another node by the directory |
| RoutingModel.BoundConnectionsReachTheHost | crates/grimoire-gateway/src/session.rs:359-394 | in every run a connection bound to a session that only ever had one host, which the directory names and discovery lists, is routed to exactly that host, on every gateway |
| RoutingModel.CachedHostIsReturned | crates/grimoire-gateway/src/session.rs:370-376 | a live cache entry that names a listed node is what a bound connection gets, and nothing changes |
| RoutingModel.LookedUpHostIsReturned | crates/grimoire-gateway/src/session.rs:382-387 | without a live entry a listed host from the directory is returned and cached for fifteen seconds on this gateway, and nothing else changes |
| RoutingModel.NobodyToRouteTo | crates/grimoire-gateway/src/session.rs:359-364 | a connection not bound in the domain, or bound to a session neither cache nor directory knows, gets nothing and changes nothing |
| RoutingModel.NewHostIsReached | crates/grimoire-gateway/src/session.rs:370-387 | after any run, fifteen seconds after a session moved to another host every gateway routes its connections there, whatever the caches said |
| RoutingModel.LostSessionIsNotRouted | crates/grimoire-gateway/src/session.rs:370-382 | after any run, fifteen seconds after the directory lost a session nobody is routed by it |
| RoutingModel.FailedForwardForgets | crates/grimoire-gateway/src/session.rs:479-484 | a failed forward of a bound connection drops binding, cache entry and directory entry and leaves the other gateways alone; an unbound one changes nothing |
| RoutingModel.DeadHostIsForgotten | crates/grimoire-gateway/src/session.rs:377-403 | a bound session whose host is gone loses binding, cache entry and directory entry, and other gateways are untouched |
| SessionRouting.Gateway.SessionTargetNode | crates/grimoire-gateway/src/session.rs:359-394 | on the gateway's own tables: a live entry with a listed node, or else a listed host of the directory, now cached for fifteen seconds, is returned; a dead host is forgotten; otherwise nothing happens |
| SessionRouting.Gateway.BindSession | crates/grimoire-gateway/src/session.rs:316-325 | a five-byte payload binds the connection to its first byte times 2^24 and the number in the other four, most significant first; any other is refused without a change |
| SessionRouting.Gateway.InvalidateSession | crates/grimoire-gateway/src/session.rs:397-404 | binding, cache entry and directory entry go, nothing else |
| SessionRouting.Gateway.ForwardFailed | crates/grimoire-gateway/src/session.rs:479-484 | a failed forward forgets the session only if it is bound in that domain |
| Fnv.Fnv1a | crates/grimoire-gateway/src/discovery.rs:32-39 | the loop computes the hash function characterised in the rows below |
| Fnv.HashOneMore | crates/grimoire-gateway/src/discovery.rs:32-39 | the empty text hashes to 0x811c9dc5, and one byte more is xored in, multiplied by 16777619 and cut to 32 bits |
| Fnv.XorByBits | crates/grimoire-gateway/src/discovery.rs:35 | each binary digit of the xor is one exactly where the two digits differ |
| Fnv.XorUndone | crates/grimoire-gateway/src/discovery.rs:35 | xor with a fixed value undoes itself |
| Fnv.MultiplyUndone | crates/grimoire-gateway/src/discovery.rs:36 | multiplication by the prime modulo 2^32 is undone by 0x359c449b |
| Fnv.MixKeepsStates | crates/grimoire-gateway/src/discovery.rs:35-36 | one round is injective in the state |
| Fnv.MixKeepsBytes | crates/grimoire-gateway/src/discovery.rs:35-36 | one round is injective in the byte |
| Fnv.DifferentStatesStayApart | crates/grimoire-gateway/src/discovery.rs:34-37 | different states stay different over any common suffix |
| Fnv.NearKeysSeparate | crates/grimoire-gateway/src/discovery.rs:32-39 | byte strings that differ in exactly one position never hash alike |
| HashRing.DecimalIsNumeral | crates/grimoire-gateway/src/discovery.rs:46 | the text of a virtual index consists of digits, has no leading zero unless it is zero, and reads back as the index |
| HashRing.NumeralIsUnique | crates/grimoire-gateway/src/discovery.rs:46 | and it is the only such text |
| HashRing.PointText | crates/grimoire-gateway/src/discovery.rs:44-48 | the v-th point of a node is the hash of its id, a number sign and the numeral of v |
| HashRing.IndicesHaveTheirOwnTexts | crates/grimoire-gateway/src/discovery.rs:45-47 | different indices give one node different texts |
| HashRing.KeyBytes | crates/grimoire-gateway/src/discovery.rs:58 | a connection number is hashed over its four bytes, least significant first |
| HashRing.OwnsExactly | crates/grimoire-gateway/src/discovery.rs:42-52 | a node owns a point if and only if that is the hash of its id, a number sign and the numeral of one of 0 to 99 |
| HashRing.NearNodeIdsSeparate | crates/grimoire-gateway/src/discovery.rs:44-48 | node ids of one length that differ in one byte never collide at the same virtual index |
| HashRing.Agreement | crates/grimoire-gateway/src/discovery.rs:42-63 | two node lists disagree about a key only if one of the two choices is missing from the other list |
| HashRing.AddingMovesOnlyToTheNewNode | crates/grimoire-gateway/src/discovery.rs:42-63 | adding a node moves a key only to the new node |
| HashRing.RemovingMovesOnlyItsKeys | crates/grimoire-gateway/src/discovery.rs:42-63 | removing a node moves only the keys it served |
| HashRing.OrderDoesNotMatter | crates/grimoire-gateway/src/discovery.rs:42-63 | the chosen node id does not depend on the order or repetitions of the list, though the ring stores indices |
| HashRing.SuccessorIsUnique | crates/grimoire-gateway/src/discovery.rs:54-63 | the clockwise successor of a point is determined |
| HashRing.SortByPoint | crates/grimoire-gateway/src/discovery.rs:50 | the points come out sorted and are a permutation of those put in |
| HashRing.Build | crates/grimoire-gateway/src/discovery.rs:42-52 | the ring is sorted by point and has a hundred entries for each node: the hash of "id#v" for every numeral v from 0 to 99, with the node's position, and no other |
| HashRing.BinarySearch | crates/grimoire-gateway/src/discovery.rs:59-61 | an index holding the value, or the place that separates smaller from larger points |
| HashRing.LandingIsSuccessor | crates/grimoire-gateway/src/discovery.rs:59-62 | wherever the search may land, with colliding points too, is the clockwise successor |
| HashRing.Pick | crates/grimoire-gateway/src/discovery.rs:54-63 | for any non-empty list the index is in range and its node owns the clockwise successor of the key's hash, where the points are the hashes of the hundred texts "id#0" to "id#99" (`OwnsExactly`) and the key is hashed as in `KeyBytes` |
| HashRing.Discovery.Fetch | crates/grimoire-gateway/src/discovery.rs:128-146 | a failed lookup changes nothing; a reply replaces list and ring of that domain only |
| HashRing.Discovery.Resolve | crates/grimoire-gateway/src/discovery.rs:106-126 | with a key never misses on a non-empty list and returns the node that serves it on a list not older than three seconds; exactly when nothing is returned |
| HashRing.Discovery.ResolveByNodeId | crates/grimoire-gateway/src/discovery.rs:149-161 | finds the node exactly when the fresh or newly fetched list contains it |
| Common.Be32RoundTrip | crates/grimoire-net/src/lib.rs:47-49 | big-endian write then read is the identity |
| Common.FromBe32RoundTrip | crates/grimoire-net/src/lib.rs:79-81 | big-endian read then write is the identity |
| Common.WritesBigEndian | crates/grimoire-net/src/lib.rs:47-49 | the four bytes written are worth 2^24, 2^16, 2^8 and 1 and add up to the number |
| Common.ReadsBigEndian | crates/grimoire-net/src/lib.rs:79-81 | four bytes are read with those weights |
| FrameCodec.PTypeFromU8 | crates/grimoire-net/src/lib.rs:20-29 | 0 is a request, 1 a response, 2 a push, 3 a heartbeat, 4 a close, anything else nothing, in both directions |
| FrameCodec.EncodingIsTheLayout | crates/grimoire-net/src/lib.rs:42-51 | bytes are the encoding of a frame if and only if they are "MT", 1, the code of its type, message id, seq and payload length in big-endian order and the payload, each at its offset |
| FrameCodec.DecodeVerdicts | crates/grimoire-net/src/lib.rs:67-93 | when the decoder answers what, in plain bytes: which byte is to blame for each error and when more bytes are needed, each if and only if |
| FrameCodec.DecodeExact | crates/grimoire-net/src/lib.rs:67-93 | decode returns (frame, rest) if and only if the buffer is that frame's encoding followed by rest and the payload is within 4 MiB |
| FrameCodec.RoundTripExact | crates/grimoire-net/src/lib.rs:42-93 | a frame survives encoding and decoding if and only if its payload is within the limit |
| FrameCodec.DecodeStable | crates/grimoire-net/src/lib.rs:67-93 | later bytes never change a verdict already reached |
| FrameCodec.DrainConsumes | crates/grimoire-net/src/lib.rs:85-92 | the bytes a drain takes off the buffer are the encodings of the frames it returned |
| FrameCodec.DrainSplit | crates/grimoire-net/src/lib.rs:67-93 | draining a prefix first and the rest later equals draining the whole |
| FrameCodec.FeedAllIsOneDrain | crates/grimoire-net/src/lib.rs:67-93 | a reader fed chunk by chunk has the frames and the error of one drain of all bytes, and its buffer with the chunks it never read is what that drain leaves |
| FrameCodec.ChunkingIndependence | crates/grimoire-net/src/lib.rs:67-93 | any two ways of cutting the same bytes deliver the same frames and verdict and leave the same bytes |
| FrameCodec.FramesSurviveChunking | crates/grimoire-net/src/lib.rs:42-93 | frames within the limit come out as sent, in order, with an empty buffer, however the bytes are cut |
| FrameCodec.FrameBuffer.EncodeInto | crates/grimoire-net/src/lib.rs:42-51 | appends bytes that are the frame in that layout: byte 3 is 0 exactly for a request, 1 exactly for a response, and so on |
| FrameCodec.FrameBuffer.Decode | crates/grimoire-net/src/lib.rs:67-93 | answers as the decoding function does; when a frame comes out, the bytes taken off the front are its layout, and otherwise the buffer stays |
| FrameCodec.FrameBuffer.Receive | crates/grimoire-net/src/lib.rs:67-93 | a chunk appended and decoded until nothing is left is one drain |
| BattleModel.SlotsHoldWhatIsOwed | crates/grimoire-battle-svc/src/main.rs:97-131 | in every run each slot not yet reached holds exactly the inputs due at its frame whose players have not left, in arrival order, and no past slot exists |
| BattleModel.SlotOfAnInput | crates/grimoire-battle-svc/src/main.rs:111 | an input stamped f that arrives at server frame n is queued in slot max(min(f + 2, 2^64 - 1), n + 1) |
| BattleModel.WhoPlays | crates/grimoire-battle-svc/src/main.rs:86-98 | in every run a player takes part if and only if it has joined and not left since |
| BattleModel.WhatMovesAPlayer | crates/grimoire-battle-svc/src/main.rs:116-130 | only a tick moves a player, along its own inputs in the current slot in their order |
| BattleModel.MovesExactly | crates/grimoire-battle-svc/src/main.rs:117-129 | a direction longer than a millionth moves a player 0.4 units along it, each coordinate stopping at 0 and 100; a shorter one does not move it |
| BattleModel.ConsumedAtTarget | crates/grimoire-battle-svc/src/main.rs:110-131 | a tick consumes an input stamped f that arrived at frame F exactly when it starts at max(min(f + 2, 2^64 - 1), F + 1) and the player did not leave in between |
| BattleModel.OneTickPerFrame | crates/grimoire-battle-svc/src/main.rs:116-131 | no two ticks start from one frame, so nothing is consumed twice |
| BattleModel.EveryInputHasOneFate | crates/grimoire-battle-svc/src/main.rs:97-131 | every accepted input is exactly one of applied, discarded and pending |
| BattleModel.RingIsEndOfHistory | crates/grimoire-battle-svc/src/main.rs:131-138 | frame n is the n-th broadcast and the ring is the last thirty of the broadcast history |
| BattleModel.ResyncIsHistorySlice | crates/grimoire-battle-svc/src/main.rs:140-151 | resync(last) is exactly the broadcasts of frames max(last + 1, n - 29, 1) to n, and empty when last is not behind |
| BattleModel.TickIsPlayerwise | crates/grimoire-battle-svc/src/main.rs:116-130 | a player's result depends only on its position and its own inputs in order |
| BattleModel.PlayersSeeOnlyTheirOwn | crates/grimoire-battle-svc/src/main.rs:110-138 | a player cannot tell any run from the one without the other players' inputs: same frame, own position, own snapshots and own queued inputs |
| BattleModel.OnlyOwnOrderMatters | crates/grimoire-battle-svc/src/main.rs:110-138 | any two whole runs with the same joins, leaves and ticks, between which each player sends the same inputs in the same order, reach the same world and the same snapshots |
| BattleModel.SameForStep | crates/grimoire-battle-svc/src/main.rs:86-138 | battles that treat a player alike still do after any join, leave, input or tick |
| BattleModel.OwnInputsDoNotCommute | crates/grimoire-battle-svc/src/main.rs:126-127 | at the edge of the field one player's two inputs do not commute |
| BattleModel.PlayersStayInField | crates/grimoire-battle-svc/src/main.rs:86-130 | in every run every player stays in the field |
| BattleModel.OneInputMovesAtMostAStride | crates/grimoire-battle-svc/src/main.rs:116-129 | one input moves a player by Euclidean distance at most 0.4 |
| BattleModel.InputsMoveAtMostTheirStrides | crates/grimoire-battle-svc/src/main.rs:116-129 | k inputs in one tick move it by at most 0.4 k along each axis |
| BattleModel.Battle.AddPlayer | crates/grimoire-battle-svc/src/main.rs:86-95 | the player starts at (25, 50) in an empty battle and at (75, 50) otherwise, replacing any namesake; nothing else changes |
| BattleModel.Battle.RemovePlayer | crates/grimoire-battle-svc/src/main.rs:97-102 | the player is gone, its inputs are gone from every slot, and everybody else's are still there in order |
| BattleModel.Battle.Input | crates/grimoire-battle-svc/src/main.rs:110-114 | the input goes to the end of slot max(min(f + 2, 2^64 - 1), frame + 1), and nothing else changes |
| BattleModel.Battle.TickFrame | crates/grimoire-battle-svc/src/main.rs:116-138 | the frame number grows by one, the slot goes, each player walks its own inputs in it, and the ring gets the new snapshot and keeps thirty |
| BattleModel.Battle.Resync | crates/grimoire-battle-svc/src/main.rs:140-151 | returns exactly the ring's frames after the given one, in order |
| BattleModel.Battle.TickAndBroadcast | crates/grimoire-battle-svc/src/main.rs:302-306 | the snapshot sent has the new frame number and every player's position as it is now; it is the newest frame of the ring and the next entry of the broadcast history |
| RoomModel.GraceInEveryRun | crates/grimoire-room-svc/src/main.rs:151-192 | in every run a connection awaits removal if and only if its player exists and is offline, and a timer of the same generation is outstanding |
| RoomModel.StepKeepsGrace | crates/grimoire-room-svc/src/main.rs:92-192 | every operation and timer keeps that |
| RoomModel.OnlyExpiryRemoves | crates/grimoire-room-svc/src/main.rs:164-192 | no step removes an online player; only a due timer of the current generation removes anybody |
| RoomModel.NoTimersNoOffline | crates/grimoire-room-svc/src/main.rs:151-192 | once all timers have fired no offline player remains |
| RoomModel.FullGraceExact | crates/grimoire-room-svc/src/main.rs:151-167 | a disconnecting player keeps its place for 15 seconds in every continuation if and only if none of its timers due earlier is still asleep |
| RoomModel.EarlyTimerEvicts | crates/grimoire-room-svc/src/main.rs:92-167 | an earlier timer can always be made to evict: resume, drop as often as its generation says, wait |
| RoomModel.GraceCanBeCut | crates/grimoire-room-svc/src/main.rs:151-167 | a concrete run after which a disconnect is followed, in some continuation, by eviction before its 15 seconds are over |
| RoomMembership.MembershipInEveryRun | crates/grimoire-room-svc/src/main.rs:164-260 | a non-zero room id names an existing room that contains the player, no room is empty, and members do not exceed a capacity in 2..64 |
| RoomMembership.ExactInEveryRun | crates/grimoire-room-svc/src/main.rs:194-260 | in runs without a direct switch of rooms every member record is accurate |
| RoomMembership.ExactlyOneSeat | crates/grimoire-room-svc/src/main.rs:194-260 | then each player is listed exactly once in its room and nowhere else |
| RoomMembership.JoinKeepsExactIff | crates/grimoire-room-svc/src/main.rs:221-239 | a join keeps every record accurate if and only if it is not a direct switch |
| RoomMembership.SwitchLeavesARecordBehind | crates/grimoire-room-svc/src/main.rs:221-239 | a concrete run to accurate rooms from which a direct switch leaves an inaccurate record |
| RoomMembership.StepKeepsMembership | crates/grimoire-room-svc/src/main.rs:92-260 | every operation and timer keeps the membership invariant |
| RoomApp.Retain | crates/grimoire-room-svc/src/main.rs:180 | keeps exactly the members with another id, in order |
| RoomApp.Mark | crates/grimoire-room-svc/src/main.rs:142-144 | sets the flag of the connection's first record and nothing else |
| RoomModel.MarkSetsTheFlag | crates/grimoire-room-svc/src/main.rs:142-144 | in any member list just the first record of the connection changes, and of it just the flag |
| RoomModel.RemoveWorksPiecewise | crates/grimoire-room-svc/src/main.rs:180 | removal goes through concatenations and drops a single record exactly if it has the id |
| RoomApp.App.Login | crates/grimoire-room-svc/src/main.rs:92-113 | a known connection keeps its id, is online and no longer awaits removal; an unknown one gets the next id, in no room |
| RoomApp.App.Resume | crates/grimoire-room-svc/src/main.rs:98-99 | a known connection is online again and its removal is called off |
| RoomApp.App.Vacate | crates/grimoire-room-svc/src/main.rs:172-190 | the members with the id leave the room, and the room goes if nobody stays |
| RoomApp.App.SetOnline | crates/grimoire-room-svc/src/main.rs:133-146 | player and member record change as in the model |
| RoomApp.App.PlayerConnected | crates/grimoire-room-svc/src/main.rs:401-414 | the step is the model's Connected |
| RoomApp.App.PlayerDisconnected | crates/grimoire-room-svc/src/main.rs:416-434 | the step is the model's Disconnected |
| RoomApp.App.MarkDisconnected | crates/grimoire-room-svc/src/main.rs:151-161 | the player is offline, the generation grows by one from zero, and a timer of it is due in fifteen seconds |
| RoomApp.App.ExpireSession | crates/grimoire-room-svc/src/main.rs:164-192 | only for the current generation, the player goes, and leaves its room, which goes too if nobody stays |
| RoomApp.App.Wake | crates/grimoire-room-svc/src/main.rs:157-160 | a due clean-up task wakes once and expires its own generation, as the model's Fire |
| RoomApp.App.CreateRoom | crates/grimoire-room-svc/src/main.rs:194-219 | succeeds exactly for a player in no room, who is then the one member of a room with 2 to 64 places under the next id |
| RoomApp.App.JoinRoom | crates/grimoire-room-svc/src/main.rs:221-239 | succeeds exactly for a player already inside or when the members are fewer than the places, the last place included; then the member is added at the end |
| RoomApp.App.LeaveRoom | crates/grimoire-room-svc/src/main.rs:241-260 | succeeds exactly for a player in an existing room, who is then in none; an emptied room goes |
| CardRules.TwoCardsAreWeak | crates/grimoire-card-svc/src/main.rs:35-44 | any two deck cards are worth at most 17 |
| CardRules.DeckExactly | crates/grimoire-card-svc/src/main.rs:35-44 | the deck is the six cards with powers 8, 6, 9, 5, 4 and 7, each once |
| CardRules.DealsExactly | crates/grimoire-card-svc/src/main.rs:153-159 | a hand can be dealt if and only if it is three different cards of the deck |
| CardRules.WinningTakesThreeCards | crates/grimoire-card-svc/src/main.rs:153-159 | a score of twenty means the whole deal has been played |
| CardRules.VictimIsOpponent | crates/grimoire-card-svc/src/main.rs:273-282 | whatever target is named, the one opponent is hit |
| CardRules.PlayLaw | crates/grimoire-card-svc/src/main.rs:283-291 | everything one accepted card changes: card out of the hand, score up, opponent hurt, over exactly at twenty, otherwise the opponent's turn; the total stays and the game stays fair |
| CardRules.CardHitsOpponent | crates/grimoire-card-svc/src/main.rs:262-291 | in a game of two, whatever target is named: the card leaves the hand, its power is added to the score and taken from the opponent's hit points down to zero, which ends the game for the player, who otherwise hands over the turn |
| CardRules.PassIsFair | crates/grimoire-card-svc/src/main.rs:337 | ending a turn passes it to the opponent, or back when alone, and keeps the game sound |
| CardRules.PlayedOut | crates/grimoire-card-svc/src/main.rs:116-124 | with both hands empty the game is over if and only if one deal was worth twenty |
| CardRules.ViewHidesExactlyTheOtherHands | crates/grimoire-card-svc/src/main.rs:127-150 | two games give a player the same view if and only if they differ at most in the cards in other hands (and in connections) |
| CardRules.ViewShows | crates/grimoire-card-svc/src/main.rs:127-150 | a view is a player's view if and only if it shows every player's id, hit points, score and number of cards, the own cards only, whose turn it is and how the game stands |
| CardModel.MatchedInEveryRun | crates/grimoire-card-svc/src/main.rs:188-254 | connection entries and seats mirror each other, every game is sound and at most one game is waiting |
| CardModel.StepKeepsMatched | crates/grimoire-card-svc/src/main.rs:188-342 | start, play and end of turn each keep that |
| CardRuns.LookupsSucceed | crates/grimoire-card-svc/src/main.rs:256-282 | in every run a call finds its own seat and an accepted card its opponent, so no unwrap or index fails |
| CardRuns.TurnsInRangeInEveryRun | crates/grimoire-card-svc/src/main.rs:127-133 | in every run every game's turn index is a seat, so every game can be shown |
| CardRuns.HitPointsMirrorScores | crates/grimoire-card-svc/src/main.rs:283-285 | in every run a player's hit points are max(0, 20 - the opponent's score) |
| CardRuns.NothingIsLost | crates/grimoire-card-svc/src/main.rs:188-342 | over every continuation seats stay, score plus hand power is constant and a finished game never changes |
| CardRuns.SixPlaysAtMost | crates/grimoire-card-svc/src/main.rs:256-291 | the accepted plays of a game are the cards missing from its hands, never more than six |
| CardRuns.EndOfGame | crates/grimoire-card-svc/src/main.rs:116-124 | finished exactly when somebody has no hit points; the other one won, with an empty hand dealt twenty or more |
| CardRuns.PlayToTheEnd | crates/grimoire-card-svc/src/main.rs:256-342 | a player dealt twenty can be brought to win from any state, by an explicit run |
| CardRuns.DealDecides | crates/grimoire-card-svc/src/main.rs:116-124 | a two-player game can still end if and only if one of the deals was worth twenty |
| CardRuns.WeakGameNeverEnds | crates/grimoire-card-svc/src/main.rs:116-124 | a concrete start with two deals of fifteen, after which no run ends the game |
| CardService.CardGame.PlayerIdxOf | crates/grimoire-card-svc/src/main.rs:111-113 | the first seat of the player |
| CardService.CardGame.CheckFinish | crates/grimoire-card-svc/src/main.rs:116-124 | of two players the first without hit points loses and the game is over; otherwise nothing changes; and it is the model's check |
| CardService.CardGame.ViewFor | crates/grimoire-card-svc/src/main.rs:127-150 | shows, of every player in order, id, hit points, score, number of cards and, for the recipient only, the cards; the player whose turn it is; and the game's id, phase and winner |
| CardService.CardGame.FindVictim | crates/grimoire-card-svc/src/main.rs:273-282 | the victim of the model |
| CardService.CardGame.SitDown | crates/grimoire-card-svc/src/main.rs:222-232 | a newcomer gets the last seat with 20 hit points, no score and its hand; a full game, or one it sits in already, stays as it is |
| CardService.CardGame.Strike | crates/grimoire-card-svc/src/main.rs:283-291 | the updates in their order make exactly the model's play |
| CardService.CardGame.Play | crates/grimoire-card-svc/src/main.rs:262-291 | the refusals in the source's order, each without a change, and otherwise the model's play, which in an open game of two does what `CardHitsOpponent` says |
| CardService.CardGame.EndTurn | crates/grimoire-card-svc/src/main.rs:334-337 | the turn goes to the next seat, or to the first after the last, exactly if the game is on and it is the caller's turn |
| CardService.App.FindWaiting | crates/grimoire-card-svc/src/main.rs:197-206 | some waiting game in whatever order the table is walked, none exactly when nobody waits |
| CardService.App.Match | crates/grimoire-card-svc/src/main.rs:197-233 | joins a waiting game if the scan finds one and opens a new one otherwise, as the model's Start |
| CardService.App.Start | crates/grimoire-card-svc/src/main.rs:188-254 | the step is the model's Start, and the answer shows the caller its game, its own cards and nobody else's |
| CardService.App.PlayCard | crates/grimoire-card-svc/src/main.rs:256-291 | refused exactly for a connection in no game, a finished game, out of turn, for a card that is not there or without an opponent; otherwise the card hits the opponent, as in the model |
| CardService.App.EndTurn | crates/grimoire-card-svc/src/main.rs:326-342 | succeeds exactly for a connection in a game that is on and whose turn it is, as in the model |
| RegistryModel.ListedWhileRenewed | crates/grimoire-registry/src/memory_backend.rs:53-99 | a registered node is listed, under its own address, if and only if no sweep came at or after the end of its latest renewal's lease; other nodes never matter |
| RegistryModel.GoneSoonAfter | crates/grimoire-registry/src/memory_backend.rs:86-99 | a node is listed for at most its lease and one sweep gap after its latest renewal |
| RegistryModel.LossesSurvivedExactly | crates/grimoire-svcfw/src/reg.rs:38-58 | a number of lost beats in a row is survived in every run if and only if (lost + 1) periods plus the jitter stay below the ten-second lease |
| RegistryModel.PeriodIsAThird | crates/grimoire-svcfw/src/reg.rs:38 | the heartbeat period is a third of the TTL rounded down, and never less than a second |
| RegistryModel.TwoLossesButNotThree | crates/grimoire-registry/src/main.rs:59-66 | with a TTL of ten, two losses are survived exactly when the jitter is below a second, three are not; a TTL of thirty or more can lapse with no loss |
| RegistryModel.HeardRecently | crates/grimoire-svcfw/src/reg.rs:38-46 | at any time some beat arrived no longer ago than the worst gap |
| RegistryModel.HeardBeatRenews | crates/grimoire-registry/src/memory_backend.rs:53-61 | a heartbeat handled at some time of the run has put the deadline at least a lease after it |
| RegistryModel.TooManyLosses | crates/grimoire-svcfw/src/reg.rs:38-46 | otherwise there is a schedule and a run that evict the node |
| RegistryService.RegistryState.Register | crates/grimoire-registry/src/memory_backend.rs:46-51 | the node's record has the address, the metadata and a deadline the TTL, or ten seconds if none is asked for, from now; all other records stay |
| RegistryService.RegistryState.Heartbeat | crates/grimoire-registry/src/memory_backend.rs:53-61 | a known node's deadline becomes ten seconds from now, an unknown one is refused, and all other records stay |
| RegistryService.RegistryState.Discover | crates/grimoire-registry/src/memory_backend.rs:63-76 | each node of the service is listed once, with the address and metadata of its record, and nothing else, in whatever order the table is walked |
| RegistryService.RegistryState.Unregister | crates/grimoire-registry/src/memory_backend.rs:78-82 | the node's record goes, all others stay |
| RegistryService.RegistryState.Sweep | crates/grimoire-registry/src/memory_backend.rs:86-99 | a record stays exactly if its deadline is after now |

## Left out

- Sockets, tonic and h2, TLS, the `kcp` crate, etcd, Postgres and Redis themselves: foreign code. The Redis session directory is a shared map whose entries appear, change and disappear by steps of their own; its TTL is such a step.
- UDP and KCP acceptance, `bind_udp` and authentication: the model has only the one-way datagram with seq 0 and the immediate rejection of a request.
- `mark_domain`, player notifications, pushes and broadcasts: they change no table modelled here. Matchmaking through the lobby only adds bindings, which the routing model lets happen at any time to any session.
- The gateway without a session directory: routing then always falls through to the ring.
- Interleavings inside one service call, DashMap locks and deadlocks: one call is one step. The forward task of the gateway is the exception, split at its suspension points.
- The stream table of the gateway: a parcel sent may be lost at any time, which covers streams that break.
- The client's five-second timeout: a request that timed out stays in the client's table, as it does in the source; that nobody reads its late reply is not modelled.
- Registering a node again after a rejected heartbeat: allowed as a step, but the lease theorems are about the time until the first eviction. That a re-registration sends empty metadata is not covered.
- One clock reading serves a whole call of `Discovery`; the source reads the clock again when the fetch returns.
- IEEE floats: battle positions are exact reals and directions finite, the Euclidean length of a direction travelling with it.
- The 64-bit wrap of the server's frame counter: it is a natural number here; the client's frame is 64 bits wide and its addition saturates.
- 32-bit id counters of the room and card services: they wrap in the model, and the theorems about ids say so by requiring that they have not. The 24 bits of the connection counter wrap in `ConnTable.dfy`, where the theorems hold across the wrap.
- `App::join`, `App::leave` and the lobby of the battle service: capacity under interleaved scan-then-add and the lobby's freshness are not promised by the code.
- Leaving a card game: it shifts the seats without fixing `turn` or the stored index, so the card theorems are about runs without it.
- Names of players, rooms and cards, statistics and persistence.
- End of stream in the framed reader: a partial frame at the end is simply left in the buffer.
- MuxLimits.AcceptGuardExact: on a channel that is already closed the guard is only sufficient, because the accepted request can then receive nothing itself.
- HashRing.SortByPoint: an insertion sort stands for the library's unstable sort, and only order and contents are used.
- Helper functions such as `domain_of` and the UDP header codecs: they would only add easy members.
