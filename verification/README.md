# NutBlast: the lobby server, its sessions and the client's replica

NutBlast is a signalling server (NutBlaster) with a client library. Clients open a WebSocket, host or join a lobby, and
from then on hold a replica of it: its settings, its metadata, its master and the other players. The server is one event
loop that owns four tables and takes operations off one channel; a session per connection turns client messages into
operations and writes queued messages back. Players then connect to each other directly, with the server relaying offers
and answers.

The project models these parts and proves what they keep over whole runs.

| file | what it is |
|---|---|
| `Basics.dfy` | ids, metadata, messages, what deserialization lets through |
| `Tokens.dfy` | the token bucket: an object updated in place, its function, and bounds over all traces of calls |
| `Server.dfy` | the event loop's state and each of its seventeen operations as a function |
| `ServerInvariants.dfy` | what every operation keeps |
| `Effects.dfy` | what each operation comes to, in terms of what is there before and after: when it takes effect, and what is then different |
| `EventLoop.dfy` | the event loop as an object with four tables and bounded queues, each method proved equal to its function |
| `Requests.dfy` | what each message of a client comes to, from the frame to the lobby and back |
| `Sessions.dfy`, `SessionLoop.dfy`, `Allowances.dfy` | one turn of a session as a function; the session as an object, over its whole life; what its own budgets let through |
| `Replica.dfy` | the client's replica, the server's view, and why every operation keeps them in step |
| `System.dfy` | sessions, channel, queues, sockets, clients, clock and timer as one step relation |
| `Ownership.dfy`, `Conservation.dfy`, `Budget.dfy`, `Agreement.dfy`, `Pongs.dfy`, `Sizes.dfy` | one invariant of the whole system each |
| `Runs.dfy` | the theorems about whole runs |
| `ServerRuns.dfy`, `Histories.dfy`, `HostingCaps.dfy`, `Isolation.dfy`, `Ledgers.dfy` | runs of the event loop alone: departures, idle lobbies, succession, capacities, births, resting addresses, hosting limits, isolation, budgets |
| `Service.dfy` | what the event loop serves in a run of the whole system is such a run |
| `Witnesses.dfy` | runs of the whole system that show where it does otherwise than one would wish |
| `Client.dfy` | the client library's handlers, updated in place, and the application that follows its callbacks |
| `Pair.dfy` | renegotiation and giving up between two players |

Operations are functions of the state before them and of the choices made meanwhile: the clock, the random ids, and the
order in which hash tables are gone through (`Env`). The objects of `EventLoop.dfy`, `SessionLoop.dfy`, `Client.dfy`,
`Pair.dfy` and `Tokens.dfy` update their fields as the source does, choose iteration orders with `:|`, and are proved to
arrive where the functions say.

The theorems of `Runs.dfy` and `Witnesses.dfy` are about runs of the whole system: every interleaving of sessions, event
loop, clients, clock and prune timer. Those of `ServerRuns.dfy`, `Histories.dfy`, `HostingCaps.dfy`, `Isolation.dfy` and
`Ledgers.dfy` are about every sequence of operations that the event loop alone may be given;
`Service.SystemsRunServers` shows that the operations served in any run of the system are one of these and end in its
server, so that they hold there too. `Effects.dfy` and `Requests.dfy` are about every state and every message,
`Allowances.dfy` about every life of a session, `Client.dfy` about every sequence of rounds of the library, and `Pair.dfy`
has runs of its own, of two clients and the messages between them.

## Assumptions

- Random ids are not zero and have not been in use before in the run. A zero player id would pass for a missing master in
  the test at `server/src/blaster/eventloop.rs:453`.
- The clock does not go back. One operation of the event loop reads it once.
- The event loop is not reset after a panic; neither of its two unreachable branches can be reached (`Linked`).
- A session's message queue is named by the player it obtains, and is empty until then: its sender is handed out only
  with the request to host or join.
- An operation of the event loop is one step: sessions take messages from their queues before or after it.
- A capacity is 2 to 15, as the server checks. The client's own limit of 16 is turned down by the server.

## What turned out otherwise

- A pong can remove a player who is still in the lobby. When the session's own player has already been removed, the pong
  is assembled with an empty list and, bypassing the queue, overtakes the farewell. `Witnesses.PongCanRemoveThePresent`
  is a run in which that happens, and it is the only case: `Pongs.PongRemovesOnlyTheDeparted` gives it as an equivalence.
- Lobby fields left over in the client from an earlier session stay in the replica, as the snapshot only sets fields.
  `Replica.SnapshotAgrees` shows that the replica agrees after joining exactly when every left-over key is also the
  lobby's.
- The limits on listed lobbies (one for an address, 32 for a game) hold only at hosting.
  `Witnesses.ListedLimitsCanBeExceeded` is a run in which listing a lobby afterwards goes over, and
  `HostingCaps.RelistingBreaksLimitsWhen` says exactly when.
- The comment at `src/NutBlast.cpp:1029` says that only the newest player disconnects. With equal births either may:
  `Pair.EitherOfEqualsMayGiveUp` has a run for each, and `Pair.OnlyTheNewerGivesUp` excludes any other case.
- A field erased before a player's join callback is reported although its setting was not. By
  `Client.ErasureMatchesIffAnnounced` the value reported as erased is the one the application holds exactly if the player
  is announced; `Client.EraseBeforeAnnouncing` is a round in which it is not.

## Model

| member | source | states |
|---|---|---|
| Tokens.TokenBucket.constructor | server/src/tokens.rs:19-27 | a new bucket holds its burst, not its maximum |
| Tokens.TokenBucket.TryTake | server/src/tokens.rs:29-50 | the call refills, then takes all or nothing, and names its bucket when it refuses |
| Tokens.TakenWithin | server/src/tokens.rs:29-50 | tokens are never below zero and never above the larger of maximum and burst |
| Tokens.SpentIsPaidFor | server/src/tokens.rs:29-50 | over any trace, what is handed out and what remains come from the level at the start and the rate |
| Tokens.WindowBound | server/src/tokens.rs:29-50 | any window of any trace hands out at most the level at its start plus rate times its length |
| Tokens.BurstAllows | server/src/tokens.rs:36-45 | above its maximum a bucket lets a call through exactly if it holds as much, however long ago it was filled |
| Tokens.SteadyAllows | server/src/tokens.rs:36-45 | from its maximum down it lets a call through exactly if the call is at most the maximum and at most what it held plus what has accrued since |
| Tokens.PassesExactly | server/src/tokens.rs:29-50 | no call of a trace is refused if and only if no stretch of the trace asks for more than the maximum and the rate, nor its beginning for more than the start and the rate |
| Tokens.RefusedExactlyWhenOver | server/src/tokens.rs:29-50 | after calls let through, one more is refused exactly if with it the trace has asked for more than that |
| Tokens.ModestCallsPass | server/src/tokens.rs:29-50 | from a full bucket, burst or not, a trace that keeps to maximum and rate is never refused |
| Tokens.RefusedCallsAreUnobservable | server/src/tokens.rs:32-47 | deleting any refused calls from a trace changes no other outcome and no later state |
| ServerInvariants.MasterGoneIffEmpty | server/src/blaster/eventloop.rs:433-454 | the master becomes null exactly when the last member leaves; otherwise it is a remaining member |
| ServerInvariants.StepKeepsLobbies | server/src/blaster/eventloop.rs:151-553 | every operation keeps membership and player tables one relation, masters members, the index exact, sizes, idle clocks and hosting limits |
| ServerInvariants.PeersKept | server/src/blaster/eventloop.rs:478-540 | every operation keeps the limits on peers and sessions |
| ServerInvariants.StepKeepsValid | server/src/blaster/eventloop.rs:151-553 | the whole invariant holds after every operation with every choice |
| ServerInvariants.TotalPruned | server/src/blaster/eventloop.rs:518-524 | pruning peers does not change the number of sessions |
| ServerInvariants.FewerLobbiesThanPlayers | server/src/blaster/eventloop.rs:31-37 | there are never more lobbies than players |
| EventLoop.BlasterEventLoop.constructor | server/src/blaster/eventloop.rs:40-48 | the event loop starts empty and valid |
| EventLoop.BlasterEventLoop.Send | server/src/blaster/mod.rs:73-75 | a message goes to the end of one queue, or is lost when the queue is full or gone |
| EventLoop.BlasterEventLoop.SendToLobby | server/src/blaster/eventloop.rs:50-56 | every member's queue gets the message once, no other queue changes |
| EventLoop.BlasterEventLoop.TryTakeFromBudget | server/src/blaster/mod.rs:81-88 | a refusal sends the player a farewell with the bucket's reason |
| EventLoop.BlasterEventLoop.InsertPlayer | server/src/blaster/eventloop.rs:58-136 | state and queues after an insertion, for whatever orders members and fields are gone through in |
| EventLoop.BlasterEventLoop.Greet | server/src/blaster/eventloop.rs:105-135 | the newcomer gets the whole snapshot in order, each member one introduction |
| EventLoop.BlasterEventLoop.CapIp | server/src/blaster/eventloop.rs:138-149 | an address without peer is refused, any other is charged |
| EventLoop.BlasterEventLoop.ListLobbies | server/src/blaster/eventloop.rs:153-185 | a request within budget gets a correct listing, any other a refusal |
| EventLoop.BlasterEventLoop.Listing | server/src/blaster/eventloop.rs:157-183 | the listing through the index is one of a full scan: distinct, listed, not full, as many as there are up to the clamped limit |
| EventLoop.IndexCountsListed | server/src/blaster/eventloop.rs:212-223 | counting listed lobbies of a game through the index counts them all |
| EventLoop.BlasterEventLoop.CheckHost | server/src/blaster/eventloop.rs:197-227 | the refusal, if any, that a scan of all lobbies calls for |
| EventLoop.BlasterEventLoop.HostLobby | server/src/blaster/eventloop.rs:186-267 | a hosting request ends in its refusal or in a new lobby with one player |
| EventLoop.BlasterEventLoop.JoinLobby | server/src/blaster/eventloop.rs:268-290 | a joining request ends in its refusal or in a new member |
| EventLoop.BlasterEventLoop.SetCapacity | server/src/blaster/eventloop.rs:291-305 | only the master changes the capacity, within budget, and everyone hears |
| EventLoop.BlasterEventLoop.SetListed | server/src/blaster/eventloop.rs:306-317 | only the master changes the listing, within budget, and everyone hears |
| EventLoop.BlasterEventLoop.SetMaster | server/src/blaster/eventloop.rs:318-333 | only the master hands over, to another member, within budget, and everyone hears |
| EventLoop.BlasterEventLoop.SetPlayerMeta | server/src/blaster/eventloop.rs:334-358 | a field is set within the field limit and the budget, and everyone hears |
| EventLoop.BlasterEventLoop.ErasePlayerMeta | server/src/blaster/eventloop.rs:359-371 | a field that is there is erased, and everyone hears |
| EventLoop.BlasterEventLoop.SetLobbyMeta | server/src/blaster/eventloop.rs:372-394 | the master sets a lobby field within the field limit and the budget, and everyone hears |
| EventLoop.BlasterEventLoop.EraseLobbyMeta | server/src/blaster/eventloop.rs:395-409 | the master erases a lobby field that is there, and everyone hears |
| EventLoop.BlasterEventLoop.KickPlayer | server/src/blaster/eventloop.rs:410-423 | a farewell to the member the master names, and nothing else |
| EventLoop.BlasterEventLoop.RemovePlayer | server/src/blaster/eventloop.rs:424-469 | the player goes; the lobby goes with its last member, or its members hear who left and who is master |
| EventLoop.BlasterEventLoop.Relay | server/src/blaster/eventloop.rs:470-477 | a signal passes between members of one lobby only |
| EventLoop.BlasterEventLoop.IntroduceSession | server/src/blaster/eventloop.rs:478-499 | a handle is granted within the three limits, counted over all peers |
| EventLoop.BlasterEventLoop.Prune | server/src/blaster/eventloop.rs:500-527 | every player of an idle lobby gets one farewell, expired peers go, nothing else changes |
| EventLoop.BlasterEventLoop.CloseSession | server/src/blaster/eventloop.rs:528-540 | a session less; the last one starts the decay |
| EventLoop.BlasterEventLoop.AssemblePong | server/src/blaster/eventloop.rs:541-551 | the list holds a player exactly if both it and the asking player are there, in the same lobby; it is empty exactly when the asking player is gone |
| EventLoop.BlasterEventLoop.Recv | server/src/blaster/eventloop.rs:151-553 | every operation does what its function says to tables, queues and answer, and keeps the invariant |
| Effects.LobbiesAreListed | server/src/blaster/eventloop.rs:153-185 | an address within its budget gets distinct entries, each of a lobby that is shown and has fewer players than it takes, with its short fields, and none is missing below the limit; any other is refused |
| Effects.LobbyIsHosted | server/src/blaster/eventloop.rs:186-267 | a lobby is made, as described, with its first player as master, if and only if budget, four lobbies an address, one shown an address and 32 shown a game allow |
| Effects.LobbyIsJoined | server/src/blaster/eventloop.rs:268-290 | a player comes in if and only if budget allows, the lobby is there and has fewer players than its capacity; it is as it described itself, with the age of the lobby in whole milliseconds as birth, and each refusal has its code |
| Effects.CapacityIsSet | server/src/blaster/eventloop.rs:291-305 | the capacity becomes what the master asks for, everyone is told once, and nothing else is different; anybody else comes to nothing, and overspending costs the master its place |
| Effects.ListingIsSet | server/src/blaster/eventloop.rs:306-317 | the same for whether the lobby is shown |
| Effects.MasterIsSet | server/src/blaster/eventloop.rs:318-333 | the same for the master, who hands over to another member only |
| Effects.PlayerFieldIsSet | server/src/blaster/eventloop.rs:334-358 | a field is set if it is there or fewer than sixteen are, and the budget allows; then the lobby is told once, and nothing else is different |
| Effects.PlayerFieldIsErased | server/src/blaster/eventloop.rs:359-371 | a field that is there is gone afterwards, and the lobby is told once |
| Effects.LobbyFieldIsSet | server/src/blaster/eventloop.rs:372-394 | the same for a field of the lobby, by its master only |
| Effects.LobbyFieldIsErased | server/src/blaster/eventloop.rs:395-409 | a field of the lobby is gone afterwards, by its master only |
| Effects.MemberIsKicked | server/src/blaster/eventloop.rs:410-423 | the member the master names, and nobody else, is told to go, with the reason |
| Effects.PlayerIsRemoved | server/src/blaster/eventloop.rs:424-469 | only that player goes; the lobby goes exactly with its last; whoever is master stays it, unless it is who goes, when one of those who stay follows, and all are told who |
| Effects.SignalIsPassed | server/src/blaster/eventloop.rs:470-477 | a signal reaches exactly the member it is for, and changes nothing |
| Effects.SessionIsIntroduced | server/src/blaster/eventloop.rs:478-499 | a session is granted exactly below 1024 in all, 4 for the address and 512 addresses, and counts for its address only |
| Effects.SessionIsClosed | server/src/blaster/eventloop.rs:528-540 | a session less for its address, whose rest begins with the last |
| Effects.RestingAreForgotten | server/src/blaster/eventloop.rs:516-524 | pruning forgets an address exactly if it has decayed for 60 seconds, and touches no other |
| Effects.PongIsAssembled | server/src/blaster/eventloop.rs:541-551 | the list holds exactly those who share a lobby with the player |
| Replica.OvertakingPongIsAbsorbed | src/NutBlast.cpp:725-740 | a pong ahead of the queue changes nothing in the end if the queue leaves nobody it does not list |
| Replica.FoldSnapshot | server/src/blaster/eventloop.rs:105-135 | what any client holds after the snapshot |
| Replica.SnapshotAgrees | server/src/blaster/eventloop.rs:105-135 | the newcomer's replica agrees with the server exactly if no left-over key is foreign to the lobby |
| Replica.StepAgrees | server/src/blaster/eventloop.rs:151-553 | what an operation sends a member turns the old view into the new one |
| Sessions.TurnDiscipline | server/src/session.rs:64-340 | a session issues only valid operations of its own player or one awaited request, keeps its player, and ends with its removal |
| SessionLoop.SessionTask.Process | server/src/session.rs:95-287 | a frame does what the turn's function says, error cases included |
| SessionLoop.SessionTask.Receive | server/src/session.rs:72-77 | a frame is looked at only within both budgets |
| SessionLoop.SessionTask.PassOn | server/src/session.rs:289-297 | a signal is relayed within budget; otherwise the player is taken out |
| SessionLoop.SessionTask.Resume | server/src/session.rs:125-185 | how each answer of the event loop is taken |
| SessionLoop.SessionTask.Send | server/src/session.rs:299-320 | writing a farewell ends the session and sets its reason |
| SessionLoop.SessionTask.Serve | server/src/session.rs:322-340 | the loop issues and writes what its turns say, and the removal once it stops |
| SessionLoop.SessionsEndOnce | server/src/session.rs:322-340 | a farewell is written at most once and last, and the player is removed for its reason |
| Requests.PlayersAreObeyed | server/src/session.rs:113-297 | every message of a player, when the one operation it asks for is served, does to its lobby what it says, argument by argument; a message for newcomers ends the session |
| Requests.NewcomersAreObeyed | server/src/session.rs:129-192 | before there is a player a client has lobbies listed, hosts or joins exactly what it describes; other messages end the session |
| Requests.AnswersAreTaken | server/src/session.rs:120-186 | a pong or a listing is written as it was answered, an admission gives the player, a refusal is told and ends the session |
| Requests.BadFramesEndIt | server/src/session.rs:72-118 | a frame over either budget, binary or not a message ends the session with that reason; a closing one without a word, a control frame not at all |
| Requests.SilenceEndsIt | server/src/session.rs:64-87 | the idle timeout ends a session exactly if it has no player; a failing socket ends any |
| Requests.QueueIsWritten | server/src/session.rs:88-90 | a queued message is written as it is, and a farewell ends the session for its reason |
| Allowances.GaugeIsAfter | server/src/session.rs:72-77 | over any part of a session's life each of its budgets is the bucket that its calls make of it |
| Allowances.NothingUnpaid | server/src/session.rs:289-297 | every frame looked at, every byte of it and every signal passed on has been taken from its budget |
| Allowances.SessionsAreLimited | server/src/session.rs:46-48 | over any T seconds of any session's life: at most 60 + 30 T frames, 12288 + 4096 T bytes and 80 + 20 T signals |
| Allowances.ModestClientsAreHeard | server/src/session.rs:72-77 | a client that keeps to 30 frames, 4096 bytes and 20 signals and as many more a second has every frame looked at and every signal passed on |
| Ownership.FireKeepsDiscipline | server/src/session.rs:322-340 | every step keeps requests in order: nothing beside an awaited answer, the handle's closing last, each player owned by its connection |
| Ownership.HoldersAreUnique | server/src/session.rs:145-186 | no two connections hold one player, no connection two |
| Conservation.FireKeepsCounts | server/src/blaster/mod.rs:159-186 | every step keeps each address's count equal to its handles granted and not closed |
| Conservation.ConservationChain | server/src/blaster/eventloop.rs:478-540 | lobbies, players, handles and sessions bound one another |
| Conservation.NothingLeaks | server/src/session.rs:332-337 | once all connections are gone and the channel is drained the tables are empty |
| Budget.FireCredit | server/src/blaster/eventloop.rs:138-149 | calls let through are paid for by credit and time, also when a peer is pruned and made anew |
| Agreement.FireKeepsAgreement | src/NutBlast.cpp:605-740 | every step keeps what a client will hold equal to the server's view |
| Pongs.FireKeepsPongs | server/src/session.rs:120-128 | every step keeps pongs from naming too few players to whom the client still has to hear |
| Pongs.PongRemovesOnlyTheDeparted | src/NutBlast.cpp:725-740 | a pong takes a present player out of a replica exactly when it is empty, which it is only after the client's own removal |
| Sizes.AdmissionFits | server/src/blaster/eventloop.rs:105-135 | a snapshot has at most 34 messages and introduces at most 14 players |
| Sizes.FireKeepsSizes | server/src/session.rs:39-42 | every step keeps the replica small at every point of what is on its way |
| Sizes.PlayerListFits | src/NutBlast.cpp:924-937 | a client that lost no message fits its player list, terminator included |
| System.QueuesTake120 | server/src/session.rs:39-42 | of what is sent, a queue loses the end, and only what would be beyond 120 messages |
| Runs.RunsAreSound | server/src/blaster/eventloop.rs:151-553 | all invariants hold in every state of every run |
| Runs.ReplicasAgree | src/NutBlast.cpp:605-740 | in every run, applying what is on its way gives a client that has lost no message the server's present view, except for left-over lobby fields; what is queued behind a farewell is counted in, although a session that writes the farewell stops there |
| Runs.QuietReplicasAgree | src/NutBlast.cpp:605-740 | a client with nothing on its way holds the view |
| Runs.PongsAreSafe | server/src/blaster/eventloop.rs:541-551 | in every run, who a pong may remove |
| Runs.RunsConserve | server/src/blaster/eventloop.rs:478-540 | in every run: lobbies, players, sessions at most 1024, peers at most 512, sessions of an address 1 to 4 and exactly its open handles |
| Runs.PlayersAreOwned | server/src/session.rs:332-337 | in every run each player belongs to one connection, which still serves it or has asked for its removal |
| Runs.RunsLeakNothing | server/src/session.rs:322-340 | in every run, once everything is over nothing is left but decaying peers |
| Runs.AddressBudget | server/src/blaster/eventloop.rs:138-149 | in every run an address gets at most 4 + 2T listings, hostings and joinings through in T seconds |
| Runs.RunsStaySmall | server/src/blaster/eventloop.rs:268-305 | in every run lobbies hold 1 to 15 players, metadata at most 16 fields, and player lists fit |
| Runs.AdmissionsAreWhole | server/src/session.rs:39-42 | in every run a newcomer's queue takes its whole snapshot |
| ServerRuns.ServerRunsAreValid | server/src/blaster/eventloop.rs:151-553 | any sequence of operations keeps the invariant |
| ServerRuns.RemovalTellsEveryoneOnce | server/src/blaster/eventloop.rs:424-469 | each remaining member gets exactly one departure and then a present master |
| ServerRuns.OnlyRemovalsTellOfLeaving | server/src/blaster/eventloop.rs:466 | a departure is told only by the removal of a player who was there |
| ServerRuns.AbsentPlayersAreInert | server/src/blaster/eventloop.rs:291-477 | a player who is gone changes nothing and has nothing said |
| ServerRuns.LeftForGood | server/src/blaster/eventloop.rs:425-427 | who has left is in no later state |
| ServerRuns.DeparturesHappenOnce | server/src/blaster/eventloop.rs:424-469 | of any number of removals one tells of the departure, and whatever the player asks for later does nothing |
| ServerRuns.StepClock | server/src/blaster/eventloop.rs:76-80 | an idle clock starts when the lobby falls below two players and is left alone meanwhile |
| ServerRuns.IdleClockIsHistory | server/src/blaster/eventloop.rs:436-438 | an idle clock reads the time since which the lobby has been below two players without a break |
| ServerRuns.PruneFindsTheLonely | server/src/blaster/eventloop.rs:500-514 | pruning sends off a player if and only if its lobby has been below two players for three minutes on end |
| Histories.LobbiesAreTraced | server/src/blaster/eventloop.rs:151-553 | each part of a lobby changes only by its own operation: settings and fields by its master's, the master by hand-over or departure, the players by joining below capacity or leaving; it goes only with its last player |
| Histories.MastersStay | server/src/blaster/eventloop.rs:318-333 | in every run a master stays master until it hands over or goes |
| Histories.OverfullOnceShrunk | server/src/blaster/eventloop.rs:268-305 | in every run a lobby has more players than it takes only if its master has set the capacity below their number |
| Histories.PlayersAbide | server/src/blaster/eventloop.rs:334-371 | a player stays in its lobby with its birth, and its fields are changed by nobody else |
| Histories.BirthsFollowArrivals | server/src/blaster/eventloop.rs:84-85 | in every run, of two players of a lobby the one who came first has the smaller birth, or the same |
| Histories.DecayIsHistory | server/src/blaster/eventloop.rs:528-540 | in every run an address decays exactly while it has no session, since the closing of its last |
| Histories.PruneForgetsTheResting | server/src/blaster/eventloop.rs:516-524 | in every run pruning forgets exactly the addresses without a session for a minute on end |
| HostingCaps.HostingLimits | server/src/blaster/eventloop.rs:199-227 | in every run four lobbies an address; without listing afterwards one listed an address and 32 a game |
| HostingCaps.RelistingBreaksLimitsWhen | server/src/blaster/eventloop.rs:306-317 | listing afterwards breaks the limits exactly when the address shows one already or the game 32 |
| Service.SystemsRunServers | server/src/blaster/mod.rs:136-157 | whatever the sessions do, the event loop ends where some sequence of valid operations with new ids brings it alone |
| Service.SystemsKeepHostingLimits | server/src/blaster/eventloop.rs:203-207 | in every run of the system no address owns more than four lobbies |
| Witnesses.ListedLimitsCanBeExceeded | server/src/blaster/eventloop.rs:306-317 | a run of the system, two sessions of one address and three requests, after which that address shows two lobbies |
| Witnesses.PongCanRemoveThePresent | server/src/session.rs:120-128 | a run of the system in which a client that asks to leave and then for a pong is about to drop a player who is still in the lobby |
| Isolation.StepsAreConfined | server/src/blaster/eventloop.rs:151-553 | an operation about one lobby leaves all others untouched and reaches only players of its own |
| Isolation.LobbiesAreLeftAlone | server/src/blaster/eventloop.rs:151-553 | in every run a lobby that no operation is about stays as it is, and only pruning speaks to it |
| Isolation.FarewellsHaveCause | server/src/blaster/eventloop.rs:291-527 | a player is told to go if and only if it is removed, its lobby's master kicks it, its idle lobby is pruned, or its own request overspends a budget; each with its reason |
| Isolation.RelayedSignalsAreGenuine | server/src/blaster/eventloop.rs:470-477 | a signal arrives if and only if the player it names sent it to this member of its lobby |
| Ledgers.StepBooks | server/src/blaster/eventloop.rs:291-394 | every operation takes from each budget exactly what it asks for, if allowed, and touches no other |
| Ledgers.StepOpens | server/src/blaster/eventloop.rs:237-250 | every new budget starts full |
| Ledgers.BalanceIsAfter | server/src/blaster/eventloop.rs:291-394 | over any stretch of any run a budget is the bucket that its calls make of it |
| Ledgers.AccountsAreLimited | server/src/tokens.rs:15-50 | in T seconds of any run a lobby is altered at most 2 + T times, at most 8192 + 4096 T bytes of a player's or lobby's fields are set, and at most 4 + 2 T requests of an address pass while it is known |
| Ledgers.ModestRequestsPass | server/src/tokens.rs:29-50 | over any stretch from when a budget is full, as it is when it opens, whoever keeps to its rate is granted everything: alterations, fields, and an address's listings, hostings and joinings |
| Ledgers.AnnouncementsArePaid | server/src/blaster/eventloop.rs:291-394 | each change announced to members, value included, was asked for by who may, and paid for; a new master also follows from a removal |
| Client.Library.OnSetPlayerMeta | src/NutBlast.cpp:613-640 | the replica is updated, and exactly one callback made if the value changed and the player is announced, none otherwise |
| Client.Library.OnErasePlayerMeta | src/NutBlast.cpp:641-661 | the replica is updated, and exactly one callback made for a field that was there, whether or not the player is announced |
| Client.Library.OnSetLobbyMeta | src/NutBlast.cpp:662-680 | the lobby field is set, with exactly one callback, old and new value, if it changed |
| Client.Library.OnEraseLobbyMeta | src/NutBlast.cpp:681-695 | the lobby field is erased, with exactly one callback if it was there |
| Client.Library.OnSetMaster | src/NutBlast.cpp:696-703 | the master is set, with a callback if it changed |
| Client.Library.OnJoined | src/NutBlast.cpp:704-711 | a player not known yet is added, not announced |
| Client.Library.OnLeft | src/NutBlast.cpp:712-720 | a known player is taken out with exactly one callback, an unknown one with none |
| Client.Library.OnPong | src/NutBlast.cpp:725-740 | everyone not listed is taken out, with one callback each and no other |
| Client.Library.Handle | src/NutBlast.cpp:556-741 | each message changes the fields as the replica's function says, makes exactly its callbacks, and keeps the application in step |
| Client.Library.Announce | src/NutBlast.cpp:1013-1023 | a player is announced once, after all its fields |
| Client.Library.Disconnect | src/NutBlast.cpp:825-867 | the replica is dropped but for the lobby's metadata, and the application told why |
| Client.Library.Update | src/NutBlast.cpp:988-1065 | a round folds all messages into the replica, leaves everyone announced and, when all connections stand, has said so; after a farewell, or if a player is given up on, it ends the connection, and the last callback gives the reason of the last farewell, or that one |
| Client.Library.AnnounceReady | src/NutBlast.cpp:1057-1062 | readiness is reported once, when a round finds all connections standing |
| Client.Library.HandleSetting | src/NutBlast.cpp:557-612 | the messages that only set variables set the right ones, a farewell the reason |
| Client.SetKeepsSync | src/NutBlast.cpp:629-639 | a set field keeps the application in step, with a truthful diff |
| Client.EraseKeepsSync | src/NutBlast.cpp:648-660 | an erased field keeps the application in step, and its diff is truthful exactly if the player is announced |
| Client.ErasureMatchesIffAnnounced | src/NutBlast.cpp:648-660 | the value to be reported as erased is the one the application holds if and only if the player is announced |
| Client.EraseBeforeAnnouncing | src/NutBlast.cpp:641-661 | a joining and an erasure in one round: the one callback made reports a value that the application was never told |
| Client.LobbyChangeKeepsSync | src/NutBlast.cpp:662-695 | a changed lobby field keeps the application in step, with a truthful diff |
| Client.AnnouncingEnds | src/NutBlast.cpp:1013-1023 | after the announcement the application holds exactly the player's metadata |
| Client.ChronicleFollows | src/NutBlast.cpp:1008-1062 | folding all callbacks gives what the application holds, and each was truthful when made: arrival first and once, readiness once, no join twice |
| Pair.DrainedIs | src/NutBlast.cpp:1306-1312 | each description restarts the answering side's timer and counts as a negotiation |
| Pair.FireKeepsAccounts | src/NutBlast.cpp:1027-1055 | without a pong every winding of a timer is a meeting, a retry or an offer of the other side |
| Pair.FireKeepsTimes | src/NutBlast.cpp:1347-1349 | for a client that may quit, each winding comes a timeout and a round after the last at most |
| Pair.FewNegotiations | src/NutBlast.cpp:1027-1055 | without a pong the offering side negotiates at most 4 times and the answering side winds its timer at most 8 times |
| Pair.GivesUpInTime | src/NutBlast.cpp:1027-1055 | without a pong a client with the larger or same birth has given up within 8 (offering: 4) timeouts and rounds |
| Pair.PairsEnd | src/NutBlast.cpp:1027-1055 | once both know of each other, one gives up within 8 timeouts and rounds unless a pong comes |
| Pair.OnlyTheNewerGivesUp | src/NutBlast.cpp:1027-1055 | a strictly older client never gives up, and nobody before 28 seconds from meeting the other and from its last pong |
| Pair.PongKeepsIt | src/NutBlast.cpp:1416-1420 | for seven seconds after a pong nobody gives up, whatever comes in, and all attempts are there again |
| Pair.GivesUpAfterTheLastPong | src/NutBlast.cpp:1027-1055 | from any moment on, without a further pong, a client with the larger or same birth gives up within 4 timeouts and rounds, on the answering side 7 and one for each offer not taken |
| Pair.EitherOfEqualsMayGiveUp | src/NutBlast.cpp:1029-1031 | for any birth and either side there is a run of two clients of that birth, without a pong, in which that side gives up |
| Pair.Player.constructor | src/NutBlast.cpp:704-711 | a player who has just joined is negotiated with at once |
| Pair.Player.Renegotiate | src/NutBlast.cpp:1347-1351 | a negotiation winds the timer |
| Pair.Player.OnPong | src/NutBlast.cpp:1416-1420 | a pong gives the attempts back and winds the timer |
| Pair.Player.Drain | src/NutBlast.cpp:1306-1312 | all descriptions that have come in are gone through |
| Pair.Player.Check | src/NutBlast.cpp:1027-1055 | a timer that has run out costs an attempt, and the last one ends it for the newer client |
| Pair.Round | src/NutBlast.cpp:1012-1056 | the round ends at the first player given up on; those before have had a whole round, those after none |

## Left out

- WebSocket, TCP, tokio scheduling, JSON, logging and `server/src/main.rs`: I/O; kept are the order of the channel, the bounded queues and every interleaving.
- WebRTC itself: a negotiation makes at most one offer, which may be late or lost, and may lead to a pong; candidates and data channels are not modelled, and with them the `on_ready` condition, which is a parameter.
- `f32`: Tokens.TokenBucket counts in `real`, so the trace theorems do not hold to the last bit of the original's arithmetic.
- Integer widths: births in milliseconds and times in nanoseconds do not wrap around.
- Checks of single strings (game ids, characters of field names, length of SDP and candidates): one branch each; the sizes of keys and values are kept.
- The event loop's reset after a panic and the cancelling of tasks: both throw the state away on purpose.
- The client's own writes to its metadata before the server has agreed, and callbacks that call back into the library: replica agreement is not claimed for them.
- ICE servers in the `Connected` message, ping averages, the Emscripten branches, debugging switches, the lobbyist and the test program: configuration and user interface.
- A bucket inside a lobby, player or peer is a value that the event loop puts back into its table, and a player in the client's table likewise; aliasing of such parts, which the original rules out by ownership, is not modelled. The session's three buckets and the players of Pair.Round are objects.
- Client.Library.Update: the timers of the direct connections are in Pair.Round; here they come in as the set of players given up on, and the farewell's text leaves out the player's number.
- Client.Library.Handle: relayed signals are left to `Pair.dfy`, and a second `Joined` for a known player, which the server never sends, does not clear that player's waiting offers.
- SessionLoop.SessionTask.Serve: the socket may fail at any time (an input), but a failing write is not told apart from a successful one, as in the original.
- EventLoop.BlasterEventLoop.Recv: draws its two ids before it knows whether it needs them.
