# A verified model of the Piupiu server

Piupiu is a publish/subscribe service: users connect, follow each other and post messages;
each post becomes one pending notification per follower, delivered when the follower is
connected. A primary server replicates CONNECT to its secondaries and accepts a client only
after they confirmed it. Profiles survive restarts in a text file.

The project models the server, the client's reorder buffer and the launcher's peer list, and
proves what they do over all runs.

## How it is organised

| file | contents |
|---|---|
| `Messages.dfy`, `Text.dfy` | packets and addresses; `getline` splitting, decimal numbers, stream extraction |
| `Confirmation.dfy` | the confirmation buffer, one call and whole histories |
| `ProfileStore.dfy` | the profile file: printing, reading, and when reading undoes printing |
| `StartUp.dfy` | when that file can be read at all |
| `Sessions.dfy` | the session table as a value |
| `ServerSpec.dfy` | one replica as a state machine over values: handlers, worker round, runs |
| `ServerInvariants.dfy`, `Delivery.dfy`, `PubSub.dfy` | what every run of a replica keeps and delivers |
| `Handlers.dfy` | what each event does, field by field |
| `Formats.dfy` | the file, the variable and the numbers in them, character by character |
| `Replication.dfy`, `Convergence.dfy` | primary, secondaries and an unreliable network: what acceptance means, when replicas agree |
| `Progress.dfy`, `Limits.dfy` | exactly when a CONNECT can still be accepted; where safety ends: a fourth secondary, a restart with mail in flight |
| `Peers.dfy`, `Launch.dfy` | the PEERS variable and the roles derived from it |
| `Client.dfy` | the client's reorder buffer |
| `Profiles.dfy`, `SessionManager.dfy`, `Server.dfy` | the server's objects on the heap; every handler and every worker round is proved to do what `ServerSpec` says |

The objects share `Session`s: one is reached through the session map and through its
profile. `Server.Valid` says that the two ways agree, and `Serve` carries it, with the
value-level state, through any run of handlers and worker rounds.

## What the proofs found

- Safety of acceptance holds for at most three secondaries and for no more
  (`SafeIffAtMostThree`): a broadcast reserves three numbers but sends one copy per secondary,
  so a fourth secondary confirms somebody else's broadcast. With fewer than three nothing is
  ever accepted.
- Nothing is sent twice, so one lost datagram is fatal: a CONNECT can still be accepted if and
  only if each of its items is confirmed or has its confirmation or its copy in flight
  (`AcceptableIff`, `LossIsFatal`). A client that tries again starts another broadcast.
- The counter restarts at zero with the primary. With three secondaries, what follows a restart
  is safe if and only if no copy and no confirmation was in flight (`RestartSafeIffQuiet`);
  otherwise a number of the old incarnation confirms an item of the new one. With fewer
  secondaries a quiet restart is safe too and nothing is accepted after it; a stale number need
  not break replication there, but with two secondaries one that is the third of its block
  makes the primary accept, which it never does otherwise (`StaleAcceptsWithTwo`).
- The profile file is read back exactly for the graphs `Storable` describes, and for one odd
  graph besides, a single profile with an empty handle (`RoundTripExactly`). The read loop
  applies the last edge twice, which is harmless only because adding a follower twice is. An
  empty handle after another one makes `Sync` write a file that reads back as that other
  handle twice (`EmptyHandleRepeats`).
- A server may be unable to start on its own file: "c" following "a,b" is written as "a,b,c" and
  read as an edge between "a" and "b", which throws (`CommaCrash`). `StartsIff` says for every
  graph when the file can be read: each word after the handles must join two of them.
- Acceptance is at least once: a complete container is called back on by every later
  confirmation (`FiringRepeats`). A CONNECT refused for its session limit is broadcast and
  accepted like any other: `AcceptableIff` holds for every CONNECT handled.
- The PEERS variable round-trips for empty host names too; only commas, colons and ports
  outside the int range break it (`PeersRoundTrip`).
- docs/RELATORIO2.md describes election and heartbeat; the code has neither, and the model
  follows the code.

## Assumptions

- A handler invocation and a worker iteration are each one atomic step. The code's locks are
  finer and do not cover `lastSeqn` or the confirmation buffer.
- `uint64_t` counters do not wrap. Strings hold no NUL.
- A profile that never connected has a null session; the two-argument constructor leaves the
  field unset, but every reader tests it for null.
- Clients send anything but confirmations, to the primary only.
- A datagram in flight may be delivered any number of times, in any order, and may be dropped
  for good, which covers loss, duplication and reordering.
- A restart keeps the primary's file and loses everything else. The acceptances, and the
  CONNECTs counted as handled at the primary and at the secondaries, are those since the
  primary's last restart.
- Where the code's behaviour is undefined (an uninitialised count, an index past a split,
  `AddFollower` without a return value, `atoi` out of range) the model returns `Undefined`,
  `None` or `NoReturnValue` instead of a result; an exception at start-up that nothing catches
  is treated alike.
- `BroadcastToSecondaries` and `ConfirmMessage` are declared to return an int and never do; no
  caller uses the value, and the model takes them to return normally.
- A secondary whose peers name no primary throws out of `ConfirmMessage`, which ends the
  process: `ConfirmMessage` and the handlers report it and `Serve` stops there. The value-level
  runs of such an `Orphan` go on; `LaunchedRoles` shows that no launchable list has one.
- The client has a message handler.
- `std::map` order is the lexicographic order of the handles; `std::sort` is any order that
  sorts.

## Model

| member | source | states |
|---|---|---|
| Replication.AcceptMeansReplicated | source/server/ReplicaManager.cpp:23-52 | in every run with loss, duplication, reordering and quiet restarts and at most three secondaries, each Accept sent goes to the host of some CONNECT, the k-th the primary handled since it started, with its number plus one, and each container called back on is such a CONNECT's: since the primary started each secondary handled the very copy of it that the primary sent there, and all replicas hold its profile and session entry; with fewer than three secondaries no Accept is ever sent |
| Limits.SafeIffAtMostThree | source/server/ReplicaManager.cpp:119-157 | for every valid configuration: all runs with quiet restarts are safe in that sense if and only if there are at most three secondaries |
| Limits.UnsafeWithFour | source/server/ReplicaManager.cpp:141-156 | for every configuration with four or more secondaries, a run in which an Accept is sent although the first secondary handled nothing |
| Limits.RestartSafeIffQuiet | source/server/server.cpp:14-21 | with three secondaries, in every reachable state whose file can be read: all runs after a restart of the primary are safe, counting only what secondaries handle after it, if and only if no copy and no confirmation is in flight; with fewer secondaries a quiet restart is safe and nothing is accepted after it |
| Limits.UnsafeAfterRestart | source/server/server.cpp:19 | with three secondaries, for any copy or confirmation in flight at a restart, a run after it in which a user is accepted of whom some secondary never heard, before the restart or after |
| Limits.StaleAcceptsWithTwo | source/server/ReplicaManager.cpp:126-139 | with two secondaries, for any copy or confirmation in flight at a restart whose number is the third of its block, a run after it in which an Accept is sent |
| Progress.AcceptableIff | source/server/server.cpp:214-227 | with at most three secondaries, in every reachable state and for every CONNECT the primary handled: deliveries alone can complete its container and send its Accept, or any continuation without a restart can complete it, if and only if each item is confirmed, or its confirmation is in flight to the primary, or its copy is in flight to its secondary |
| Progress.LossIsFatal | source/server/ReplicaManager.cpp:142-156 | from every reachable state, a CONNECT broadcast with any one copy lost never gets its container completed, whatever happens next short of a restart |
| Progress.LosslessIsAcceptable | source/server/ReplicaManager.cpp:159-179 | with three secondaries and nothing lost so far, deliveries alone get every handled CONNECT accepted |
| Progress.LostForever | source/server/ReplicaManager.cpp:177 | an item neither confirmed nor with its copy or confirmation in flight stays so in every continuation without a restart |
| Replication.ExecuteKeepsInv | source/server/server.cpp:148-230 | every cluster state reachable with quiet restarts: containers match the primary's CONNECTs in order, secondaries' CONNECTs are copies, confirmations go to the primary and echo copies handled since it started, flags stand for such copies, Accepts sent are exactly the complete containers' |
| Replication.RestartKeepsInv | source/server/server.cpp:14-21 | restarting the primary in a quiet network keeps all that |
| Replication.ExecuteKeepsBuffer | source/server/server.cpp:214-219 | with any number of secondaries, in every run, restarts included, the primary's containers match, in order, the CONNECTs it handled |
| Replication.NumberNamesOneCopy | source/server/ReplicaManager.cpp:129-134 | with at most three secondaries a number names one copy of one broadcast |
| Replication.SentAfter | source/server/server.cpp:137-385 | what a step may send: copies only on CONNECT at the primary, confirmations only from a secondary, Accepts only on a confirmation at the primary, notifications only from the worker |
| Replication.BufferAfter | source/server/ReplicaManager.cpp:119-179 | only CONNECT and CONFIRM at the primary touch the confirmation buffer, and how |
| Replication.ClientsReachPrimary | source/client/client.cpp:97-113 | whatever a client sends, confirmations apart, is put in flight to the primary, and nothing else changes |
| Convergence.ReplicasConverge | source/server/server.cpp:157-227 | without DISCONNECT or restart and from equal profiles, a secondary that handled every broadcast exactly once, in any order, knows the same handles as the primary and holds as many sockets per user: min(2, number of connects) |
| Convergence.ExecuteTallies | source/server/SessionManager.cpp:18-54 | in every run without DISCONNECT or restart each replica's handles and socket counts are determined by the bag of CONNECTs it handled |
| Launch.LaunchedRoles | scripts/launch.py:35-47 | every launchable peer list gives a valid cluster in which each replica, from its own variable, takes the role of its position |
| Confirmation.FlagIffConfirmedAfterPush | source/client/confirmation-buffer.hpp:86-133 | over any history an item is flagged if and only if its number was confirmed after its own push; messages and origin are those pushed |
| Confirmation.CallbackLog | source/client/confirmation-buffer.hpp:106-133 | each Confirm calls back, in push order, on exactly the containers all of whose numbers were confirmed since their push |
| Confirmation.FirstFiring | source/client/confirmation-buffer.hpp:122-129 | a call is the first to call back on a container if and only if it supplies the last missing confirmation |
| Confirmation.FiringRepeats | source/client/confirmation-buffer.hpp:122-129 | once called back on, a container is called back on by every later Confirm |
| Confirmation.ConfirmOrderIrrelevant | source/client/confirmation-buffer.hpp:106-133 | confirmations between pushes may be reordered and repeated without changing the buffer |
| Confirmation.MarkedAllFlags | source/client/confirmation-buffer.hpp:32-38 | a batch of confirmations sets exactly the flags of the numbers in it and never clears one |
| Confirmation.FiredPositions | source/client/confirmation-buffer.hpp:142-151 | the positions called back on: complete containers, all of them, increasing |
| Confirmation.ConfirmationBuffer.Push | source/client/confirmation-buffer.hpp:86-100 | appends one container of unconfirmed items with its origin |
| Confirmation.ConfirmationBuffer.Confirm | source/client/confirmation-buffer.hpp:106-133 | the nested loops mark the matching items, call back on the complete containers and count the matches |
| Confirmation.ConfirmationBuffer.ContainerConfirmed | source/client/confirmation-buffer.hpp:142-151 | true exactly for containers whose every item is confirmed |
| ProfileStore.RoundTripExactly | source/server/ProfileManager.cpp:36-83 | for every well-formed graph, reading what Sync wrote rebuilds it, order included, if and only if the graph is storable (or is the lone empty handle) |
| ProfileStore.RoundTrip | source/server/ProfileManager.cpp:111-140 | every storable well-formed graph is rebuilt although the last edge is applied twice |
| ProfileStore.ReadBackIsStorable | source/server/ProfileManager.cpp:49-73 | a graph with unique handles that reads back is storable, but for the exception |
| ProfileStore.LoneEmptyHandle | source/server/ProfileManager.cpp:49-59 | the exception reads back |
| ProfileStore.EmptyHandleRepeats | source/server/ProfileManager.cpp:49-59 | any word followed by an empty handle is written by Sync and read back as the word twice |
| ProfileStore.LoadedIsWellFormed | source/server/ProfileManager.cpp:36-83 | whatever file is read, follower lists come out free of duplicates and within the handles as soon as the handles differ |
| StartUp.StartsIff | source/server/ProfileManager.cpp:36-83 | for every graph, reading what Sync wrote is defined if and only if each word after the handles splits into two of the words taken for handles (or there are too few words, or more profiles than an int counts) |
| StartUp.WordsStartIff | source/server/ProfileManager.cpp:58-73 | for words as handles: if and only if the first two comma-separated pieces of every edge line are handles |
| StartUp.RestartsIff | source/server/ProfileManager.cpp:85-140 | after any run from a readable file the server starts again if and only if the file is unchanged or the graph meets that condition |
| StartUp.CommaCrash | source/server/ProfileManager.cpp:64-68 | after "a,b" connects and "c" follows it, the next start is undefined |
| ProfileStore.ReadEdgesOverLines | source/server/ProfileManager.cpp:58-73 | the eof-tested loop applies each line once and the last one again; with no line it stops at once |
| ProfileStore.ReapplyEdge | source/server/Profile.cpp:16-35 | applying an edge that is there changes nothing |
| Text.ExtractWord | source/server/ProfileManager.cpp:61-62 | an extraction yields a word and consumes input, or fails and leaves the string unchanged |
| Text.SplitLoop | source/server/ReplicaManager.hpp:10-22 | the getline loop collects the pieces of `Split` |
| Text.SplitJoin | source/server/ProfileManager.cpp:24-34 | splitting undoes joining if and only if no piece holds the delimiter and the last piece is not empty |
| Text.AtoiStr | source/server/ReplicaManager.cpp:75 | `atoi` recovers a printed number exactly when it fits an int |
| Formats.AtoiReads | source/server/ReplicaManager.cpp:75 | `atoi` skips blanks, reads a sign and digits, ignores the rest, within the 32-bit range |
| Formats.AtoiWithoutDigits | source/server/ReplicaManager.cpp:75 | without digits it gives zero |
| ServerInvariants.RunKeepsInv | source/server/server.cpp:137-385 | every reachable state of a replica: unique handles, follower lists free of duplicates and within the handles, sessions of existing profiles with at most two sockets, queued recipients follow the sender, buffer numbers in increasing blocks below the counter |
| ServerInvariants.FollowerGraph | source/server/server.cpp:256-336 | from a loop-free graph every run keeps it so, every queued notification is for a current follower other than the sender, and no FOLLOW reaches the end of AddFollower without a result |
| ServerInvariants.SendReachesEachFollowerOnce | source/server/server.cpp:298-336 | a SEND enqueues exactly one notification per follower of its author and none to anyone else |
| Handlers.StrangersAreIgnored | source/server/server.cpp:256-336 | a SEND or FOLLOW from an address that no session holds changes nothing and sends nothing |
| Handlers.SendEffect | source/server/server.cpp:298-328 | a SEND of the user its address belongs to appends one notification per follower, in list order, and changes nothing else |
| Handlers.FollowEffect | source/server/server.cpp:256-297 | a FOLLOW appends its author to the target's list, once, and writes the file; every other list is unchanged; following oneself, a stranger or twice changes nothing |
| Handlers.FollowResults | source/server/server.cpp:261-297 | how a FOLLOW ends in each case, in the order of the tests |
| Handlers.ConnectProfile | source/server/server.cpp:157-166 | CONNECT finds the profile, or creates it at the end with an empty list and writes the file |
| Handlers.ConnectSession | source/server/SessionManager.cpp:18-54 | CONNECT changes the named user's entry alone: created with the sender's socket, extended by it at the end, or, with two sockets, unchanged |
| Handlers.ConnectAtPrimary | source/server/ReplicaManager.cpp:119-157 | at the primary: three numbers from the counter, one container of three unconfirmed items with the original number and host, one copy per secondary numbered in order |
| Handlers.ConnectElsewhere | source/server/ReplicaManager.cpp:168-179 | elsewhere: the number is sent back to the primary, counter and buffer unchanged |
| Handlers.DisconnectEffect | source/server/SessionManager.cpp:56-83 | DISCONNECT removes the first matching socket of the named user, keeps the order of the rest, and changes nothing else, or nothing at all |
| Handlers.ConfirmMarks | source/client/confirmation-buffer.hpp:106-133 | CONFIRM at the primary confirms exactly the items with the number and changes nothing else; elsewhere it is passed on |
| Handlers.ConfirmAnswers | source/server/ReplicaManager.cpp:23-52 | then exactly the complete containers are answered, oldest first: an Accept to the original host, its number one above the original, without text |
| Handlers.WorkEffect | source/server/server.cpp:88-115 | a worker round does nothing, puts the notification last, or sends its text to each socket with the numbers from the counter plus two on |
| Handlers.OthersAreIgnored | source/server/server.cpp:337-385 | any other packet changes nothing and sends nothing |
| Handlers.LookupIs | source/server/SessionManager.cpp:93-113 | the lookup finds the first user in dictionary order whose session holds the address, and nobody exactly when no session does |
| Handlers.LexIsDictionary | source/server/SessionManager.cpp:98-106 | map order is dictionary order: a prefix first, otherwise the first difference decides |
| ServerInvariants.NumbersStayDistinct | source/server/ReplicaManager.cpp:119-139 | in every run all numbers in the buffer differ and are below the counter, so a confirmation marks at most one item |
| ServerInvariants.AtMostOneHit | source/client/confirmation-buffer.hpp:106-120 | a buffer with increasing blocks has at most one item with a given number |
| ServerInvariants.CopyMatchesItem | source/server/ReplicaManager.cpp:142-156 | copy i goes to secondary i with the number of item i of the container pushed, or, from the fourth on, with a number not yet reserved |
| ServerInvariants.DiskStaysPrinted | source/server/ProfileManager.cpp:87-140 | in every run that starts on a file Sync wrote, the file equals the printed profiles |
| ServerInvariants.RestartRestores | source/server/ProfileManager.cpp:36-140 | after any run from any readable file without repeated handles, restarting restores handles and ordered follower lists if and only if the graph is storable, is the exception, or was not changed since it was read |
| ServerInvariants.Durability | source/server/ProfileManager.cpp:85-140 | with words without commas as handles and no more events than an int can count profiles, restarting after any run restores the profiles |
| ServerInvariants.DurableWhileCountable | source/server/ProfileManager.cpp:111-140 | likewise as long as the number of profiles reached fits an int |
| ServerInvariants.FirstStart | source/server/ProfileManager.cpp:76-82 | a missing file starts a server without profiles, and after any run from there a restart restores them |
| Formats.FileLayout | source/server/ProfileManager.cpp:111-140 | the file for every graph: the count, a line per handle, a "followed,follower" line per edge, profile by profile |
| Formats.BlankFile | source/server/ProfileManager.cpp:45-49 | on an empty or blank file start-up is undefined |
| Formats.FileWithoutCount | source/server/ProfileManager.cpp:45-59 | a file that does not begin with a number gives no profiles |
| Formats.NegativeCount | source/server/ProfileManager.cpp:45-68 | a negative count followed by a word is undefined |
| Formats.UnterminatedWord | source/server/ProfileManager.cpp:58-62 | a last line without a newline is applied once |
| Formats.CountOutOfRange | source/server/ProfileManager.cpp:48-49 | a count out of range becomes the nearest int and sets fail |
| Delivery.Conservation | source/server/server.cpp:86-116 | over every run, queued before plus enqueued by SEND equals queued after plus delivered, as multisets |
| Delivery.DeliveryIsOneStep | source/server/server.cpp:94-108 | a notification leaves the queue in one step that sends its text to every socket of its recipient, at least one, with consecutive numbers; no other step sends notifications |
| Delivery.NotesIncrease | source/server/server.cpp:103-107 | over every run notification numbers strictly increase, to all and to any one address, whatever is interleaved |
| Delivery.StablePartition | source/server/server.cpp:86-116 | with sessions fixed, as many rounds as notifications keep exactly the offline recipients' in order and send the others' in order, one packet per socket, numbered consecutively |
| Delivery.SessionAccounting | source/server/SessionManager.cpp:18-83 | over every run a user's sockets are those granted and not ended, and never more than two |
| Delivery.SessionsAfter | source/server/SessionManager.cpp:18-83 | only CONNECT and DISCONNECT touch the session table, and how |
| PubSub.FollowedForever | source/server/server.cpp:256-336 | after an authenticated FOLLOW, whatever happens next, each post of the followed user enqueues exactly one notification for the follower |
| PubSub.PostReachesFollower | source/server/server.cpp:86-116 | such a post and one pass of the worker send the text to every socket of the follower |
| Sessions.UserAt | source/server/SessionManager.cpp:93-113 | the lookup succeeds if and only if some user holds the address, and gives the least such handle in map order |
| ReorderBuffer.ShownInSendOrder | source/client/client.cpp:200-225 | any run's notifications to one address, some lost, some repeated, in any order within one batch, are shown in the order the server sent them |
| ReorderBuffer.NothingLostOrRepeated | source/client/client.cpp:59-65 | over all batches the notifications received while listening are those shown plus those waiting |
| ReorderBuffer.Client.Conserved | source/client/client.cpp:200-221 | likewise for the object: what its handler was shown and its list holds is what it received |
| ReorderBuffer.StaysListening | source/client/client.cpp:49-87 | a client that receives only what a run of a server sends to its address never stops listening, so no notification that reaches it is missed |
| ReorderBuffer.ReachedIsShownOrWaiting | source/client/client.cpp:200-221 | everything that reaches such a client is shown or waiting, as often as it arrived |
| ReorderBuffer.SortIsUnique | source/client/client.cpp:208-210 | sorting by number has one result when equal numbers mean equal packets |
| ReorderBuffer.SortBySeqn | source/client/client.cpp:208-210 | a sorted permutation of the batch |
| ReorderBuffer.Client.Receive | source/client/client.cpp:40-89 | a notification joins the list, an accept sets the flag, an error or info goes to the handler, and the client goes on listening; any other packet sends one DISCONNECT with its handle and ends the listening, after which nothing is received |
| ReorderBuffer.Client.Reorder | source/client/client.cpp:204-221 | one pass shows a sort of the list and empties it |
| Peers.PeersRoundTrip | source/server/ReplicaManager.cpp:61-94 | parsing the variable printed for a replica gives the other peers in order if and only if each is printable |
| Peers.RoleAgreement | source/server/ReplicaManager.cpp:95-117 | with one primary and distinct ports, every secondary finds the same primary address and the primary's secondaries are the remaining peers in list order |
| Peers.ParsePeersArgument | source/server/ReplicaManager.cpp:61-94 | the loop parses every entry, or reports the undefined ones |
| Formats.VariableLayout | scripts/launch.py:35-47 | the variable for every list: "host:port:p" or "host:port:s" for the other ports, comma-separated, in order |
| Formats.ParsePeerIs | source/server/ReplicaManager.cpp:68-90 | an entry is host, port and flag; fewer pieces are undefined, further ones ignored, only "p" means primary |
| Formats.RoleIs | source/server/ReplicaManager.cpp:106-117 | a secondary's primary is the first one listed, or there is none |
| Formats.SecondariesAre | source/server/ReplicaManager.cpp:95-104 | the secondaries are the peers that are not primary, in order |
| Profiles.Profile.AddFollower | source/server/Profile.cpp:16-40 | adds the pointer once, writes the file when asked, and has no result exactly for an unknown handle |
| Profiles.ProfileManager.GetProfileByName | source/server/ProfileManager.cpp:142-152 | the first profile with the handle, or null |
| Profiles.ProfileManager.NewProfile | source/server/ProfileManager.cpp:99-109 | appends a fresh unconnected profile and writes the file |
| Profiles.ProfileManager.Sync | source/server/ProfileManager.cpp:111-140 | the file becomes the printed graph |
| Profiles.ProfileManager.ReadProfilesFromFile | source/server/ProfileManager.cpp:36-83 | the loops build the objects of the graph `Load` gives, or report undefined behaviour exactly when `Load` does |
| SessionTable.SessionManager.StartSession | source/server/SessionManager.cpp:18-54 | adds the socket to the user's one session object, or refuses when there are two |
| SessionTable.SessionManager.EndSession | source/server/SessionManager.cpp:56-83 | removes the first matching socket and keeps the entry |
| SessionTable.SessionManager.GetUserNameByAddressAndIP | source/server/SessionManager.cpp:93-113 | the walk in key order finds what `UserAt` gives |
| SessionTable.SessionManager.GetUserAddresses | source/server/SessionManager.cpp:115-125 | the sockets of the user's session, none without one |
| ServerObjects.ReplicaManager.GetSecondaryReplicas | source/server/ReplicaManager.cpp:95-104 | the peers that are not primary, in order |
| ServerObjects.ReplicaManager.GetPrimaryReplica | source/server/ReplicaManager.cpp:106-117 | this peer if primary, else the first primary listed, else the exception |
| ServerObjects.ReplicaManager.BroadcastToSecondaries | source/server/ReplicaManager.cpp:119-157 | reserves three numbers, pushes one container and sends one numbered copy per secondary |
| ServerObjects.ReplicaManager.ConfirmMessage | source/server/ReplicaManager.cpp:159-179 | the primary marks the number and accepts for each complete container; a secondary echoes the number, or throws when no peer is primary |
| ServerObjects.Server.HandleConnectMessage | source/server/server.cpp:150-230 | the objects do what the value-level CONNECT does, and the pointers stay in agreement; it throws exactly without a primary |
| ServerObjects.Server.HandleDisconnectMessage | source/server/server.cpp:231-255 | likewise for DISCONNECT |
| ServerObjects.Server.HandleFollowMessage | source/server/server.cpp:256-297 | likewise for FOLLOW |
| ServerObjects.Server.HandleSendMessage | source/server/server.cpp:298-336 | likewise for SEND |
| ServerObjects.Server.HandleConfirmMessage | source/server/server.cpp:374-379 | likewise for CONFIRM |
| ServerObjects.Server.WorkerRound | source/server/server.cpp:88-115 | one iteration, reaching the sockets through the recipient's own pointer, does what the value-level round does |
| ServerObjects.Server.Serve | source/server/server.cpp:137-385 | any run of handlers and worker rounds on the objects is the value-level run, with the same datagrams, up to the first event that throws, if any |
| ServerObjects.Server.AliasAgreement | source/server/server.cpp:159-174 | a profile's session, where set, is the map's object for its handle and nobody else's; with unique handles it is set exactly when the handle is in the map |
| ServerObjects.Server.SessionOf | source/server/SessionManager.cpp:18-54 | the profile that a handle leads to has a session exactly when the handle is in the map, and then that very object |
| ServerObjects.Server.PointerMatchesTable | source/server/server.cpp:98-100 | the worker's view of a recipient's sockets is what the session table gives |
| ServerObjects.Boot | source/server/server.cpp:14-21 | start-up builds a server on the graph read, with no sessions, an empty queue and buffer and the counter at zero, for every disk that can be read, repeated handles included; without a file it starts with no profiles |

## Left out

- Runs from a profile file that names a handle twice: the objects serve them (`Boot`, `Serve`), but the invariants over runs are proved for unique handles, and the cluster restarts only on such files.
- Restarting a secondary: it loses its session entries, so only restarts of the primary are modelled.
- Replication of FOLLOW, SEND and DISCONNECT: the code replicates only CONNECT, so replicas are compared on CONNECT alone.
- Exactly-once Accept, per-recipient order across session changes and client order across batches: the code does not provide them.
- Data races below handler granularity: the model's steps are whole handlers and worker iterations.
- Sockets, threads, `Server::Listen`, `Client::Connect`: system calls, replaced by the network of the cluster and by event sequences.
- Packet byte layout, timestamps and the 512-byte payload limit: packets are values with a type, a number and a text.
- `Profile::GetFollowers` and the other getters, `GetConnectedUsers`, `GetConnectedSockets`, `Broadcast` and the INFO request: simple reads whose replies are commented out in the source.
- Console, GUI, `HelpInfo` and the trimming helpers: user interface.
- The rest of `launch.py` and the build files: process handling and configuration.
- Failing file writes: `Sync` always succeeds in the model.
