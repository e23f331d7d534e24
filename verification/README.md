# JustAnotherVoiceChat: the voice session, verified

The plugin joins a voice session with a game server to what it changes in TeamSpeak: it moves the
user into a game channel, mutes the channel's members, renames the user, and is supposed to undo all
of it when the session ends. This project models the session, the bookkeeping and the wire format,
and proves what holds over every run of them. `dafny verify dfyconfig.toml` checks everything.

## What is modelled

- `Common`, `IdSets`: fixed-width integers, C and C++ strings as bytes, `std::set<anyID>` as a strictly
  ascending sequence, the zero-terminated arrays TeamSpeak is given and gives, and ledgers: what has
  been handed out, one number each, and how often each number has been given back. ENet's packets and
  TeamSpeak's strings and lists are kept in ledgers.
- `TeamSpeak`: the environment. Every call the plugin makes has a number, and `answers(n)` decides
  whether call `n` returns `ERROR_ok`; a request has its effect exactly when it does. A theorem about
  all `Env` values is a theorem about all ways TeamSpeak can fail. `AllGood` is the TeamSpeak that
  answers everything.
- `Bookkeeping` (values) and `BookkeepingObject` (the class `Bookkeeper`): `teamspeak.cpp` with its
  three static variables.
- `Codec`, `Protocol`: the binary archive and the packets.
- `Session` (values) and `SessionObject` (the class `Client`): `client.cpp`. `PluginObject` holds the
  wrappers and callbacks, `Http` and `HttpObject` the HTTP front.

Code that updates fields in place is a class whose methods run the same steps and are proved to
compute a function of the old state; the theorems are about those functions and about runs of them
(`Session.Run`, `Http.RunAll`). The update loop is such a run (`Session.LoopIsRun`), and the class
`Plugin` keeps the lifecycle invariant across all its calls, so the theorems hold of the classes. Where
an ending, a trace or a set is described, it is described without the function that computes it.
`Messages` says what each message does, from its bytes on its channel. `Restoration` is what a session puts back; `RestorationLimits` is where that ends.

Assumptions of the model:

- Two actors: callers, and the update thread. An operation is one step; when a caller stops the thread,
  the rest of the thread's loop and its `close` belong to the caller's step, as does one last event
  the thread's service call may return. Serving a message is one step.
- ENet's answers are inputs: what a service call returns, and whether a host, a peer and a connection
  come about. A connection attempt that does not report "connected" is one outcome.
- `serializePacket` returns the bytes it has built and `deserializePacket` returns the packet as a
  value; as written, the first has no return statement and the second returns a reference to a local.
  A boolean on the wire is true when its byte is not zero, and the host is little-endian.
- The nickname and output queries return the published values; a set changes a local copy and a flush
  publishes it. Channel queries and moves for a client id that is not the user's own fail. The member
  lists TeamSpeak returns do not depend on the user's own move.
- An exception that leaves the HTTP request handler ends that request and nothing else. It leaves a C
  callback of libmicrohttpd, where a real process may well end instead.
- `hide` statements only keep definitions out of proofs that do not need them.

## What the proofs found

Proved of the code as it is. Each "Exact" lemma says when a property holds and when it does not, for
all inputs; the inputs that break it are named there or given as runs of their own.

- Closing restores TeamSpeak only by moving the user home first: if he is not found elsewhere and
  moved to the saved channel, mutes and nickname stay (`GoHomeRestoresExact`, for every state and every
  refused call).
- An update or a rename that a server sends on a later connection before its handshake is applied to
  the server of the earlier session, and no ending undoes it (`EarlyUpdateExact`, `EarlyControlExact`).
- A first accepted handshake is not undone if it leads into the channel the user already sits in with
  others, or if he is in no channel, channel 0 (`FirstHandshakeExact`). A second one in the same session
  overwrites the way home, whichever server it names (`SecondHandshakeExact`).
- The output mute around the move is not always undone: a refused move leaves the output off, a refused
  output query switches on what the user had switched off (`OutputExact`, `RefusedOutputQueryUnmutes`).
- The client id 0 in a mute request ends the id array early, so the cache believes clients muted that
  are not (`MuteAgreementExact`). A refused unmute-everybody request is forgotten
  (`UnmuteAllAgreement`).
- A nickname query that fails forgets the saved name (`RefusedQueryForgets`, `RefusedQueryLosesName`);
  one that succeeds never gives its string back (`QueriesKeepStrings`).
- The second `close` of a shutdown can give up the saved channel, when TeamSpeak answers the first one's
  channel query and not the second one's (`SecondCloseCanAct`).
- `connect` reports success without a session for an empty host, id 0 and the port a closed client
  holds (`ConnectContract`, `EmptyHostConnects`).
- A `port` or `uid` that is not a number shuts the HTTP front for good (`ReleasesExact`,
  `UnreadablePortThrows`, `ThrownShutsFront`).
- An update that mutes a client after unmuting him leaves him unmuted (`BatchMatchesSequenceExact`,
  `LateMuteIsLost`).

## Model

| member | source | states |
|---|---|---|
| `Restoration.SessionsRestore` | src/client.cpp:174-229 | Over any run of any number of sessions with TeamSpeak answering, servers sending at most one accepted handshake a session, for a server where the user's channel is not 0 and not the game channel, and before it, on the server of an earlier session, neither a rename nor an update that leaves somebody muted: whenever the client is closed, on every server the user is in his old channel under his old name, nobody is muted, cache and saved name are empty |
| `Restoration.SessionRestored` | src/client.cpp:102-134 | From any state in game, each ending (caller's disconnect, plugin stop, server drop, network error, rejection by version) closes the client and restores everything |
| `Restoration.HandshakeLeadsAway` | src/client.cpp:397-469 | An accepted handshake takes a session from a clean state into one where every change to TeamSpeak is recorded; a handshake for an unknown server changes nothing there |
| `Restoration.GoHomeReturns` | src/client.cpp:195-226 | The way back from a recorded game state undoes move, mutes and nickname completely |
| `RestorationLimits.GoHomeRestoresExact` | src/client.cpp:195-226 | In any state and under any refusals, closing leaves everything as it should be if and only if: the user is found elsewhere and moved back, the channel is his own, no other server had been touched, the unmute request frees everybody and the name comes back; or he is not moved and everything was as it should be anyway |
| `RestorationLimits.EndingRestores` | src/client.cpp:102-134 | With every call answered each of the five endings leaves the servers as a single way home would, however often it closes |
| `RestorationLimits.EarlyUpdateExact` | src/client.cpp:471-503 | An update before the session's handshake is undone by the ending if and only if there is no server to apply it to or every client it gets muted it also gets unmuted |
| `RestorationLimits.EarlyControlExact` | src/client.cpp:505-518 | A rename before the session's handshake is undone by the ending if and only if there is no server to apply it to, the name is empty, or it is the user's own |
| `RestorationLimits.FirstHandshakeExact` | src/client.cpp:397-469 | A session's first accepted handshake is undone by the ending if and only if its server is not found, or the user's channel is neither 0 nor the game channel, or it is the game channel and nobody is in it to mute |
| `RestorationLimits.SecondHandshakeExact` | src/client.cpp:417-456 | A second accepted handshake, for the same server, another or an unknown one, is undone by the ending in no case but one: a user in no channel sent to his own, with nobody muted and his own name |
| `RestorationLimits.UnknownServerStrands` | src/teamspeak.cpp:47-91 | An accepted handshake for a server that is not found clears the chosen server, and closing then restores nothing |
| `Messages.AcceptedVersionAnswered` | src/client.cpp:369-395 | The step serving the bytes of an OK version response at or above the minimum adds to the trace the packet and exactly one OK handshake with game id, TeamSpeak id and the chosen server's identity (none without a server or an answer), keeps the session open and changes nothing else, under any refusals |
| `Messages.OtherVersionsRejected` | src/client.cpp:378-391 | The bytes of a version response make the client disconnect if and only if the status is not OK or the version is below the minimum |
| `Messages.AcceptedHandshakeAnnounced` | src/client.cpp:397-469 | The step serving the bytes of an accepted handshake, calls answered: id and old channel kept, the user joined to the game channel, microphone and speakers read, and the trace grown by exactly one OK handshake with his id and identity and then one status with what was read |
| `Messages.RefusedHandshakeIgnored` | src/client.cpp:406-409 | A handshake response that is not OK changes nothing |
| `Messages.UpdateServed` | src/client.cpp:471-503 | The step serving the bytes of an update, calls answered: the muted set and the cache become old plus muted minus unmuted ids (in TeamSpeak as far as the arrays name them), each placed client is where his last entry says, and nothing else on any server changes |
| `Messages.RenameServed` | src/client.cpp:505-518 | The step serving the bytes of a rename, calls answered: the user publicly carries the name, the name to come back to is kept or saved, a name he carries already and the empty one change nothing, and no other server changes |
| `Messages.PositionsServed` | src/client.cpp:520-533 | The step serving the bytes of a position packet, calls answered: each client is where his last entry says and nothing else changes |
| `Messages.UnreadableIgnored` | src/client.cpp:341-367 | A payload on another channel, or one that is no packet of its channel's kind, changes nothing |
| `Shutdown.RoutesAgree` | src/client.cpp:102-134 | A caller's disconnect, a disconnect inside a handler and a bare close reach the same session and the same TeamSpeak, call for call and under any failures, except for the thread object still to be joined |
| `Shutdown.RejectionEnds` | src/client.cpp:378-391 | The loop turn that serves a rejecting version response says farewell with the status for an old server or an old client, closes twice, ends the thread, and destroys its packet and each one still under way exactly once |
| `Shutdown.DropsCloseOnce` | src/client.cpp:237-266 | A server drop and a network error have the same effect: one close, the thread left to be joined |
| `Shutdown.CallerDisconnectEnds` | src/client.cpp:269-285 | Stopping the thread runs its close and then the caller's, giving up exactly one host and joining the thread |
| `Shutdown.LinkStepsGoHome` | src/client.cpp:49-100 | Connecting, disconnecting and stopping change TeamSpeak only by the way home, and exactly so many times over as they close |
| `Shutdown.EndingsGoHome` | src/client.cpp:231-267 | Each of the five endings closes the session and changes TeamSpeak only by the way home, exactly so many times over as it closes |
| `Shutdown.LoopReceives` | src/client.cpp:231-267 | Over the whole update loop the thread receives exactly the packets among the answers it takes, up to the one that ends it and through a disconnect inside a handler, and destroys each exactly once |
| `Shutdown.FirstCloseOutcome` | src/client.cpp:198-220 | Every early return of the first close leaves one of those three situations, the third by the answer just given |
| `Shutdown.SecondCloseIdle` | src/client.cpp:174-229 | With a TeamSpeak that answers, the second close changes nothing on any route |
| `RestorationLimits.SecondCloseCanAct` | src/client.cpp:207-218 | A run from a new client: connected, accepted, the user back in his channel, disconnected; the second close of that disconnect changes what the first one left |
| `Lifecycle.RunKeepsInv` | src/client.cpp:49-138 | Between any two steps of any run host, peer, running flag and live thread are all set or all clear, closed means host, id and TeamSpeak id cleared, every host and thread is given back or owned, and every packet ever received has been destroyed exactly once |
| `Lifecycle.ServeKeeps` | src/client.cpp:234-264 | Serving an answer destroys its packet exactly once, on the branch that drops it and after the handler alike, even if the handler disconnects and drains |
| `Lifecycle.ConnectContract` | src/client.cpp:49-100 | Success for a non-empty host means open with exactly that endpoint, failure means closed; with another endpoint the old session is closed, its host destroyed and its thread joined before the new host is made; the one success without a session is characterised exactly |
| `Lifecycle.EmptyHostConnects` | src/client.cpp:49-52 | A new client reports success for an empty host, id 0 and the port its field happens to hold, without a session |
| `Lifecycle.StopReleasesEverything` | src/justAnotherVoiceChat.cpp:74-90 | After any run, stopping leaves every host destroyed, every thread joined, every packet destroyed exactly once |
| `Session.LoopIsRun` | src/client.cpp:231-267 | The update loop on any list of service answers is a run of network events, so what holds of runs holds of it |
| `Lifecycle.DrainExact` | src/client.cpp:114-124 | A waiting disconnect receives exactly the packets that arrive before the confirmation, an error or a silence, and destroys each exactly once |
| `Lifecycle.DisconnectCloses` | src/client.cpp:102-134 | A disconnect by either actor closes the session and conserves resources; only a caller's joins the thread |
| `Lifecycle.PacketKeeps` | src/client.cpp:341-367 | A handler leaves the session open or fully closed, never in between, and never ends its own thread |
| `Traces.RunKeepsTrace` | src/client.cpp:305-339 | In every reachable state every handshake sent was preceded on its connection by an accepted version or an accepted handshake, and the last status sent equals the current flags |
| `Traces.IngameWasChecked` | src/client.cpp:140-142 | If the server answers only handshakes it has received, being in game means that on this connection the version check passed and afterwards a handshake was accepted |
| `Traces.ServerHearsStatus` | src/client.cpp:324-339 | In every reachable state the last status datagram decodes to the current talking, microphone and speaker flags |
| `Traces.CallbacksTell` | src/teamspeakPlugin.cpp:80-111 | While open, a callback about the user's own voice changes exactly the flag it names and sends it; otherwise no flag changes and nothing is sent |
| `Traces.LinkStepsTrace` | src/client.cpp:287-303 | A new connection starts with the protocol message and nothing else; leaving adds at most the farewell with the right status |
| `MuteStatus.StatusIsLastVerdict` | src/teamspeakPlugin.cpp:113-141 | After any run in game a client is muted exactly when the last event naming him says so, or as before when none did |
| `MuteStatus.HandshakeSeats` | src/client.cpp:434-440 | An accepted handshake starts such a run with exactly the listed members of the game channel added to the muted |
| `MuteStatus.OnlyMembersMuted` | src/teamspeakPlugin.cpp:128-140 | If updates mute only members, nobody but members is ever muted |
| `MuteStatus.LeavingResetsPosition` | src/teamspeakPlugin.cpp:136-140 | A client leaving the channel is put to the origin, one entering keeps his position |
| `CacheRuns.CacheAgreesOverRuns` | src/teamspeak.cpp:117-202 | Over all runs with one server, through refused mutes, moves and renames, lost servers and reconnects, the cache is contained in the set really muted, and equal to it as long as no close that takes place has its unmute-everybody request refused |
| `MuteAgreement.CacheRefinesMutes` | src/teamspeak.cpp:117-202 | Over all sequences of bookkeeping operations with any refusals the cache is contained in the set really muted, and equal to it as long as no unmute-everybody request was refused |
| `MuteAgreement.MuteAgreementExact` | src/teamspeak.cpp:122-168 | The agreement survives a mute request if and only if it failed, named no client 0, or was an unmute naming no cached client |
| `MuteAgreement.UnmuteAllAgreement` | src/teamspeak.cpp:176-202 | The agreement survives an unmute-everybody request if and only if nothing was muted or it was answered |
| `UpdateBatches.BatchExact` | src/client.cpp:480-497 | An update makes the muted set the old one plus the muted ids minus the unmuted ids, in TeamSpeak and in the cache |
| `UpdateBatches.BatchIgnoresOrder` | src/client.cpp:481-494 | Permuting or repeating audio entries changes nothing, under any failures |
| `UpdateBatches.BatchMatchesSequenceExact` | src/client.cpp:484-497 | The batch equals applying the entries one by one if and only if no client whose last entry mutes him has an entry that unmutes him |
| `UpdateBatches.LateMuteIsLost` | src/client.cpp:484-497 | The update that unmutes a client and then mutes him leaves him unmuted |
| `UpdateBatches.PositionsExact` | src/client.cpp:520-533 | A position packet leaves each client where its last entry puts him, coordinates in order, and moves nobody else |
| `UpdateBatches.PlacesExact` | src/client.cpp:499-502 | A list of position calls is its last entry per client |
| `UpdateBatches.ResetExact` | src/teamspeak.cpp:384-395 | Resetting puts exactly the listed members of the user's channel to the origin |
| `Handshakes.HandshakeExact` | src/client.cpp:397-456 | An accepted handshake with every call answered: own id and old channel stored, and on the chosen server exactly channel, mutes and output changed as joining means |
| `Handshakes.RefusalAnswered` | src/client.cpp:411-432 | A handshake that does not lead into the game is answered once, with the code for its reason and the user's identity, unless the reply cannot be archived, and changes neither id nor saved channel |
| `Handshakes.OutputExact` | src/client.cpp:417-446 | After an OK response for a server that is found, under any refusals, the output is off if it was off or has been switched off for the move, unless it has been switched on again; so it is as before if and only if it was on and has not been switched off or been switched on again, or was off and has not been switched on |
| `Handshakes.RefusedOutputQueryUnmutes` | src/client.cpp:421-446 | A user who had muted his output hears again after a handshake in which the output query is refused |
| `Handshakes.AcceptedMoveRestoresOutput` | src/client.cpp:421-446 | With every call answered the output after an accepted handshake is muted exactly if it was before |
| `Handshakes.RefusedMoveKeepsOutputMuted` | src/client.cpp:428-432 | After a refused move the output is off exactly if it was off or has been switched off for the move |
| `NicknameSaver.SaverInvariant` | src/teamspeak.cpp:252-308 | Over any sequence of renames and resets with answered queries the original name is never lost, and a reset that reports success brings it back |
| `NicknameSaver.RefusedQueryForgets` | src/teamspeak.cpp:258-262 | A refused query keeps the saver intact if and only if the user carries the original name at that moment |
| `NicknameSaver.RefusedQueryLosesName` | src/teamspeak.cpp:258-262 | A run of two renames and a reset that reports success and leaves the user under the game's name |
| `NicknameSaver.QueriesKeepStrings` | src/teamspeak.cpp:252-308 | Over any run of renames and resets one string is handed out for every answered query, and none is given back |
| `ServerSearch.VerifyServerExact` | src/teamspeak.cpp:47-91 | The search is true exactly when some listed server answers with the identifier, chooses the first such, else clears the handle; one list and one identifier for every answered query up to that match are handed out, and each is given back exactly once |
| `IdSets.TerminatedListing` | src/teamspeak.cpp:122-131 | A set sent as a zero-terminated array arrives whole if and only as far as it holds no id 0; with it, empty |
| `IdSets.AscendingUnique` | src/teamspeak.cpp:40 | An ascending sequence is the only representation of its set |
| `IdSets.BuildIdArray` | src/teamspeak.cpp:182-191 | The filled array has size plus one cells, the set in order, a closing zero, and lists the sent set |
| `IdSets.ReadIdArray` | src/teamspeak.cpp:237-246 | The scan of any array holding a zero yields exactly the ids in front of the first zero, as a set |
| `IdSets.EraseClients` | src/teamspeak.cpp:150-164 | The nested erasing loops terminate and compute the set difference |
| `Common.TerminatedRoundTrip` | src/teamspeak.cpp:237-246 | Scanning to the first zero undoes termination, whatever lies behind it |
| `Codec.DecodeExact` | include/protocol.h:225-248 | The decoder accepts exactly the encodings followed by anything, for every schema |
| `Codec.RoundTrip` | include/protocol.h:203-248 | Decoding an encoding with anything behind it yields the value and consumes exactly the encoding |
| `Codec.TruncationReported` | include/protocol.h:225-248 | Every strict prefix of an encoding fails to decode |
| `Protocol.PacketRoundTrip` | include/protocol.h:64-183 | Every packet type survives the wire with anything behind it, filter keys defaulted |
| `Protocol.PacketTruncation` | include/protocol.h:225-248 | Every packet cut short anywhere is reported as a failure |
| `Protocol.PrefixFree` | include/protocol.h:64-183 | Encodings of one packet type are prefix-free, and equal ones come from packets a receiver cannot tell apart |
| `Protocol.SerializesToWireFormat` | include/protocol.h:64-183 | The bytes sent are the fields in archive order, each in its width, counts of 64 bits, the filter key left out |
| `Protocol.VerifyProtocolVersion` | include/protocol.h:185-201 | The check holds exactly for versions lexicographically at least the minimum |
| `Http.MutualExclusion` | src/httpServer.cpp:75-124 | In any interleaving of any number of requests at most one holds the lock, and every answered request released what it took exactly once |
| `Http.TurnedAwayExact` | src/httpServer.cpp:76-79 | A request is told "Already connecting" if and only if another one holds the lock |
| `Http.ReleasesExact` | src/httpServer.cpp:81-119 | A holder releases the lock, with the answer its branch gives, if and only if in game, incomplete or numeric |
| `Http.UnreadablePortThrows` | src/httpServer.cpp:112 | A request with the port "x" ends in an exception and keeps the lock |
| `Http.ThrownShutsFront` | src/httpServer.cpp:112 | If the exception under the lock ends only its request, every later request of every run is turned away |
| `Http.HolderCanLeave` | src/httpServer.cpp:75-124 | With readable numbers every request, in any interleaving with any number of others, is answered after at most four steps of its own, three once it holds the lock, and has then released what it took |
| `Http.PortReadBack` | src/httpServer.cpp:112 | A port written in decimal is read back as itself, whatever follows the digits |
| `Http.StoiExact` | src/httpServer.cpp:112 | A number is read from leading space, at most one sign, digits and anything behind them; without a digit, or beyond `int`, it is an exception |
| `Http.EndpointRead` | src/httpServer.cpp:112 | A query with host, port and id in decimal names exactly that endpoint |
| `Http.DialsItsEndpoint` | src/httpServer.cpp:112 | In any interleaving a holder with such a query, not in game, dials that endpoint |
| `HttpObject.HttpServer.HandleRequest` | src/httpServer.cpp:75-124 | An uninterrupted request leaves lock and answer as its steps in `Http` do, connects exactly when free, not in game, complete and numeric; a query with host, port and id in decimal connects to that host, port and id in this order, and if its host is not empty and it is told "OK" the session is open with exactly these |
| `SessionObject.Client.Close` | src/client.cpp:174-229 | Closing in place computes the function the shutdown and restoration theorems are about, for either actor |
| `SessionObject.Client.AbortThread` | src/client.cpp:269-285 | Stopping and joining the thread in place, the thread's last event and its close included |
| `SessionObject.Client.Disconnect` | src/client.cpp:102-134 | Disconnecting in place, the draining loop included |
| `SessionObject.Client.Connect` | src/client.cpp:49-100 | Connecting in place, every failing branch included |
| `SessionObject.Client.Update` | src/client.cpp:231-267 | The update loop on any list of service answers is the repeated turn of the loop, with the close at its end |
| `SessionObject.Client.HandleHandshakeResponse` | src/client.cpp:397-469 | The handshake in place on raw payloads; a payload that does not decode changes nothing |
| `SessionObject.Client.SortAudioUpdates` | src/client.cpp:481-494 | The two sets hold exactly the ids with a muting and with an unmuting entry |
| `BookkeepingObject.Bookkeeper.MuteClients` | src/teamspeak.cpp:117-174 | The requests in place: what TeamSpeak reads from the array and what the cache becomes |
| `BookkeepingObject.Bookkeeper.VerifyServer` | src/teamspeak.cpp:47-91 | The search loop in place, every identifier given back on its own branch and the list at the end |
| `BookkeepingObject.Bookkeeper.SetNickname` | src/teamspeak.cpp:252-283 | The rename in place, every failing call included |
| `BookkeepingObject.Bookkeeper.ResetNickname` | src/teamspeak.cpp:285-308 | The reset in place |
| `PluginObject.Plugin.OnClientMove` | src/teamspeakPlugin.cpp:113-141 | The move callback in place, calls in order, the lifecycle invariant kept |
| `PluginObject.Plugin.UpdateTalking` | src/justAnotherVoiceChat.cpp:113-119 | The guarded wrapper changes and sends nothing while closed; nothing is sent without a peer |

## Left out

- Restoration.SessionsRestore: assumes that TeamSpeak answers every call, that nobody else moves, renames or disconnects the user or changes whom he has muted, and that no message names client 0; what a close does in any state and under any refusals is `GoHomeRestoresExact`, and each packet the run may not contain has its own exact lemma in `RestorationLimits`.
- CacheRuns.CacheAgreesOverRuns: a run stays with one TeamSpeak server or none, and no message or move event names client 0, which `MuteAgreementExact` covers.
- ENet, libmicrohttpd, sockets, timeouts and sleeps: their results are inputs.
- Interleavings finer than a step between an exiting update thread and a caller, and two callers inside `connect` at once other than through the HTTP lock.
- The loop that waits for a channel subscription: its last query is modelled, its repetition is not.
- `ts3_resetListenerPosition` and `ts3_set3DSettings`: they change nothing the session depends on.
- The meaning of coordinates and volumes, and the password of a channel move.
- Who muted a client first: mutes the user made himself before a session are not kept apart.
- `delete` and re-creation of the global client after a stop, which leaves its pointer dangling, and the start-up of ENet and the Windows sockets.
- Logging, response bodies, plugin names and versions, and the export table.
