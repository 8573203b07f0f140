# Tailscale client and DERP relay: a verified model

This project models the stateful core of the Tailscale client and of the DERP
relay in Dafny and proves what that core promises over whole runs. Each source
object whose methods update its fields is a class here; each method is proved
against a specification function on the value of those fields; and the
protocols are transition systems over those functions, with one step for each
critical section, channel operation, or atomic load, store or addition, in
every interleaving.

| module | models |
|---|---|
| `AutoMap` | the map-request restart protocol: two goroutines, a token channel, replaceable contexts and lite updates |
| `Trim` | lazy WireGuard configuration: idle peers leave the device and come back on the first packet |
| `DerpServer`, `DerpRegion` | a relay's registry of connections, forwarders, watchers and noted sends, and every run of it |
| `DerpMesh` | mesh clients that mirror one relay's connections as another's forwarders |
| `DerpMirror` | two relays in one run, a mesh client of the one watching the other |
| `DerpPackets` | packets through a relay's queues, counter by counter |
| `DerpWire` | the frame format, and the receive loop with its peeking and its copying path |
| `PeerDelta`, `MapSession` | delta-encoded peer lists in the heap, and map sessions |
| `Filch` | a log queue in two alternating files behind a bounded line scanner |
| `ResolvConf` | taking over resolv.conf and giving it back |
| `Common` | options, results, bytes, sums |

Where the code and its comments or its evident intent disagree, the model follows the code:

- `derp/derp_server.go:1278`: the membership test of a multiForwarder is the
  opposite of what its comment says. A third forwarder is ignored and a
  forwarder that is already a member is ranked again. `DerpMesh.AddInstallsExactly`,
  `DerpMesh.ExactIffNeverThree` and `DerpRegion.RanksDistinctExactly` say exactly what follows.
- `net/dns/direct.go:222`: whether resolv.conf exists is decided from an error
  that is always nil there. `ResolvConf.RestoreExactly`, `ResolvConf.CloseExactly`
  and `ResolvConf.RestoreLosesMissing` say exactly when the backup is given back.
- `logtail/filch/filch.go:60-78`: a line longer than the scanner's longest token
  empties the file that holds it. `Filch.DrainedExactly` says exactly when
  everything is returned.
- `logtail/filch/filch.go:208-230`: of two files left by an earlier process, the
  newer is copied over the beginning of the older, not after its end.
  `Filch.RecoveryLoses` says what is left.
- `net/dns/direct.go:65-73`: a search line is read as one domain, though all
  search domains are written on one line. `ResolvConf.ReadsBackExactly` says
  exactly when they are read back.
- `control/controlclient/map.go:169-174`: the delta fields are cleared for a
  delta response only, and seen and online changes are ignored in a response
  that lists peers.
- `wgengine/userspace.go:696-739`: a packet hook works on the cell it was made
  with, without the lock, whatever reconfigurations do meanwhile.
  `Trim.SendWakesExactly` and `Trim.RecheckWakesExactly` say exactly when the
  packet's peer is woken; `Trim.PeerSleepsThrough`, `Trim.HookOutlivesItsCell`
  and `Trim.HookIsHeldUp` are runs in which it is not.
- `derp/derp_server.go:1078-1096`: a packet may be queued after the sender has
  drained its queues to count what is left. `DerpPackets.DrainedIffNoLateOffer`
  and `DerpPackets.AtRestAllIsCounted` say exactly when that happens and what
  the counters then miss; `DerpPackets.PacketIsStranded` is such a run.

## Model

| member | source | states |
|---|---|---|
| `AutoMap.Auto.constructor` | control/controlclient/auto.go:88-113 | a new client is not paused, not logged in, and has nothing queued |
| `AutoMap.Auto.DoCancelMapLocked` | control/controlclient/auto.go:209-216 | the running map context is cancelled and, unless the client is closed, replaced by a live one |
| `AutoMap.Auto.DoCancelMapSafely` | control/controlclient/auto.go:224-258 | a poll that has had an answer is cancelled; one that has not, or none, leaves exactly one token waiting |
| `AutoMap.Auto.DoSetPaused` | control/controlclient/auto.go:126-144 | unpausing closes every waiter's channel once, in order, and leaves no waiter; pausing cancels the map context |
| `AutoMap.Auto.DoUnpausedChanLocked` | control/controlclient/auto.go:395-399 | the caller gets a channel no one had before, queued for the next unpause |
| `AutoMap.Auto.DoSendNewMapRequest` | control/controlclient/auto.go:159-173 | a lite update starts exactly when a poll has had an answer, none is under way and the client is logged in |
| `AutoMap.Auto.DoNetmapReceived` | control/controlclient/auto.go:464-496 | with a token waiting the map is refused, the token taken and the poll cancelled; otherwise the client is synced, and synchronized exactly if logged in |
| `AutoMap.Auto.DoPollEnded` | control/controlclient/auto.go:498-506 | the end of a poll takes back synced, polling and the synchronized state |
| `AutoMap.ChangeKeepsInv` | control/controlclient/auto.go:159-196 | every step of reporting a local change, lite goroutine included, keeps all invariants |
| `AutoMap.CallKeepsInv` | control/controlclient/auto.go:126-144 | pausing, unpausing, logging in or out, and shutting down keep all invariants |
| `AutoMap.MapKeepsInv` | control/controlclient/auto.go:401-521 | every step of the map routine keeps all invariants |
| `AutoMap.AuthKeepsInv` | control/controlclient/auto.go:260-375 | every step of the auth routine keeps all invariants |
| `AutoMap.RunKeepsInv` | control/controlclient/auto.go:159-521 | all interleavings keep all invariants, from any state that has them |
| `AutoMap.NoUpdateIsLost` | control/controlclient/auto.go:159-258 | in every interleaving, once a change has been reported, a request with it has started, or no poll is running, or the running poll is cancelled, or a token is waiting |
| `AutoMap.QuietMeansSent` | control/controlclient/auto.go:159-258 | if all changes are reported, a live poll is running and no token waits, the newest version has been sent |
| `AutoMap.LoginStateIsHonest` | control/controlclient/auto.go:299-521 | in every interleaving the synchronized state means logged in, synced and polling; authenticated means logged in; waiters mean paused; no waiter channel is closed twice or while it waits |
| `AutoMap.MapRoutineDelivers` | control/controlclient/auto.go:401-521 | from every reachable state that is logged in, unpaused, open and quiet, there is a schedule of at most six steps of the map routine alone after which the newest version has been sent |
| `AutoMap.MapRoutineSynchronizes` | control/controlclient/auto.go:401-521 | from every such state there is a schedule of at most fourteen steps of the map routine, answers included, to a live, answered poll that carries the newest version, with no token waiting and the client synchronized |
| `AutoMap.RunKeepsOrder` | control/controlclient/auto.go:126-521 | all interleavings keep the contexts, the answered-poll flag and the token in order |
| `AutoMap.PausedMeansCancelled` | control/controlclient/auto.go:126-144 | in every interleaving a paused client's map routine holds no live context, and no routine ends before the client is closed |
| `AutoMap.PausedRoutineWaits` | control/controlclient/auto.go:395-419 | a map routine that finds the client paused cannot go on before it is unpaused, and can then |
| `AutoMap.PollIsCancelledExactly` | control/controlclient/auto.go:209-258 | in every interleaving a live poll is cancelled by exactly these: a request for a new map once the server has answered it, pausing, the end of a shutdown, an answer that comes while a token waits; so one not yet answered is left to finish |
| `AutoMap.TokenWaitsExactly` | control/controlclient/auto.go:224-258 | a token waits after a step exactly if one was asked for with no answered poll to cancel, or was there and neither an idle routine nor an answer took it |
| `AutoMap.LiteExactly` | control/controlclient/auto.go:159-173 | beside a live poll, a change is reported by a lite update exactly if the poll was answered, the client is logged in and no other lite update is under way |
| `AutoMap.NothingUnasked` | control/controlclient/auto.go:260-521 | a client that was never asked to log in is not logged in, never polls and sends nothing |
| `AutoMap.NoLogoutUnasked` | control/controlclient/auto.go:260-521 | a client that is not asked to log out stays logged in |
| `AutoMap.GoalIsReached` | control/controlclient/auto.go:299-375 | a login or logout that succeeds leaves the client in or out as asked, with its goal dropped |
| `AutoMap.LoginIsTried` | control/controlclient/auto.go:320-362 | a login asked for is tried; one that needs a URL says so, is no longer synced, and is tried again with the URL |
| `AutoMap.ShutdownEndsAuthRoutine` | control/controlclient/auto.go:260-282 | once a shutdown has begun the auth routine can end at its next turn |
| `AutoMap.ShutdownEndsMapRoutine` | control/controlclient/auto.go:209-216 | once a shutdown has cancelled the map context, the map routine can end within five steps, wherever it is |
| `Trim.UserspaceEngine.constructor` | wgengine/userspace.go:250-258 | the engine starts with no peers and no activity |
| `Trim.UserspaceEngine.IsActiveSince` | wgengine/userspace.go:579-588 | true exactly if a packet was received from the disco key or sent to the address after the time |
| `Trim.UserspaceEngine.UpdateActivityMapsLocked` | wgengine/userspace.go:696-755 | afterwards exactly the given keys and addresses are tracked, old ones with their times, each hook on the cell its address is stored at |
| `Trim.UserspaceEngine.SurveyPeer` | wgengine/userspace.go:637-643 | whether any of the peer's addresses was active, and all its addresses as tracked |
| `Trim.UserspaceEngine.SurveyPeers` | wgengine/userspace.go:622-652 | the loop yields the surveyed configuration: untrimmable and recently active peers stay, the others are trimmed, all trimmable ones are tracked |
| `Trim.UserspaceEngine.FlushedConfig` | wgengine/userspace.go:663-681 | the intermediate config is the new one without the peers whose disco key changed |
| `Trim.UserspaceEngine.MaybeReconfigWireguardLocked` | wgengine/userspace.go:596-689 | the whole recomputation, with its skip, against its specification |
| `Trim.UserspaceEngine.NoteReceiveActivity` | wgengine/userspace.go:537-573 | only a tracked disco key is noted, and for a trimmed one the config is recomputed |
| `Trim.UserspaceEngine.SetConfig` | wgengine/userspace.go:785-837 | the config part of Reconfig: the new full config, the changed disco keys, then the recomputation |
| `Trim.UserspaceEngine.NotePacketSent` | wgengine/userspace.go:715-739 | the hook stores the time in its own cell at most every ten seconds, and asks for a recheck exactly after a minute of silence |
| `Trim.KeptPeersMembers` | wgengine/userspace.go:622-652 | the surveyed config keeps exactly the peers that are untrimmable or active |
| `Trim.TracksTrimmable` | wgengine/userspace.go:635-641 | every trimmable peer's disco key and addresses are tracked |
| `Trim.TracksOnlyTrimmable` | wgengine/userspace.go:635-641 | nothing but trimmable peers' disco keys and addresses is tracked |
| `Trim.TrackCellsSound` | wgengine/userspace.go:696-755 | tracking gives each address one cell of its own and never moves an existing one |
| `Trim.TimesSurvive` | wgengine/userspace.go:696-713 | addresses and disco keys that stay tracked keep their times |
| `Trim.ReconfigSettles` | wgengine/userspace.go:596-689 | after a recomputation the device holds exactly the peers to keep, skipped or not |
| `Trim.DeviceIsExact` | wgengine/userspace.go:511-689 | in every run, after every recomputation a configured peer is in the device exactly if the full config is forced, or it has no disco key, or an allowed IP that is not a single address, or was used in the last five minutes; the trimmed disco keys are those of the peers left out |
| `Trim.SubnetRoutersStay` | wgengine/userspace.go:511-636 | in every reachable state a configured peer with no disco key, or with an allowed IP that is not a single address, is in the device |
| `Trim.DeviceHasLastConfig` | wgengine/userspace.go:596-689 | in every run the device has the last config it was given |
| `Trim.RunKeepsInv` | wgengine/userspace.go:537-837 | in all runs of configs, packets received, and packet hooks that fetch, load, store and recheck in separate steps, nothing was received from a trimmed peer after the cutoff of the recomputation that last trimmed it, and each of its addresses was last sent to by then, or has a recheck pending, or was stored by a hook held up over that recomputation, with a time more than four minutes older than it |
| `Trim.ReceiveWakes` | wgengine/userspace.go:537-573 | a received packet leaves its peer in the device |
| `Trim.ReceiveWakesExactly` | wgengine/userspace.go:537-652 | a received packet wakes a sleeping peer if and only if the peer has an address and the two clock readings are less than five minutes apart, or a hook counts for it: one with a recheck pending, or one that stored late |
| `Trim.AddresslessPeerSleepsOn` | wgengine/userspace.go:537-652 | a run in which a packet received from a trimmed peer that has no address leaves it asleep |
| `Trim.UninterruptedHook` | net/tstun/wrap.go:450-455 | fetching, loading and storing with nothing in between does what the hook does as a whole |
| `Trim.StaleSendRechecks` | wgengine/userspace.go:60-76 | the thresholds make the first packet to a stale address ask for a recheck, if its cell is still the address's and the last recomputation was at most four minutes after the clock was read |
| `Trim.StoredTimeIsFresh` | wgengine/userspace.go:715-731 | a hook leaves its packet's time in its cell, or one less than ten seconds older; a time is replaced only after ten seconds, and no other cell is written |
| `Trim.SendRechecksOrIsAwake` | wgengine/userspace.go:715-739 | after the lock-free part of a send hook, a recheck is pending or the packet's peers are in the device, if the cell it fetched is still the address's and the last recomputation was at most four minutes after it read the clock |
| `Trim.SendWakesExactly` | wgengine/userspace.go:596-739 | a hook that finishes wakes a sleeping peer if and only if a minute had passed since the time it loaded, and its packet, or that of a hook that stored late, was to an address of the peer less than five minutes ago and the address is still tracked by the cell it wrote |
| `Trim.HookOutlivesItsCell` | wgengine/userspace.go:696-739 | a run in which the peer is taken out and put back between fetching the hook and running it, and the hook ends without a recheck while the peer is asleep |
| `Trim.HookIsHeldUp` | wgengine/userspace.go:715-739 | a run in which the peer is trimmed between the hook's load and its store, and the hook ends without a recheck |
| `Trim.RecheckWakes` | wgengine/userspace.go:715-739 | when the recheck of a hook finishes, every peer for which a hook counts is in the device, asleep before or not |
| `Trim.RecheckWakesExactly` | wgengine/userspace.go:596-739 | the recheck wakes a sleeping peer if and only if its packet, or that of a hook that stored late, was to an address of the peer, less than five minutes ago, and the address is still tracked by the cell that hook wrote |
| `Trim.PeerSleepsThrough` | wgengine/userspace.go:696-739 | a run in which the peer is taken out and put back while the recheck is pending, and sleeps through the packet |
| `Trim.ActivityMapsCoherent` | wgengine/userspace.go:541-547 | in every run hooks and send times share keys and cells, and a trimmed disco key is always tracked, so the unexpected log line is unreachable |
| `Trim.SkipIsHarmless` | wgengine/userspace.go:596-689 | in every run the device holds the config just computed even when applying it was skipped |
| `Trim.RestartedPeerIsFlushed` | wgengine/userspace.go:663-681 | a peer that comes into the device with a non-zero disco key other than the one its public key was last listed with is absent from a config given to the device just before |
| `Trim.ChangedPeerIsFlushed` | wgengine/userspace.go:663-681 | with each public key listed once before, a peer whose non-zero disco key changed, in the device before and after, is flushed |
| `Trim.PrevDiscoIsLast` | wgengine/userspace.go:798-809 | a public key's previous disco key is the one in its last listing with a non-zero one |
| `Trim.OthersAreNotFlushed` | wgengine/userspace.go:663-689 | a config given to the device holds exactly the peers of the last one, apart from restarted peers left out of the one before it |
| `Trim.OnlyReconfigsFlush` | wgengine/userspace.go:537-689 | a recheck or a received packet gives the device at most one config |
| `DerpServer.Server.constructor` | derp/derp_server.go:175-214 | a new relay has an empty registry |
| `DerpServer.Server.Accept` | derp/derp_server.go:278-285 | connection numbers are never handed out twice |
| `DerpServer.Server.BroadcastPeerStateChangeLocked` | derp/derp_server.go:387-392 | every watcher's queue gets the change at its end, nothing else changes |
| `DerpServer.Server.RegisterClient` | derp/derp_server.go:352-380 | the connection becomes current for its key, the key is in the region with any forwarders it had, and every watcher is queued the news |
| `DerpServer.Server.NotePeerGoneFromRegionLocked` | derp/derp_server.go:424-439 | those told are the current connections whose number is the noted one, and the record is dropped |
| `DerpServer.Server.UnregisterClient` | derp/derp_server.go:395-418 | the end of a current connection takes its key from the clients, and from the region unless forwarders remain; the end of a replaced one only gives up its watching, its preference and its count |
| `DerpServer.Server.DoAddWatcher` | derp/derp_server.go:441-464 | a new watcher is queued every connected key, each exactly once, in any order; the relay's own key is not made a watcher |
| `DerpServer.Server.NotePeerSendLocked` | derp/derp_server.go:683-690 | the destination's connection number is noted for the source |
| `DerpServer.Server.DoSetPreferred` | derp/derp_server.go:1034-1046 | the home gauge moves by one exactly when the preference changes |
| `DerpServer.Server.SendMeshUpdates` | derp/derp_server.go:1192-1229 | what is written is a prefix of the queue that leaves a byte free, one more would not, and exactly it leaves the queue |
| `DerpServer.Server.DoAddPacketForwarder` | derp/derp_server.go:1269-1297 | the forwarder is added, or ranked last again, or ignored as a third, as the code is written |
| `DerpServer.Server.DoRemovePacketForwarder` | derp/derp_server.go:1301-1342 | the forwarder goes, a pair becomes its other member, and the last one takes its key out of the region unless the key is connected here |
| `DerpServer.Server.ConsistencyCheck` | derp/derp_server.go:1423-1460 | passes exactly if every nil entry is a local client, every client is in clientsMesh, and the gauge equals the number of clients |
| `DerpServer.MaxVal` | derp/derp_server.go:1354-1361 | the greatest rank |
| `DerpServer.PickForwarder` | derp/derp_server.go:1363-1373 | a member of lowest rank |
| `DerpRegion.RunKeepsInv` | derp/derp_server.go:352-464 | all runs of accepts, registrations, ends, watches, drains, sends and forwarder changes keep the registry invariants |
| `DerpRegion.WatchersSeeClients` | derp/derp_server.go:1192-1229 | in every run, what was written to an enrolled watcher followed by what is queued folds to exactly the connected keys |
| `DerpRegion.NewsIsExact` | derp/derp_server.go:352-464 | in every run each watcher is told every registration and every end of a current connection once, a new watcher every connected key, and nothing else |
| `DerpRegion.DepartureTellsExactly` | derp/derp_server.go:395-439 | in every run, when any step takes a key out of the region, those told are exactly the connections then current to which a send from the key was noted since it last left, and the record of its sends is dropped; when no key leaves, nobody is told |
| `DerpRegion.RegionIsExact` | derp/derp_server.go:1301-1342 | in every run a key is in the region exactly if it is connected here or has a forwarder |
| `DerpRegion.RegistryIsExact` | derp/derp_server.go:352-464 | in every run the current connection of a key is the last one registered for it, if that one lives; the watchers are the live ones that asked, this relay's own key excepted; the preferred ones are the live ones that last said so |
| `DerpRegion.GaugesAreExact` | derp/derp_server.go:352-418 | the connection gauge is keys plus replaced connections still unwinding; the consistency check passes exactly if there are none; the home gauge counts live preferred connections |
| `DerpRegion.PanicsAreUnreachable` | derp/derp_server.go:395-439 | in every run every multiForwarder has two members, and whenever a key leaves the region it is out of clientsMesh by then, so neither panic is reached |
| `DerpRegion.NewPairIsRanked` | derp/derp_server.go:1286-1324 | of a new pair the earlier forwarder is the only one of lowest rank, and removing the second undoes adding it |
| `DerpRegion.RerankExactly` | derp/derp_server.go:1275-1284 | one call: registering a member again moves it behind the other unless the byte wraps, and the ranks then collide exactly if the other has rank zero |
| `DerpRegion.RanksDistinctExactly` | derp/derp_server.go:1269-1361 | in every run the ranks of a key's pair are distinct all along if and only if no member is ever registered again at rank 255 with the other at zero; in particular until the byte wraps |
| `DerpRegion.RanksCanCollide` | derp/derp_server.go:1275-1284 | a run from an empty registry after which both members of a pair have the same rank |
| `DerpMesh.AddInstallsExactly` | derp/derp_server.go:1269-1297 | adding installs the forwarder exactly if fewer than two others are held, and touches nothing else |
| `DerpMesh.RemoveRemovesExactly` | derp/derp_server.go:1301-1342 | removing removes exactly that forwarder |
| `DerpMesh.MeshClient.Clear` | derp/derphttp/mesh_client.go:42-53 | every forwarder of this client is taken back, all others stay |
| `DerpMesh.MeshClient.UpdatePeer` | derp/derphttp/mesh_client.go:72-92 | a key's arrival adds this client unless two others are held, its departure removes exactly it, and what the client believes present is the fold of what it was told |
| `DerpMesh.MeshClient.Handle` | derp/derphttp/mesh_client.go:114-133 | one message of the watch loop: its key's forwarders gain or lose this client, all others stay, and on a new connection the client is first taken from all of them |
| `DerpMesh.StepKeepsInv` | derp/derphttp/mesh_client.go:42-141 | every step of every mesh client and of the registry keeps forwarders within claims |
| `DerpMesh.ForwardersAreSound` | derp/derphttp/mesh_client.go:42-141 | in every run, between messages, every forwarder held for a key is a mesh client that has the key present |
| `DerpMesh.ExactIffNeverThree` | derp/derp_server.go:1269-1342 | for each key, the forwarders are exactly the claimants all along a run if and only if that key never has three claimants along it |
| `DerpMesh.ThirdClientIsNotHeld` | derp/derp_server.go:1275-1284 | a run of three mesh clients after which the third has a key present and is not held for it |
| `DerpMesh.ForwardersAreExact` | derp/derphttp/mesh_client.go:42-141 | a key that never had three claimants is forwarded by exactly its claimants, and between messages by exactly the clients that have it present |
| `DerpMesh.ClientsBelieveWhatTheyHeard` | derp/derphttp/mesh_client.go:42-141 | in every interleaving, what a client has present is the fold of the messages it has handled since it last cleared |
| `DerpMesh.MirrorConverges` | cmd/derper/mesh.go:72-74 | a mesh client whose handled messages are those its relay wrote, with nothing queued, is held only for keys connected there, and for each of them that never had three claimants |
| `DerpMirror.RunKeepsInStep` | derp/derphttp/mesh_client.go:42-141 | in every joint run of two relays, connections replaced unnoticed included, a mesh client that knows its connection is clearing or has handled a prefix of what was written to it, one that does not has taken nothing from it, and an unconnected one is clearing or has nothing present |
| `DerpMirror.MirrorIsExact` | cmd/derper/mesh.go:72-74 | in every joint run, once the client has taken all that was written and nothing is queued, it is held only for keys connected to the other relay, and for each of them that never had three claimants; or it has not noticed that its connection is another, and no key is connected there |
| `DerpPackets.SendPkt` | derp/derp_server.go:767-804 | undisturbed, a packet for an open connection is always queued, at the cost of at most the oldest packet |
| `DerpPackets.StepBalances` | derp/derp_server.go:649-804 | whatever one step takes from a goroutine or a queue shows in a counter or a queue |
| `DerpPackets.DropBalances` | derp/derp_server.go:746-765 | the three additions that count a drop balance among themselves |
| `DerpPackets.RunKeepsInv` | derp/derp_server.go:649-804 | all interleavings keep the accounts |
| `DerpPackets.PacketsAreConserved` | derp/derp_server.go:649-1155 | in every interleaving each packet was forwarded out, sent and dropped, and is queued and in hand, as often in all as it was received and forwarded in |
| `DerpPackets.CountersCountPackets` | derp/derp_server.go:649-1155 | in every interleaving each counter is the number of packets behind it |
| `DerpPackets.CountersAddUp` | derp/derp_server.go:649-1155 | in every interleaving received plus forwarded in equals forwarded out plus sent plus dropped plus queued plus in hand, and no queue exceeds 32 |
| `DerpPackets.PacketsGoWhereLookedUp` | derp/derp_server.go:649-1155 | in every interleaving what was taken from each queue and then what is left is what was put in, in order and of its own kind; a packet was queued for a connection at most as often as it was looked up to it, and written to it at most as often as it was taken from its queues |
| `DerpPackets.ForwardedAtMostOnce` | derp/derp_server.go:649-729 | in every interleaving a packet is handed to other relays at most as often as clients of this relay sent it: one that was forwarded in is not forwarded again |
| `DerpPackets.ReasonsAreTrue` | derp/derp_server.go:746-804 | a packet is dropped exactly when its destination is unknown, its connection is closed or drained, it is the oldest of a full queue, three attempts failed, or its write failed, each with its own reason |
| `DerpPackets.DropsAreCountedByReason` | derp/derp_server.go:746-765 | in every interleaving the counter of each reason and of each kind is the number of drops of that reason or kind, less those still to be counted there |
| `DerpPackets.DrainedIffNoLateOffer` | derp/derp_server.go:767-1096 | all along a run every queued packet has a sender to send it or count it as dropped, if and only if none is queued after its connection's sender has drained and gone |
| `DerpPackets.AtRestAllIsCounted` | derp/derp_server.go:1078-1096 | at rest the counters out add up to those in exactly if no queue holds a packet, and so if none was queued after its sender had gone |
| `DerpPackets.PacketIsStranded` | derp/derp_server.go:767-1096 | a run after which a packet stays in the queue of a closed connection and no counter has seen it leave |
| `DerpPackets.DropCountersAgree` | derp/derp_server.go:746-765 | in every interleaving the drops counted are those counted by reason, and those counted by kind, plus the drops still to be counted there; so the three agree whenever no drop is half counted |
| `DerpWire.BigEndianRoundTrip` | derp/derp.go:108-136 | a 32-bit number survives its four bytes |
| `DerpWire.BytesRoundTrip` | derp/derp.go:108-136 | any four bytes survive their number |
| `DerpWire.BigEndianIs` | derp/derp.go:108-136 | the most significant byte comes first |
| `DerpWire.WriteUint32` | derp/derp.go:108-121 | the four bytes, most significant first |
| `DerpWire.ReadUint32` | derp/derp.go:123-136 | the number, or an error when bytes are missing |
| `DerpWire.WriteFrameHeader` | derp/derp.go:191-197 | type and length |
| `DerpWire.WriteFrame` | derp/derp.go:199-210 | the encoded frame, or nothing for one over ten MiB |
| `DerpWire.ReadFrameHeader` | derp/derp.go:146-156 | the header of the stream |
| `DerpWire.ReadFrame` | derp/derp.go:168-189 | the frame is consumed whole even when the buffer holds only part of it, and too long a frame is refused |
| `DerpWire.HeaderOfEncoded` | derp/derp.go:146-210 | reading back an encoded frame gives its type, length and payload, whatever follows |
| `DerpWire.Client.NextFrame` | derp/derp_client.go:393-428 | peeking and copying both yield the first frame of what remains, and consume exactly it |
| `DerpWire.Client.Recv` | derp/derp_client.go:382-491 | whatever the buffer size, the message is the simple parser's next one; the first error is kept for good |
| `DerpWire.Client.RecvAll` | derp/derp_client.go:378-491 | repeated receiving yields all messages of the simple parser, in order |
| `DerpWire.FramesArrive` | derp/derp_client.go:382-491 | any written frames of at most one MiB are received as exactly their messages, in order |
| `DerpWire.MessagesArrive` | derp/derp_client.go:382-491 | any packets, pings, keep-alives and peer messages written are received, in order |
| `DerpWire.DecodeExactly` | derp/derp_client.go:430-487 | a frame of unknown type or too short is skipped, a bad server-info frame ends the connection, and any other gives a message whose own frame has its type and begins its payload, for a packet all of it |
| `DerpWire.OversizeIsRefused` | derp/derp_client.go:405-410 | a frame over one MiB is refused |
| `DerpWire.TruncationIsNoticed` | derp/derp_client.go:393-428 | a stream that breaks off inside a frame ends in an error |
| `DerpWire.MeshUpdatesArrive` | derp/derp_server.go:1168-1229 | a watcher receives the mesh updates that the registry wrote to it, one message each, in order |
| `DerpWire.Send` | derp/derp_client.go:206-230 | one frame of destination and packet, unless the packet is too big |
| `DerpWire.ForwardPacket` | derp/derp_client.go:232-262 | one frame of source, destination and packet |
| `DerpWire.ReadPublicKey` | derp/derp_server.go:1466-1476 | the next 32 bytes, or an error |
| `DerpWire.RecvPacket` | derp/derp_server.go:920-943 | key and contents of a send frame; short and oversized frames are refused |
| `DerpWire.SendThenReceive` | derp/derp_server.go:920-943 | the relay reads back exactly what a client sent, and nothing of what follows |
| `DerpWire.ParseSendExactly` | derp/derp_server.go:920-943 | a send frame is read exactly if it has a key and at most 64 KiB, all of it there |
| `DerpWire.RecvForwardPacket` | derp/derp_server.go:948-970 | two keys and a packet of at most 64 KiB, exactly if all of it is there |
| `DerpWire.ForwardThenReceive` | derp/derp_server.go:948-970 | another relay reads back exactly what a mesh client forwarded |
| `DerpWire.SendPacket` | derp/derp_server.go:1231-1265 | one frame of source and packet, without the source if it is the zero key |
| `DerpWire.PacketIsRelayed` | derp/derp_server.go:1231-1265 | what one client sends is what the other receives, with the sender's key |
| `PeerDelta.Node.Clone` | tailcfg/tailcfg_clone.go:43-64 | a new node with the same value |
| `PeerDelta.NodesSorted` | control/controlclient/map.go:263-270 | true exactly if all pairs, not just neighbours, are in strict order |
| `PeerDelta.SortNodes` | control/controlclient/map.go:272-274 | an ordered permutation, strictly ordered if IDs are distinct |
| `PeerDelta.SortedIsUnique` | control/controlclient/map.go:272-274 | there is only one strictly sorted list of given nodes |
| `PeerDelta.MergeDelta` | control/controlclient/map.go:204-233 | for any lists the result is ordered and is the changed nodes with some of the previous ones not removed; for strictly sorted lists it is strictly sorted and holds for each ID the changed node, or else the previous one if not removed |
| `PeerDelta.MergeIsReplay` | control/controlclient/map.go:204-233 | as a map the merge is (previous minus removed) overridden by changed |
| `PeerDelta.MarkSeen` | control/controlclient/map.go:241-249 | the last node of each listed ID has its last-seen time set or cleared, the others stay |
| `PeerDelta.MarkOnline` | control/controlclient/map.go:250-255 | the last node of each listed ID has its online flag set, the others stay |
| `PeerDelta.MarkPeers` | control/controlclient/map.go:235-256 | for any list both, as one map over the table of peers; of nodes that share an ID only the last is edited |
| `PeerDelta.CloneNodes` | control/controlclient/map.go:276-285 | for any list an equal list made of new nodes only |
| `MapSession.UndeltaPeers` | control/controlclient/map.go:175-261 | the response's list becomes complete, strictly sorted, and what the fold on maps gives; a delta's changed and removed lists are cleared, those of a response with peers stay |
| `MapSession.MapSession.constructor` | control/controlclient/map.go:52-61 | a session that remembers nothing |
| `MapSession.MapSession.AddUserProfile` | control/controlclient/map.go:63-72 | the map's profiles are the known ones of the users added so far |
| `MapSession.MapSession.Remember` | control/controlclient/map.go:81-106 | fields the response leaves out stay, the others are replaced |
| `MapSession.MapSession.FillSelf` | control/controlclient/map.go:126-138 | a copy of the self node and its fields are in the map |
| `MapSession.MapSession.PresentPeers` | control/controlclient/map.go:145-155 | each peer is named and given to its sharer, and exactly the users then referred to have profiles |
| `MapSession.MapSession.OverrideDNS` | control/controlclient/map.go:156-164 | the response's own servers and search paths override the configuration |
| `MapSession.MapSession.NetmapForResponse` | control/controlclient/map.go:77-167 | the map shows the fold's map, the session moves on with the fold, and it keeps only new nodes while the map owns the old ones |
| `MapSession.LatestWins` | control/controlclient/map.go:85-125 | after any responses, self node, DERP map, DNS, domain, filter and service flag are the last ones any response carried |
| `MapSession.NothingCarried` | control/controlclient/map.go:52-125 | what no response carried is as at the start |
| `MapSession.LatestProfile` | control/controlclient/map.go:81-83 | after any responses, a user's profile is the last one carried for that user |
| `MapSession.ProfilesWereCarried` | control/controlclient/map.go:81-83 | every profile the session has was carried for that user |
| `MapSession.PeersPersist` | control/controlclient/map.go:175-261 | a peer nobody mentions again stays exactly as it was |
| `MapSession.LastMentionDecides` | control/controlclient/map.go:175-261 | over the responses alone: a peer is in the session exactly if the last response that settles its ID lists it, a full list settling every ID and a delta those it changes or removes, and apart from seen and online it is the node listed there |
| `MapSession.NeverMentioned` | control/controlclient/map.go:175-261 | a peer whose ID no response settles is not in the session |
| `MapSession.LastSeenIsLastTold` | control/controlclient/map.go:235-249 | a peer's last-seen time is the time of the last delta since its listing that told of it, or none if that one said so, or else the listed one |
| `MapSession.OnlineIsLastTold` | control/controlclient/map.go:250-255 | a peer's online flag is what the last delta since its listing told, or else the listed one |
| `MapSession.MapShowsPeers` | control/controlclient/map.go:139-152 | a map's peers are the session's, named with the suffix of the map's own name, a shared one belonging to its sharer unless the two are kept apart |
| `MapSession.MapShowsProfiles` | control/controlclient/map.go:63-72 | a map's profiles are those known of exactly the users that it refers to |
| `MapSession.MapShowsSelf` | control/controlclient/map.go:126-144 | a map's own fields are those of its self node, which is the last one carried with its names filled in |
| `MapSession.MapShowsRest` | control/controlclient/map.go:107-164 | the rest of a map is what is remembered, except for the servers and search paths of its own response, which are not |
| `MapSession.ValueIsWire` | control/controlclient/map.go:175-261 | a response as a value holds exactly what came over the wire |
| `MapSession.Respond` | control/controlclient/map.go:77-167 | one response writes to nothing but the session and the nodes it keeps |
| `MapSession.Replay` | control/controlclient/map.go:77-167 | at the end of any session, every map handed out still shows exactly the fold of the responses up to its own: none was changed later |
| `Filch.IndexNewline` | logtail/filch/filch.go:236-238 | the first newline, or none |
| `Filch.SplitLinesExactly` | logtail/filch/filch.go:232-243 | the token is what is consumed: up to the first newline, or all that is left at the end of the file; there is none exactly if neither is to be had |
| `Filch.Scanner.Scan` | logtail/filch/filch.go:60-63 | however the reads are cut, the scanner yields the next line of what is left, or that it is too long |
| `Filch.Filch.constructor` | logtail/filch/filch.go:164-192 | what the files of an earlier process hold is read out first: one file's contents, or the newer's over the beginning of the older's |
| `Filch.Filch.MoveContents` | logtail/filch/filch.go:208-230 | the one file's contents overwrite the other from its position on, and the first is emptied |
| `Filch.RecoveryLoses` | logtail/filch/filch.go:164-230 | of two non-empty files the newer is recovered whole and the older only past the newer's length; all bytes are recovered if and only if one file is empty |
| `Filch.Filch.Write` | logtail/filch/filch.go:81-92 | the bytes, ending in a newline, are appended to the current file |
| `Filch.TerminatedIs` | logtail/filch/filch.go:81-92 | what is written is the bytes as given, and a newline unless they end in one |
| `Filch.Filch.Scan` | logtail/filch/filch.go:60-78 | a line, or else the file is emptied and its scanner dropped |
| `Filch.Filch.TryReadLine` | logtail/filch/filch.go:36-58 | the next line, from the other file once one is used up |
| `Filch.ReadTakesNext` | logtail/filch/filch.go:36-78 | a read takes the next line off the queue, finds the queue empty exactly if it is, or throws away exactly one file |
| `Filch.ReadReturnsOneLine` | logtail/filch/filch.go:36-78 | a read returns exactly one line |
| `Filch.FitsExactly` | logtail/filch/filch.go:60-78 | a file, ending in a newline or not, can be scanned to its end exactly if every 65536 bytes hold a newline |
| `Filch.TwoFilesAreAQueue` | logtail/filch/filch.go:36-92 | if every 65536 bytes recovered, and every 65536 bytes written, hold a newline, then after any mix of writes and reads the bytes returned, then the one file, then the other, are all bytes recovered and written |
| `Filch.DrainedExactly` | logtail/filch/filch.go:36-92 | once drained, everything has been returned if and only if every 65536 bytes recovered, and every 65536 bytes written, hold a newline |
| `Filch.LongLineIsLost` | logtail/filch/filch.go:60-78 | a line of 65536 bytes or more before its newline is never returned |
| `ResolvConf.WriteResolvConf` | net/dns/direct.go:30-46 | the text of the configuration, which bears Tailscale's marker |
| `ResolvConf.RenderIsOwned` | net/dns/direct.go:30-46 | every text written is recognised as Tailscale's own |
| `ResolvConf.ReadResolv` | net/dns/direct.go:48-77 | the name server lines and search lines of a file, trimmed, in order |
| `ResolvConf.ReadsBackExactly` | net/dns/direct.go:30-77 | reading a written configuration back gives its name servers in order and all its search domains as one entry, which split at its spaces gives them in order; so the search domains are given back if and only if there is at most one |
| `ResolvConf.DirectManager.IsOwnedByTailscale` | net/dns/direct.go:162-181 | true exactly if resolv.conf is a regular file with the marker |
| `ResolvConf.DirectManager.BackupConfig` | net/dns/direct.go:185-205 | a foreign resolv.conf becomes the backup; without resolv.conf the backup goes |
| `ResolvConf.DirectManager.RestoreBackup` | net/dns/direct.go:207-237 | the backup replaces Tailscale's file and is dropped in all other cases |
| `ResolvConf.DirectManager.SetDNS` | net/dns/direct.go:239-254 | restores for a zero configuration, backs up and rewrites for any other |
| `ResolvConf.DirectManager.BaseConfigBytes` | net/dns/direct.go:273-284 | read from the backup exactly if resolv.conf is Tailscale's |
| `ResolvConf.DirectManager.Close` | net/dns/direct.go:286-320 | as a restore, but a missing resolv.conf is restored as well |
| `ResolvConf.DirectManager.AtomicWriteFile` | net/dns/direct.go:329-342 | the file is replaced and no temporary file stays |
| `ResolvConf.RestoreExactly` | net/dns/direct.go:207-237 | SetDNS gives the backup back if and only if resolv.conf is there and is not another foreign file |
| `ResolvConf.CloseExactly` | net/dns/direct.go:286-320 | Close gives it back if and only if resolv.conf is missing or is not another foreign file |
| `ResolvConf.RestoreLosesMissing` | net/dns/direct.go:219-228 | the two differ, and SetDNS destroys the only copy, exactly if resolv.conf is missing |
| `ResolvConf.TakeoverExactly` | net/dns/direct.go:185-254 | setting anything but the empty configuration takes resolv.conf over: a foreign one is then the backup, Tailscale's own leaves the backup alone, with none there is no backup, and the file written says what was set |
| `ResolvConf.LosingExample` | net/dns/direct.go:219-228 | a file system where SetDNS loses the configuration and Close does not |
| `ResolvConf.OnlyOwnPaths` | net/dns/direct.go:239-342 | no call touches another path or leaves a temporary file |
| `ResolvConf.RunKeepsInv` | net/dns/direct.go:185-342 | over all runs of SetDNS, Close, foreign overwrites and deletions, a file not given up is in place or in the backup |
| `ResolvConf.LastForeignReturns` | net/dns/direct.go:207-320 | after any such run, Close returns the last foreign file not given up, and SetDNS does exactly if resolv.conf is there |
| `ResolvConf.RestoreWorks` | net/dns/direct.go:162-320 | without deletions, after any run both return the last foreign file and leave no backup, and the base configuration is read from it throughout |
| `ResolvConf.LastIsLastOverwrite` | net/dns/direct.go:162-320 | that file is the run's last foreign overwrite, or the one at the start |

## Left out

- ReceiveWakes: assumes an address, and less than five minutes between the two clock readings inside one call; ReceiveWakesExactly shows that these are needed.
- SendRechecksOrIsAwake: assumes that the hook's cell is still its address's and that it was not held up for over four minutes; HookOutlivesItsCell and HookIsHeldUp are runs in which it fails without the one or the other.
- MapSession.Replay: the IDs within one list of a response are distinct (a list that repeats an ID has no map it could agree with, and the order its sort leaves is not determined), and a delta removes no more IDs than there are peers, since the size hint at control/controlclient/map.go:206 would be negative otherwise.
- LastForeignReturns: a file counts as given up once another program deletes it while it is in place or SetDNS finds no resolv.conf; that it may by chance equal an older backup is not tracked.
- A recomputation reads all send times in one step: a hook's store that falls between two of its reads is placed before or after all of them.
- Errors of the WireGuard device; and the deep hash that decides on skipping is taken to be the value it hashes.
- TLS, HTTP, dialling, JSON and sealed boxes; whether a server-info box opens is a parameter of the client.
- Display names, the MagicDNS suffix and packet-filter parsing are parameters of a map session; the debug filter on self addresses and the session's fixed keys are not modelled.
- Time passes only as readings of the clock given to each step; deadlines, back-off and keep-alives are not modelled.
- sendStatus and the state strings it reports, logging, metrics other than the packet, drop and connection counters, and the replace rate limiter.
- The peer-gone channel after the decision whom to tell, and closing a peer by a mesh client.
- keyOfAddr and the debug traffic view.
- Duplicating standard error into the log files, and the reuse of the scanner's buffer behind a returned line.
- Parsing the addresses and names that readResolv reads, its limit on the length of a line and white space beyond ASCII; resolvOwner, dangling symbolic links, file-system errors, crashes between two file operations, and restarting systemd-resolved.
- ipn/ipnlocal, the commands, the portlist readers, the firewall code and generated clones: glue or easy members.
