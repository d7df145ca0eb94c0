# Verified model of the Amnezia web panel

The panel manages AmneziaWG servers: it mirrors the users of a RemnaWave panel, keeps peers in a
WireGuard configuration and in a clients table, shapes their bandwidth, charges their traffic, and
generates the signature packets that disguise the tunnel. This project models the logic behind those
jobs and proves what the panel relies on: that every interleaving of remote tasks is safe, that two
copies of the same facts never drift apart, that a batch rebuild equals hundreds of single commands,
that bytes are conserved, and that generated packets decode to what went in.

Tables are maps, remote commands are steps on an abstract remote state, and clocks, randomness, fresh
ids, scheduling and failures are inputs that range over everything. Code that updates fields or rows
in place is written as classes and methods proved against a specification; the properties are lemmas
about that specification.

| file | what it models |
|---|---|
| `Tables.dfy` | user and connection rows and the row operations |
| `MassOperations.dfy`, `RemnawaveSync.dfy` | grouped parallel operations per server, and the reconciliation built on them |
| `Text.dfy`, `ConfigText.dfy`, `ConfigParse.dfy`, `ServerConfig.dfy` | Python string operations, the configuration text, its three readers |
| `PeerStore.dfy`, `AwgManager.dfy`, `AddressReuse.dfy` | the peer store as two copies of the same facts, the manager that edits the text, and addresses over whole runs |
| `FilterListing.dfy`, `TrafficControl.dfy`, `Shaping.dfy`, `AddressClasses.dfy` | reading tc's output, tc commands, single limits and the batch rebuild, and what both achieve |
| `Accounting.dfy`, `TrafficPolling.dfy`, `Leaderboard.dfy`, `TrafficCycle.dfy`, `MonthlyRun.dfy`, `NetworkRun.dfy`, `QuotaRun.dfy` | the traffic cycle, from counter readings to disabled users, and whole runs of it |
| `SlidingWindow.dfy`, `SelfService.dfy`, `SelfServiceNames.dfy`, `SelfServiceOutcome.dfy`, `Supervisor.dfy` | the two sliding-window limiters: concurrent self-service requests, and crash restarts |
| `Bytes.dfy`, `ClientHello.dfy`, `Blobs.dfy`, `DnsQuery.dfy`, `QuicInitial.dfy`, `ConnectionKit.dfy` | packet generators with independent decoders, blob text, the configuration rewriter |
| `Startup.dfy` | protocol-name migration and stale-protocol cleanup |

Where a promise does not hold of the code as it is, the model keeps the code and states exactly when
it holds: `Shaping.BatchEqualsIncremental` (clients sharing a class),
`AddressReuse.AddressesStayApartIff` with the failing run `AddressReuse.ReusedAddressCollides` (a
re-enabled client whose address was given away), `SelfServiceNames.NamesStayDistinctIff` with
`SelfServiceNames.UnlockedRenamesCollide` and `SelfServiceNames.AddAndRenameCollide` (renames take no
lock), `RemnawaveSync.FetchIsCompleteIff` with `RemnawaveSync.MissingTotalCutsTheList` and
`RemnawaveSync.UnfetchedAreDeleted` (a service that says too early that it is done; the sync then
deletes the users it did not get), `Shaping.ForeignFilterGoesIff` (classes of more than three digits
are taken for a peer's), `Supervisor.StopIsFinalIff` with `Supervisor.StopBeforeFirstRun` (a
supervising task that was scheduled but had not run when the stop began),
`ClientHello.ClientHelloDecodesIff` and
`DnsQuery.QueryDecodesIff` (names that are too long or empty).

The comment in `gen_tls` speaks of 16 cipher suites in 32 bytes; the code has 15 in 30, and the model
follows the code.

## Model

| member | source | states |
|---|---|---|
| `MassOperations.BuildServerOps` | app/services/user_operations.py:75-97 | every connection of a deleted or toggled user lands in the bucket of its own server and of no other, with the flag requested last for its user as its last one, and every create request in that of its server, in order |
| `MassOperations.EveryInterleavingIsSafe` | app/services/user_operations.py:99-150 | after any interleaving of the servers' task lists, with any list raising anywhere: calls only ever went to a connection's own server, no row of a user outside the delete list is lost or changed, and every new row answers a create request |
| `MassOperations.EveryServerFollowsItsPlan` | app/services/user_operations.py:99-145 | in every interleaving each server's calls are a prefix of its own deletes, then toggles, then creates |
| `MassOperations.UntroubledServerDoesAll` | app/services/user_operations.py:99-150 | a server whose own actions do not fail has made exactly its planned calls once its list is done, whatever the other servers do |
| `MassOperations.PerformMassOperations` | app/services/user_operations.py:68-160 | the user table is the old one without the delete list and with the last requested flag; of the old connections exactly those of surviving users remain, unchanged. Whatever raises, the calls on each server are a beginning of what it owes: a removal for every row of a deleted user there, then a toggle for every row and flag of a toggled user, then an addition for every request, and nothing else. A server where nothing raises gets all of it, given the turns, and every addition that returned a client id for a surviving user has its row |
| `MassOperations.PlanIsOwed` | app/services/user_operations.py:106-143 | the list that a server works through is what it owes, in terms of the old rows and the three requests alone; a peer's last toggle is the one requested last for its user |
| `MassOperations.EveryCallHasItsRow` | app/services/user_operations.py:107-141 | in every interleaving with distinct new ids, removed rows are gone and each addition that succeeded has its row, with the request's fields and the returned client id |
| `MassOperations.SettleUsers` | app/services/user_operations.py:152-158 | the final loops remove deleted users with all their connections, whatever the tasks left behind |
| `MassOperations.PerformDeleteUser` | app/services/user_operations.py:16-54 | the user and all the user's rows go whatever the servers do; on each existing server the user's peers there are removed in order, all of them or as many as it does before it fails, and none elsewhere |
| `RemnawaveSync.FetchAll` | app/services/remnawave_sync.py:32-58 | the page loop against any sequence of answers: an error status, an empty page or a reached total ends it, and the pages received so far are joined |
| `RemnawaveSync.FetchIsCompleteIff` | app/services/remnawave_sync.py:44-58 | a fetch that ends with a list has the whole remote list if and only if, as long as users are missing, no page is empty and no reported total is already reached |
| `RemnawaveSync.MissingTotalCutsTheList` | app/services/remnawave_sync.py:47-56 | an answer without a total, which counts as 0, ends the fetch after one page: a served list that is cut at any length |
| `RemnawaveSync.CollectDeletions` | app/services/remnawave_sync.py:60-67 | exactly the linked users whose uuid was not fetched |
| `RemnawaveSync.MatchUsers` | app/services/remnawave_sync.py:73-132 | every remote user gets an account by uuid, else by name, else a new one, with the details that the remote user has; only identity columns change; the collected toggles are exactly the corrections still needed, and one connection named after the remote user is requested for each account created, if the settings name a server, and for nobody else |
| `RemnawaveSync.WhoDistinct` | app/services/remnawave_sync.py:78-132 | no local account is matched twice |
| `RemnawaveSync.SyncUsers` | app/services/remnawave_sync.py:60-141 | a sync ends with a one-to-one correspondence between fetched uuids and linked users, each with the remote name and details and enabled exactly when ACTIVE; exactly the users whose uuid vanished are gone; unrelated rows and surviving users' connections are untouched; without newcomers every remote user keeps the account that held its uuid. Servers see no calls but removals of vanished users' peers, then toggles of peers whose user had another status and the first connections of new users; a server where nothing raises sees all of them |
| `RemnawaveSync.UnfetchedAreDeleted` | app/services/remnawave_sync.py:62-71 | after a sync with the first n users of the remote list, the linked account of every later one is gone |
| `RemnawaveSync.FetchAndSync` | app/services/remnawave_sync.py:32-141 | fetching and synchronizing together: a failed fetch changes nothing; an honest service ends with exactly the remote list mirrored; when every remote user has an account, no account is lost if and only if the service was honest |
| `RemnawaveSync.KnownUsersKeepTheirs` | app/services/remnawave_sync.py:78-81 | lookup by uuid first: when every fetched uuid is held locally, each remote user is given its own account, however names were exchanged |
| `RemnawaveSync.NewcomerTakesTheName` | app/services/remnawave_sync.py:79-100 | a remote user unknown by uuid takes over the only account of its name, even one linked to somebody else |
| `ConfigText.CutIsExact` | app/managers/awg_manager.py:1651-1661 | splitting the text on "[" and dropping the parts that contain a key is printing the configuration without the sections that mention it |
| `ConfigText.BodyMentions` | app/managers/awg_manager.py:1651-1656 | a section's text contains a 44-character key exactly when one of its values does |
| `ConfigText.CutSectionsLoop` | app/managers/awg_manager.py:1592-1602 | the filter loop computes the cut |
| `ConfigText.AppendIsExact` | app/managers/awg_manager.py:1089-1098 | appending peer text to the stripped file prints the old sections followed by the new ones |
| `ServerConfig.ParamsReadBack` | app/managers/awg_manager.py:817-853 | reading parameters from a printed configuration with any peers gives exactly the values the installer printed |
| `ServerConfig.PeersReadBack` | app/managers/awg_manager.py:906-924 | parsing the printed configuration gives each peer's key with its address |
| `ServerConfig.UsedIpsReadBack` | app/managers/awg_manager.py:855-869 | the addresses found in the text are the gateway and exactly the peers' addresses |
| `ServerConfig.FirstFree` | app/managers/awg_manager.py:871-904 | the least host address that is neither used nor the gateway, or none when all 254 are taken |
| `PeerStore.AllocateIsFresh` | app/managers/awg_manager.py:1394-1440 | the addresses of one trial provisioning are hosts, unused, and different from each other |
| `PeerStore.AllocatesIff` | app/managers/awg_manager.py:1404-1418 | a trial finds its addresses if and only if there are that many free hosts |
| `PeerStore.StepKeeps` | app/managers/awg_manager.py:1088-1186 | add, trial, enable, disable and remove each keep: a client is enabled exactly when its key is a peer, peers are known clients, addresses lie in the host range and are never the gateway |
| `PeerStore.EnableAddresses` | app/managers/awg_manager.py:1548-1590 | a re-enable keeps addresses distinct if and only if the stored address is unused at that moment |
| `PeerStore.RunKeeps` | app/managers/awg_manager.py:1394-1513 | over every run of the five operations the two copies agree |
| `AddressReuse.AddressesStayApartIff` | app/managers/awg_manager.py:1548-1590 | over every run, addresses are pairwise distinct all along if and only if each re-enable finds its stored address unused |
| `AddressReuse.ReusedAddressCollides` | app/managers/awg_manager.py:871-904 | on every server with a free address, adding a, disabling a, adding b and enabling a gives two peers one address |
| `AwgManager.CutRefines` | app/managers/awg_manager.py:1651-1661 | cutting a key out of the text removes exactly that peer; the Interface section always survives |
| `AwgManager.CutReadsBack` | app/managers/awg_manager.py:1592-1602 | re-parsing the cut text gives the old peer map minus that key, and the same parameters |
| `AwgManager.AwgServer.Install` | app/managers/awg_manager.py:634-658 | the installer's joined lines are the printed configuration, and an installed server satisfies everything the operations rely on |
| `AwgManager.InstallPrints` | app/managers/awg_manager.py:638-658 | the installer's text is exactly the printed Interface section |
| `AwgManager.InstalledParametersStay` | app/managers/awg_manager.py:817-853 | parsing parameters after any run of operations gives what parsing the installer's own text gives: the installed values |
| `AwgManager.RunReadsBack` | app/managers/awg_manager.py:855-924 | after any run, the three readers find in the text the installed parameters, exactly the current peers, and exactly the addresses in use |
| `AwgManager.AwgServer.AddClient` | app/managers/awg_manager.py:1042-1186 | the written text and table are those of the abstract step; the new address was unused, and there is one exactly when a host is free |
| `AwgManager.AwgServer.ProvisionTrial` | app/managers/awg_manager.py:1394-1513 | one peer per profile with distinct fresh addresses if there are enough free hosts, and otherwise nothing is written |
| `AwgManager.AwgServer.EnableClient` | app/managers/awg_manager.py:1548-1627 | re-enabling appends the stored peer and marks the row |
| `AwgManager.AwgServer.DisableClient` | app/managers/awg_manager.py:1548-1627 | disabling cuts the peer's section and marks the row |
| `AwgManager.AwgServer.RemoveClient` | app/managers/awg_manager.py:1629-1687 | removing cuts the peer's section and drops the row |
| `AwgManager.AwgServer.ReadBack` | app/managers/awg_manager.py:906-924 | after any operations, re-parsing the file gives exactly the current peers, addresses in use and parameters |
| `TrafficControl.PeerToClassId` | app/managers/awg_tc.py:47-66 | peer classes lie between 101 and 353, so they never meet the pool or default class |
| `AddressClasses.ClassOfHost` | app/managers/awg_tc.py:47-66 | host n of the allocator's subnet has class n + 100 up to 253, and the last host has none |
| `AddressClasses.LastHostIsNeverLimited` | app/managers/awg_tc.py:59-65 | a client at the last host, which the allocator hands out, is never limited |
| `FilterListing.FlowNeedleIsExact` | app/managers/awg_tc.py:469-470 | whatever the layout, as long as the word "flowid" occurs once, and for all classes: the text "flowid 1:N" occurs in an entry exactly when the decimal text of its class begins with that of N |
| `FilterListing.ThreeDigitsMention` | app/managers/awg_tc.py:469-470 | among classes of three digits, as peers' classes are, that is equality |
| `FilterListing.PiecesAreEntries` | app/managers/awg_tc.py:465 | splitting the output with the look-ahead gives exactly its entries |
| `FilterListing.HandleIsFound` | app/managers/awg_tc.py:472-474 | the regular expression finds an entry's own handle |
| `FilterListing.FindHandles` | app/managers/awg_tc.py:455-476 | the loop over the pieces |
| `FilterListing.LookupIsExact` | app/managers/awg_tc.py:455-476 | on every readable output the lookup returns exactly the handles of the filters whose class begins with the number |
| `TrafficControl.FindFilterHandles` | app/managers/awg_tc.py:437-476 | for any device: printing its filters and looking a number up in that text gives exactly the filters whose class begins with it |
| `TrafficControl.RemoveSpeedLimit` | app/managers/awg_tc.py:497-552 | on any device: the filters that the lookup finds and then the class go, on both interfaces |
| `TrafficControl.ApplySpeedLimit` | app/managers/awg_tc.py:328-434 | infrastructure is set up if missing, the old limit goes, the new class and filter are added on both interfaces |
| `TrafficControl.SetGlobalLimit` | app/managers/awg_tc.py:555-625 | the pool classes take the new rates, the default classes may use all of them, every other class and all filters stay |
| `TrafficControl.BuildBatchScript` | app/managers/awg_tc.py:628-773 | the two scripts, command by command, with the missing direction filled from the other |
| `TrafficControl.ReapplyAllLimits` | app/managers/awg_tc.py:776-852 | the rebuilt state is that of running both scripts |
| `Shaping.OthersUntouched` | app/managers/awg_tc.py:377-420 | applying or removing a limit leaves every other class, and every filter that the lookup does not take for the class's own, as it was |
| `Shaping.ForeignFilterGoesIff` | app/managers/awg_tc.py:518-549 | a filter of another class goes with a peer's limit if and only if its class number begins with the peer's; never one of three digits |
| `Shaping.ForeignFilterExample` | app/managers/awg_tc.py:469-470 | class 1010 is taken for class 101 |
| `Shaping.RunShapes` | app/managers/awg_tc.py:328-434 | over every run of apply, remove, pool changes and rebuilds, whether each device was shaped or bare at first, each limited peer owns exactly one class and one filter per interface, with the planned rates, and nothing else exists beside pool and default; wherever uploads are shaped, ifb0 is up and what awg0 receives is redirected to it |
| `Shaping.InfraIsFresh` | app/managers/awg_tc.py:658-711 | the infrastructure script gives the same fresh devices from any prior state |
| `Shaping.BatchEqualsIncremental` | app/managers/awg_tc.py:628-773 | from any prior state the batch rebuild has the same classes, rates and filters as fresh infrastructure followed by one apply per limited client, if and only if no two limited clients share a class |
| `Shaping.RebuildGivesRates` | app/managers/awg_tc.py:735-773 | from any prior state and for every table: each client with an address of a class and a limit has its filter on both devices, and the first client of a class gives it rate and ceiling, on awg0 its download limit or else its upload limit, on ifb0 its upload limit or else its download limit |
| `Shaping.RebuildGivesPools` | app/managers/awg_tc.py:660-732 | after every rebuild pool and default class have the global rates, 10 Gbit where none is set, and every other class is asked for by a client |
| `AddressClasses.BatchIsRightIff` | app/managers/awg_tc.py:628-773 | for clients at the allocator's addresses, the batch rebuild equals single applies if and only if no two limited clients have one address |
| `TrafficPolling.CollectUpdates` | app/services/background_orchestrator.py:68-123 | every connection that a reachable server reports gets exactly one update, made from that report; failures of servers or queries drop only what they would have reported |
| `Accounting.Baseline` | app/services/background_orchestrator.py:112-120 | a row from before directions were kept apart splits its count into halves that add up to it |
| `Accounting.ChargedIsTransferred` | app/services/background_orchestrator.py:110-123 | over every run of transfers, counter restarts and polls, charged bytes never exceed transferred bytes, in either direction |
| `Accounting.ChargedIsExact` | app/services/background_orchestrator.py:110-123 | without a restart, charged and not yet polled bytes are exactly the transferred bytes |
| `Accounting.RestartIsCharged` | app/services/background_orchestrator.py:121-123 | after a restart, fewer bytes than the last reading are charged in full by the next poll |
| `Accounting.ChargedIsExactIff` | app/services/background_orchestrator.py:110-123 | over every run, charged and not yet polled bytes are the transferred bytes if and only if every restart found nothing unpolled and no counter that had fallen behind its last reading overtook it before a poll |
| `Accounting.BilledAgain` | app/services/background_orchestrator.py:231-297 | resetting before every update equals resetting once before the first; after that the reset never fires again in the cycle |
| `Accounting.ShareIgnoresOrder` | app/services/background_orchestrator.py:209-228 | a user's share of the updates does not depend on their order |
| `Leaderboard.Board.SaveSnapshot` | app/core/database.py:640-679 | existing rows are never changed, every ranked user has a row, a new row holds the first ranked user of its name, and the count is the number of inserted rows |
| `Leaderboard.BestOfNameIsKept` | app/core/database.py:596-638 | of users sharing a name the one with the largest total is saved; a user with a unique name is saved with its own counters |
| `TrafficCycle.SaveBeforeRollover` | app/services/background_orchestrator.py:137-161 | a snapshot under the month of a stale stamp, taken from the counters before zeroing, or none when no stamp is stale |
| `TrafficCycle.RollOver` | app/services/background_orchestrator.py:163-207 | every missing or stale stamp is renewed with zeroed counters, in table and cache alike |
| `TrafficCycle.ChargeUser` | app/services/background_orchestrator.py:229-310 | one update's effect on the user row, with the cache equal to the table after every write |
| `TrafficCycle.ApplyUpdates` | app/services/background_orchestrator.py:209-310 | every user is reset at most once, before the cycle's bytes, and then charged the whole share; exactly the enabled, limited users with an update whose final usage reaches the limit are queued |
| `TrafficCycle.QueueExpired` | app/services/background_orchestrator.py:312-314 | exactly the enabled expired users are added, nobody twice |
| `TrafficCycle.SyncTraffic` | app/services/background_orchestrator.py:132-318 | the whole cycle: rollover, billing and disabling give the stated row for every user, connections take their updates, and the snapshot precedes the zeroing; servers are called only to switch off peers of users whom the cycle disabled, and one where nothing raises switches all of them off |
| `QuotaRun.CycleFromDates` | app/services/background_orchestrator.py:229-310 | from dates and numbers alone: a charged user's counter restarts at the share when the date is later (daily), ISO week or year differ (weekly), month or year differ (monthly) and the last reset is readable, else it grows by the share; the user stays enabled unless charged up to a positive limit or past the expiry |
| `QuotaRun.QuotaCountsThePeriod` | app/services/background_orchestrator.py:231-271 | over every run of cycles with a clock that does not go back, the counter, which is only ever compared with the last reset, holds the bytes of the current day, week or month |
| `QuotaRun.NoResetCountsAll` | app/services/background_orchestrator.py:233-251 | without a strategy, or with an empty or unreadable stamp, the counter holds all bytes ever charged |
| `QuotaRun.SwitchedOffIff` | app/services/background_orchestrator.py:34-55 | a user is disabled by a run of cycles if and only if some cycle charged the user up to a positive limit or came after the expiry |
| `QuotaRun.RunEnforcesQuotas` | app/services/background_orchestrator.py:132-318 | both for every user of the table over every run of whole cycles |
| `TrafficCycle.CycleIgnoresOrder` | app/services/background_orchestrator.py:209-310 | any reordering of the updates ends in the same user table |
| `TrafficCycle.CycleKeepsBooks` | app/services/background_orchestrator.py:266-289 | total = rx + tx, monthly <= total and used <= total survive every cycle |
| `TrafficCycle.CycleConserves` | app/services/background_orchestrator.py:211-297 | each user's totals rise by exactly the growth of the user's own connections |
| `TrafficCycle.EachTakesItsOwn` | app/services/background_orchestrator.py:211-227 | each connection row takes exactly its own update |
| `NetworkRun.UsersPayForWhatMoved` | app/services/background_orchestrator.py:76-297 | over every run in which connections and users come and go, bytes flow, counters restart, and single reads and cycles interleave with all of it: a user's totals rise by at most the bytes that went through all connections the user ever had, and by exactly those if and only if no event lost bytes of theirs and nothing is left to read or settle. A restart right after a settled read loses nothing as long as the counter stays behind that reading until it is read again |
| `NetworkRun.ReadAndSettled` | app/services/background_orchestrator.py:104-228 | reading a connection and settling charges what its counter shows beyond the row, and leaves nothing waiting |
| `MonthlyRun.RunIsTrue` | app/services/background_orchestrator.py:137-207 | over every run of cycles, additions, deletions and edits with months that never go back: every monthly counter is the bytes charged in the month of the latest cycle, and every snapshot row the bytes charged in the month it is filed under |
| `MonthlyRun.StampsAgree` | app/services/background_orchestrator.py:163-201 | at every point of every run all readable stamps name the same month |
| `MonthlyRun.SnapshotsStay` | app/core/database.py:658-679 | a snapshot row, once saved, is never changed or removed |
| `MonthlyRun.RolloverSavesEveryone` | app/services/background_orchestrator.py:137-161 | the first cycle of a month saves, under the month that ended, every enabled user who had traffic in it |
| `SlidingWindow.AdmitKeepsLimit` | app/services/background_supervisor.py:91-98 | an event admitted with fewer than the bound before it keeps every window within the bound |
| `SlidingWindow.PruningIsHarmless` | app/services/background_supervisor.py:94-97 | pruning loses no event that a later check still counts |
| `SelfService.EffectiveLimits` | amnezia-web-ui-go/internal/handlers/connections.go:15-38 | the user's own limit if positive, else the stored one if positive, else the default; never zero or negative |
| `SelfService.FoldIgnoresCase` | amnezia-web-ui-go/internal/handlers/connections.go:449-457 | two names count as equal exactly when they differ in the case of letters only |
| `SelfService.EveryInterleavingExcludes` | amnezia-web-ui-go/internal/handlers/handlers.go:61-77 | in every run two requests that hold the mutex of the same user are one request, whatever the interleaving in the lock table |
| `SelfService.EveryInterleavingKeepsLimits` | amnezia-web-ui-go/internal/handlers/connections.go:131-232 | in every interleaving of adds, deletes, renames and early returns no user exceeds the effective maximum, and no window of rateWindow seconds holds more than rateCount logged creations |
| `SelfService.EveryCreationIsLogged` | amnezia-web-ui-go/internal/database/connections.go:424-435 | in every interleaving the log holds every creation of a user, no earlier than it happened and but for one between its two writes, and no window of rateWindow seconds holds more than rateCount of the creations themselves |
| `SelfService.IdlePanelIsOk` | amnezia-web-ui-go/internal/handlers/handlers.go:61-68 | a panel without requests, whose users are within their limits, is where such runs start |
| `SelfService.IdlePanelIsRecorded` | amnezia-web-ui-go/internal/database/connections.go:424-464 | an idle panel whose log is the history of its creations is where runs with complete logs start |
| `SelfServiceOutcome.RecentIsCount` | amnezia-web-ui-go/internal/database/connections.go:437-464 | the rate query is the number of the user's log entries from the cutoff on |
| `SelfServiceOutcome.LoneAddEnds` | amnezia-web-ui-go/internal/handlers/connections.go:131-232 | an add that nobody gets in the way of comes to its end and gives the mutex back: the connection is stored and logged if and only if the user has fewer rows than the maximum, fewer logged creations in the window than the rate allows, and no row of that name up to case; else nothing changes |
| `SelfServiceOutcome.LoneDeleteEnds` | amnezia-web-ui-go/internal/handlers/connections.go:415-447 | a delete removes the connection if and only if it is the user's own |
| `SelfServiceOutcome.LoneRenameEnds` | amnezia-web-ui-go/internal/handlers/connections.go:355-413 | a rename writes the name if and only if the connection is the user's own and no other row of the user has that name up to case |
| `SelfServiceNames.EveryInterleavingKeepsNames` | amnezia-web-ui-go/internal/handlers/connections.go:131-232 | in every interleaving of adds and deletes a user's connection names stay distinct ignoring case |
| `SelfServiceNames.NamesStayDistinctIff` | amnezia-web-ui-go/internal/handlers/connections.go:355-457 | in every run of adds, deletes and renames names are distinct all along if and only if every store and every rename write finds its name absent from the user's other rows at that moment |
| `SelfServiceNames.RenameKeepsNamesIff` | amnezia-web-ui-go/internal/handlers/connections.go:379-401 | one rename's write keeps names distinct if and only if the name it compared earlier is still free |
| `SelfServiceNames.UnlockedRenamesCollide` | amnezia-web-ui-go/internal/handlers/connections.go:355-413 | whenever a user has two connections, two interleaved renames can give both the same name |
| `SelfServiceNames.AddAndRenameCollide` | amnezia-web-ui-go/internal/handlers/connections.go:151-232 | with or without the user's mutex in the lock table, an add that was cleared for a name can store it after a rename has written the same name, although the rename found it free |
| `Supervisor.BackgroundSupervisor.IsHealthy` | app/services/background_supervisor.py:85-89 | healthy exactly when a restart would be admitted at that instant |
| `Supervisor.BackgroundSupervisor.ShouldRestart` | app/services/background_supervisor.py:91-98 | the decision is the health report of the same instant; only timestamps outside the window are pruned |
| `Supervisor.BackgroundSupervisor.OnCrash` | app/services/background_supervisor.py:114-140 | the crash handler's whole effect, including pruning when no restart is granted |
| `Supervisor.BackgroundSupervisor.RestartAfterDelay` | app/services/background_supervisor.py:142-151 | after the delay the supervising task is scheduled again, unless a stop came first |
| `Supervisor.BackgroundSupervisor.Stop` | app/services/background_supervisor.py:38-49 | the flag is set and a sleeping restart is cancelled |
| `Supervisor.AdmitsByHistory` | app/services/background_supervisor.py:85-98 | the decision on the pruned list is the one the full history of restarts would give |
| `Supervisor.CrashRestartsIff` | app/services/background_supervisor.py:114-140 | a crash is restarted if and only if the full history allows it, and a granted restart schedules the supervising task again unless a stop came first |
| `Supervisor.RestartsAreLimited` | app/services/background_supervisor.py:91-133 | in every run no half-open interval of length restart_window holds more than max_restarts restarts |
| `Supervisor.FreshStartIsWithinLimit` | app/services/background_supervisor.py:23-36 | a new supervisor is where such runs start |
| `Supervisor.AfterStop` | app/services/background_supervisor.py:38-71 | after a stop began no restart is granted and the orchestrator is started at most once more |
| `Supervisor.StopIsFinalIff` | app/services/background_supervisor.py:100-151 | nothing is started after a stop in any continuation if and only if no supervising task was scheduled and waiting to run |
| `Supervisor.StopBeforeFirstRun` | app/services/background_supervisor.py:33-49 | a stop right after the start, before the supervising task ran: the orchestrator is started after the stop |
| `ClientHello.WrappedLeavesRest` | app/managers/awg_cps.py:112-113 | a length of more than 65535 is masked, and the block then no longer fills its field |
| `ClientHello.ClientHelloDecodesIff` | app/managers/awg_cps.py:244-327 | for every domain, wrapped lengths included: an independent decoder that checks every nested length accepts the packet, consumes all of it and reads the domain as its only server name, if and only if the domain has at most 16157 bytes |
| `Blobs.BlobReadsBack` | app/managers/awg_cps.py:333-335 | parsing a printed blob gives its bytes, for every byte string |
| `Blobs.BlobsDiffer` | app/managers/awg_cps.py:333-335 | different byte strings print differently |
| `Blobs.RandomBlobReads` | app/managers/awg_health.py:117-142 | a random tag as printed replaces exactly the first bytes and keeps the length and all that follows |
| `Blobs.SignedBlobReads` | app/managers/awg_health.py:122-138 | the same for a count with a sign: a negative count, like one beyond the length, replaces nothing |
| `Blobs.EverySpellingReads` | app/managers/awg_health.py:132-135 | digits in capitals or not, with any white space between bytes, read as the same bytes |
| `Blobs.OnlyHexReads` | app/managers/awg_health.py:134-140 | a text with any other character is refused |
| `DnsQuery.GenDns` | app/managers/awg_cps.py:186-204 | the loop builds the query for the domain's labels |
| `DnsQuery.QueryDecodesIff` | app/managers/awg_cps.py:186-204 | an independent decoder, with the limit of 255 octets on names, reads the domain's labels, type, class and EDNS fields if and only if every label has 1 to 63 bytes and the domain at most 253; the labels have no dots and, joined with dots, are the domain |
| `DnsQuery.SentQueryDecodes` | app/managers/awg_cps.py:428-439 | printed, parsed and sent with a fresh transaction id, the query still asks for the same labels |
| `QuicInitial.InitialDecodes` | app/managers/awg_cps.py:134-168 | every generated Initial has 216 bytes and decodes to exactly the drawn parts, its length field covering the remainder |
| `ConnectionKit.RewriteLines` | app/managers/awg_cps.py:528-560 | the flag-driven loop is: drop the Interface sections' packet lines, then insert the new ones once |
| `ConnectionKit.KeptIsChosen` | app/managers/awg_cps.py:550-556 | exactly the I1-I5 lines of Interface sections are dropped, all others are kept in order |
| `ConnectionKit.InsertedAtEnd` | app/managers/awg_cps.py:535-560 | the packets stand together, once, where the first Interface section ends |
| `ConnectionKit.NothingToInsert` | app/managers/awg_cps.py:528-558 | without an Interface section every line is kept and nothing is added |
| `ConnectionKit.RewriteConfig` | app/managers/awg_cps.py:520-562 | the whole text of one profile: lines split, packets numbered, lines rewritten and joined |
| `ConnectionKit.SecondConfigWins` | app/managers/awg_cps.py:520-562 | for whole texts, rewriting for one profile and then another equals rewriting for the other alone |
| `ConnectionKit.BlobsAreOneLine` | app/managers/awg_cps.py:415-465 | generated packets are single lines, so they fit the rewriter |
| `Startup.MigrateServer` | app/core/config.py:120-145 | an existing "awg" entry wins, else the first legacy entry; other keys keep their values; a write is due exactly when a legacy key was there |
| `Startup.MigrationIsIdempotent` | app/core/config.py:113-173 | a second migration changes neither servers nor connections |
| `Startup.KeysAreNormalized` | app/core/config.py:127-141 | after the migration a server's keys are exactly its old keys, normalized |
| `Startup.Panel.MigrateNames` | app/core/config.py:113-173 | all servers migrated and every connection's protocol normalized |
| `Startup.Panel.DropOrphans` | app/services/startup_reconciliation.py:30-49 | of a server's connections exactly those over its own protocols remain |
| `Startup.Panel.DropStale` | app/services/startup_reconciliation.py:51-99 | a protocol and its connections go exactly when its check said absent; unreachable servers and failing checks change nothing |
| `Startup.Panel.StartUp` | app/main.py:45-51 | migration and both phases together: a connection survives exactly when its normalized protocol is a normalized key of its server and was not found absent |

## Left out

- SSH, Docker, HTTP handlers, templates, authentication, cryptography and the Noise handshake.
- SQLite itself: tables are maps, a query for one of several matching rows may return any of them, row ids are never issued twice, and a failing statement is an aborted job.
- The kernel: `TrafficControl.ExecOn` states what the code relies on from tc commands, among it that a class with rate 0 is refused; duplicate ingress redirect filters and the shell text around the commands are not modelled.
- The global cap after toggles and removals, which rebuild without it, and the zero that add_client passes for a missing direction.
- Concurrent managers editing one server: each peer-store operation is atomic.
- Client ids that are not 44-character keys, or that equal the server's private key or preshared key, and parameter values padded with zeros to the length of a key.
- int() is modelled on ASCII digits with an optional sign; digits of other scripts and underscores are not.
- RemnawaveSync.SyncUsers: with newcomers, keeping its uuid is promised to an account only when no other remote user carries its present name; which account a newcomer takes among several of one name is left open, as the query leaves it.
- Accounting.ChargedIsTransferred: readings are genuine; a missing reading counts as 0 and looks like a restart, as in the code.
- Weekly resets happening once per ISO week: the calendar-year test fires at year boundaries, so it is not claimed.
- A NULL traffic limit, which makes the comparison raise, and the tie order of the leaderboard by lower-case name.
- MonthlyRun.RunIsTrue: runs start from a panel that has counted nothing, so stamps are empty or readable; an unreadable stamp, which the rollover skips, is covered by TrafficCycle.RollOver only.
- SelfService.EveryInterleavingKeepsLimits: limits are fixed during a run, database reads and writes succeed, and administrators add no connections; names are folded over ASCII letters only.
- Supervisor.RestartsAreLimited: clock readings are whole ticks instead of floating-point seconds.
- A domain of 4 GiB, for which packing the handshake length raises.
- generate_connection_kit's four profiles share one rewriter; SIP and short-header packets are not decoded, and domain probing is not modelled.
- The Go packages for VPN load balancing, managers and services, backups, the Xray and MTProxy managers, and the Python self-service limit, which its own log pruning weakens.
