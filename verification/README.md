# Command Center: a verified model of the hub and its agents

Command Center is a hub (a web portal with a database) and one agent per site. The hub holds projects,
devices, actions and automations; each agent joins a private network, relays TCP/UDP forwards to the
equipment of its site (its sub-devices), reports heartbeats and runs commands. These Dafny files model the
logic the two share and prove what it keeps.

| file | what it models |
|---|---|
| `Links`, `Convergence`, `Worst`, `Access`, `DeviceConfig` | the device configuration says twice that a sub-device is reachable (its own `expose`/`listen`, and a forward marked with its name); `normalize`, `linkForwards`, `buildForwards` and `forAgent` keep the two in step. `DeviceConfig` is the object they update in place, the others are its meaning: one-to-one marks, how many loads reach a fixpoint, the round trip through a save, the migration of old data |
| `Linking`, `Defaults`, `Ports` | the same operations said of what is given: which forward exposes a sub-device, what is filled in and what is kept, and which addresses, ports and protocols the texts stand for |
| `Saving`, `Submitted` | what the portal accepts as a configuration, what an agent accepts from the hub, exactly when the first implies the second, and what becomes of the forwards that were submitted |
| `Replica` | versions of the configuration between hub and agent, with saves at any moment and reloads that fail |
| `Enrollment`, `Handoff`, `Stranding`, `Standing` | enrolment, approval, tokens and the one-time network key, with agents that stop anywhere, lost answers, lost writes and resets, and exactly which of these strand an agent; the standing of a device and what its agent is told of it |
| `Queue`, `Service`, `Delivery` | the command queue served by heartbeats; the same queue behind tokens and approval: who is served, and who no longer is; and who fetches which configuration |
| `Presence` | the online/offline and sub-device transitions decided by heartbeats and the offline watcher |
| `Scheduler` | the cron jobs kept live for the automations of every project |
| `Templates`, `Requests`, `Flags`, `Catalogue`, `Lookups`, `Slugs` | `{{ key }}` substitution in actions and the requests it gives, the flag that an action needs a slider value, the catalogue of variables and what is read from it, and the slugs its keys are made of |
| `Subnet` | the enumeration of an IPv4 subnet |
| `Common`, `Decimals` | options, results, trimming and lower-casing; decimal numbers and what they read back as |

Code that updates state is a class or a method with loops, proved against functions on values; the theorems
are lemmas about those functions, or about all runs of a state machine made of them. A handler of the hub is
one atomic step. Where a promised property does not hold of the code, the code is kept and the exact condition
is proved instead:

- loading twice is loading once: `Convergence.IdempotentIff`;
- loading settles: `Worst.SettlesIff` over all forwards, `Worst.SettlesInTime` for one configuration
  (`Worst.DuplicateNamesNeverSettle` is a case a first enrolment can store);
- a load leaves what the portal stored unchanged: `Saving.SaveThenLoad` (`Access.BuildThenLoad` for the rebuilt
  forwards alone);
- migrating old data keeps its routes: `Access.MigrationPreservesRoutes`;
- what the portal accepts the agent accepts: `Saving.AcceptedByAgent`;
- downs and ups of a sub-device alternate: `Presence.AlternatesIff`;
- no agent is stranded without a key: `Stranding.KeepsNoteIff` says which steps never lead there
  (`Handoff.KeyAlwaysAwaits` is about all runs of such steps, `Stranding.ResetStrands` and `Stranding.LostNoteStrands` the two
  that do) and `Stranding.StrandedIff` which hubs;
- the first heartbeat of a device announces it and its failed sub-devices, although the tracker forgets no deleted
  device and the database may give its row number again: `Presence.FirstHeartbeat`, `Presence.FirstHeartbeatOfSub`;
- the slider flag means that a part needs the value: `Flags.FlaggedIff`;
- what a template reads of a device does not depend on its project: `Catalogue.IndependentIff`.

Where a comment of the repository and its code differ, the model follows the code: the network key is said to be
delivered once (hub/dashboard/agentapi.go:107), but it is shown at every poll until it is confirmed, which is what
makes the hand-off survive a stop; a failed connection is said to ask the portal for another key
(agent/cmd/agent/main.go:473), but the agent only starts over; and giving up for want of a key advises to revoke and
approve again (agent/cmd/agent/main.go:461), although a new key alone is enough (`Stranding.RekeyRescues`).

Check everything with `dafny verify dfyconfig.toml` (Dafny 4.11).

## Model

| member | source | states |
|---|---|---|
| Links.LinkFrame | hub/dashboard/models.go:93-123 | a linking pass changes no name, protocol, listen port, target, count or order of the forwards, and nothing of the sub-devices but their exposure; one already exposed stays as it is |
| Links.LinkBijection | hub/dashboard/models.go:66-123 | with distinct names, after `normalize` the marks on forwards and the exposed sub-devices correspond one to one with equal listen ports, and an unexposed sub-device listens nowhere |
| Linking.ExposedIff | hub/dashboard/models.go:66-123 | when no two sub-devices share a name or an address and port, after `normalize` a sub-device is exposed exactly when one of the given forwards carries its name or, without a mark, goes by tcp to its address and port |
| Linking.FirstWins | hub/dashboard/models.go:103-121 | the first such forward carries its name and gives it its listen port |
| Linking.OthersAreFree | hub/dashboard/models.go:108-121 | a forward that is the first for no sub-device is free |
| Defaults.LoadKeeps | hub/dashboard/models.go:66-89 | `normalize` keeps settings, forwards (marks aside) and sub-devices with their names; a missing name becomes the default one with its number; an old processor with an address becomes the only sub-device when there is none, with that address and port and its name or the default; no processor is left |
| Defaults.ProposalIsKept | hub/dashboard/agentapi.go:55-62 | the first enrolment stores the sub-devices and forwards of the proposal under the name of the device, with a heartbeat of fifteen seconds and hourly updates |
| Convergence.Converges | hub/dashboard/models.go:66-123 | when every sub-device with an address is the last of its name (so with distinct names), one more normalization than there are forwards reaches a configuration that every later load gives back unchanged |
| Convergence.SecondPass | hub/dashboard/models.go:93-123 | for any list of forwards a second linking pass agrees with the first exactly when, in the first, no marked tcp forward loses its mark while a free sub-device claims its target and no unmarked one is linked to a sub-device that is not the last of its name |
| Convergence.IdempotentIff | hub/dashboard/models.go:108-114 | `normalize` is idempotent on a configuration exactly under that condition, whatever the names |
| Convergence.UnmarkedConverges | hub/dashboard/models.go:91-92 | on data from before the marks, where every sub-device with an address is the last of its name, one normalization is already a fixpoint |
| Worst.BoundIsTight | hub/dashboard/models.go:103-122 | for every number of forwards some configuration with distinct names still changes at the last pass the bound allows |
| Worst.SettlesIff | hub/dashboard/models.go:93-123 | over the sub-devices of a configuration repeated loads settle for every list of forwards exactly when each sub-device with an address is the last of its name |
| Worst.SettlesInTime | hub/dashboard/models.go:93-123 | any configuration, whatever the names, ever settles exactly when it is settled after one load more than twice its forwards |
| Worst.DuplicateNamesNeverSettle | hub/dashboard/agentapi.go:56-63 | a proposal with two sub-devices of one name, as the hub stores it at the first enrolment, that no number of loads settles |
| DeviceConfigs.DeviceConfig.constructor | hub/dashboard/models.go:30-38 | the object holds the given configuration |
| DeviceConfigs.DeviceConfig.Normalize | hub/dashboard/models.go:66-89 | in place, the configuration becomes its normalized form: the old processor merged, names defaulted, exposures recomputed from the forwards alone |
| DeviceConfigs.DeviceConfig.IndexNames | hub/dashboard/models.go:94-97 | the name table holds the last index of every name and no other |
| DeviceConfigs.DeviceConfig.LinkForwards | hub/dashboard/models.go:93-123 | in place, sub-devices and forwards become the result of the linking pass |
| DeviceConfigs.DeviceConfig.LinkTurn | hub/dashboard/models.go:103-121 | one turn of that loop: a mark is honoured once or dropped, a free tcp forward is linked to the first claimant |
| DeviceConfigs.DeviceConfig.FindClaim | hub/dashboard/models.go:115-121 | the first sub-device, not exposed and with an address, that the target designates |
| DeviceConfigs.DeviceConfig.BuildForwards | hub/dashboard/models.go:127-150 | in place, the accesses of the exposed sub-devices in order, then the free forwards in order; what cannot be rebuilt is closed (what the accesses are is `Ports.AccessesOpen`) |
| DeviceConfigs.DeviceConfig.ForAgent | hub/dashboard/models.go:153-160 | the normalized configuration with the first sub-device repeated as processor |
| Decimals.DigitsRead | hub/dashboard/models.go:143 | the digits written for a number are all digits, read back as it and have no leading zero |
| Decimals.DecimalInjective | hub/dashboard/models.go:116 | different numbers are written differently |
| Ports.TargetIff | hub/dashboard/models.go:116 | two targets are equal exactly when address and port are |
| Ports.ClaimsIff | hub/dashboard/models.go:115-116 | a target of an address and port designates a sub-device exactly when it is free and has both |
| Ports.AccessesOpen | hub/dashboard/models.go:127-143 | the rebuilt accesses: one for each exposed sub-device with an address and a port, in order, by tcp, to its address and the digits of its port, on its listen port or its own, called after it |
| Access.AccessesRelink | hub/dashboard/models.go:127-149 | linking the rebuilt accesses brings back exactly the sub-devices they were built from and leaves every mark |
| Access.BuildThenLoad | hub/dashboard/models.go:81-150 | rebuilding the forwards then loading keeps every sub-device that can be rebuilt exposed on its defaulted port, and changes nothing at all exactly when no free tcp forward targets an unexposed sub-device |
| Access.LinkMovesRoutes | hub/dashboard/models.go:112-121 | linking unmarked forwards moves routes from the free forwards to the sub-devices, none lost and none added |
| Access.MigrationPreservesRoutes | hub/dashboard/models.go:112-149 | on unmarked data, whatever the names, normalizing and rebuilding asks for the same multiset of (protocol, port, target) exactly when every linked sub-device has a positive port and listen port |
| Saving.CheckSubDevices | hub/dashboard/portal.go:588-607 | the first sub-device that fails a check and why, or all trimmed in place |
| Saving.ReadForward | hub/dashboard/portal.go:613-634 | one forward with its protocol put in order, the first check it fails and the port it takes |
| Saving.CheckForwards | hub/dashboard/portal.go:612-637 | the first forward that fails and why (a taken port is reported with who took it), or all put in order in place |
| Saving.SaveDeviceConfig | hub/dashboard/portal.go:576-638 | stores the prepared, rebuilt configuration exactly when every check passes, else answers with the first failing check (what is kept of the submitted forwards is `Submitted.SaveKeepsForwards`) |
| Saving.AcceptedNamesDiffer | hub/dashboard/portal.go:588-607 | what the portal accepts has distinct names |
| Ports.PortKeyIff | hub/dashboard/portal.go:629 | port keys are equal exactly when protocol and port are |
| Ports.ForwardsPassIff | hub/dashboard/portal.go:612-636 | the forwards pass exactly when each has a name, tcp or udp, a port and a colon in its target, and no two share protocol and port |
| Ports.WhyRefused | hub/dashboard/portal.go:618-633 | which reason is given: the protocol, else what is missing, else the port that an earlier forward of the same protocol has |
| Ports.PortTakenBy | hub/dashboard/portal.go:629-632 | a taken port is reported with an earlier forward that has it |
| Ports.AcceptedIff | hub/dashboard/portal.go:588-637 | the portal accepts a configuration exactly when every sub-device has an address and ports and a name of its own and every rebuilt forward passes |
| Submitted.TrimIs | hub/dashboard/portal.go:606 | trimming takes the space off both ends and nothing else |
| Submitted.ProtoIsKept | hub/dashboard/portal.go:613-620 | a forward keeps the protocol it asks for, whatever letter case and space around it; a blank one asks for tcp, and anything but tcp and udp is refused |
| Submitted.FreeInOrder | hub/dashboard/models.go:144-149 | the free forwards are the unmarked ones, all of them, in their order |
| Submitted.SaveKeepsForwards | hub/dashboard/portal.go:608-637 | of an accepted configuration are stored the access of each exposed sub-device and then every forward of no sub-device, in order, as submitted but on the protocol it asks for |
| Submitted.SaveKeepsRoutes | hub/dashboard/portal.go:608-637 | the routes stored are those of the accesses and, with their multiplicities, those that the other forwards ask for |
| Defaults.SaveKeeps | hub/dashboard/portal.go:576-611 | an accepted configuration is stored with the sub-devices it has when loaded, addresses trimmed and exposed ones on the port asked for or their own, and with the settings given or their defaults |
| Saving.SaveThenLoad | hub/dashboard/portal.go:576-640 | of what the save handler stores, protocols put in order, the next load keeps every exposed sub-device as it is, and changes nothing at all exactly when no free tcp forward of it targets an unexposed sub-device |
| Saving.ValidateForwards | agent/internal/config/config.go:189-211 | accepts exactly the lists in which every forward is complete and no protocol and port repeats, else names the first that fails |
| Ports.AgentAcceptsIff | agent/internal/config/config.go:189-211 | the agent accepts exactly the lists in which each rule has a name, tcp or udp, a port and a target that splits, and no two share protocol and port |
| Saving.LoadsKeepForwards | hub/dashboard/models.go:323-331 | any number of loads changes at most the marks of the stored forwards |
| Saving.AcceptedByAgent | hub/dashboard/portal.go:608-637 | what the portal accepted is accepted by the agent, after any number of loads, exactly when every target splits as host and port |
| Saving.BareIPv6IsRefused | hub/dashboard/models.go:143 | a sub-device with a bare IPv6 address: accepted by the portal, refused by the agent |
| Replica.AgentState.constructor | agent/cmd/agent/main.go:389-399 | a new session holds version 0 and no forwards |
| Replica.AgentState.StopForwards | agent/cmd/agent/main.go:595-604 | no forward runs afterwards |
| Replica.AgentState.ReloadConfig | agent/cmd/agent/main.go:566-593 | a refused answer changes nothing, a failed start only stops the forwards, a success replaces version, configuration and rules together |
| Replica.AnswerConfig | hub/dashboard/agentapi.go:146-156 | the version and the twice normalized copy of the newest stored configuration |
| Defaults.SentKeeps | hub/dashboard/models.go:153-160 | what an agent is sent has the settings, sub-devices and forwards that were stored, marks aside, and the first sub-device once more as processor |
| Replica.StaysFaithful | agent/cmd/agent/main.go:517-521 | in every run the agent's version and configuration are a pair the hub stored, its rules are those of that configuration or none, and with none between heartbeats its version is below the hub's |
| Replica.StoppedRetries | agent/cmd/agent/main.go:517-521 | an agent whose reload stopped the forwards and failed is sent back by the next answered heartbeat |
| Replica.ReloadSettles | agent/cmd/agent/main.go:566-593 | one undisturbed reload brings the agent up to date exactly when it accepts the newest rules; otherwise it goes on as before |
| Replica.FailedStartRecovers | agent/cmd/agent/main.go:566-593 | accepted rules that do not start leave nothing running and the version as it was, and the next undisturbed heartbeat brings the agent up to date |
| Replica.SavedIsRun | hub/dashboard/portal.go:639-642 | a configuration the portal accepts is run by an idle agent after one undisturbed heartbeat exactly when its targets split as host and port |
| Submitted.SubmittedIsRun | agent/cmd/agent/main.go:566-593 | what an accepted configuration whose targets split makes an idle agent relay after one undisturbed heartbeat: an access to each exposed sub-device, and every other forward as submitted, on the protocol it asks for |
| Enrollment.Portal.constructor | hub/dashboard/db.go:26-33 | an empty hub is sound |
| Enrollment.Portal.Enroll | hub/dashboard/agentapi.go:29-86 | a token no device has, for a new pending device or a known one that keeps its status (pending if it was turned away) and its key |
| Enrollment.Portal.FromRequest | hub/dashboard/agentapi.go:89-101 | the one device the token belongs to, if any |
| Enrollment.Portal.Status | hub/dashboard/agentapi.go:111-133 | what the holder of the token is told: its status, and the key only to an approved device that did not confirm it |
| Enrollment.Portal.AckKey | hub/dashboard/agentapi.go:136-143 | the key of the token's device is erased, the hub stays sound |
| Enrollment.Portal.Approve | hub/dashboard/agentapi.go:262-278 | approved with a fresh key, or unchanged when the device is unknown or the key cannot be made |
| Enrollment.Portal.TurnAway | hub/dashboard/agentapi.go:291-309 | the device has the status given, no key and its token, and no other device changes (what it is told, and for how long, is `Standing.TurnedAwayIsTold`) |
| Enrollment.Portal.Delete | hub/dashboard/portal.go:100-105 | exactly that device is gone |
| Enrollment.Portal.Rekey | hub/dashboard/portal.go:551-574 | a fresh key for an approved device, else nothing and the reason |
| Standing.TurnedAwayIsTold | hub/dashboard/agentapi.go:111-133 | a device that is revoked or rejected is told that status, without key or address, in every continuation until it enrols again, is approved, is turned away again or is deleted |
| Standing.TurnedAwayKeepsToken | hub/dashboard/portal.go:91-99 | it is told so under the token it had |
| Standing.EnrollingIsTold | hub/dashboard/agentapi.go:64-70 | an enrolment makes a device that was turned away pending, and leaves the status of any other |
| Standing.ApprovedIsTold | hub/dashboard/agentapi.go:111-133 | an approved device is told the address of the network and its new key, and goes on being told that it is approved, with that address, until it is turned away or deleted |
| Standing.TurnedAwayGoesOffline | agent/cmd/agent/main.go:513-525 | an agent that is online leaves the network at the next answer after its device is turned away, and then waits |
| Standing.DeletedStartsOver | agent/cmd/agent/main.go:505-508 | an agent that is online when its device is deleted forgets its token and enrols as a new pending device |
| Handoff.HubStaysSound | hub/dashboard/agentapi.go:64-70 | in every run a key is stored only while its device is approved and unconfirmed, and no two devices share a token or a key |
| Handoff.NeverHandedOutAgain | hub/dashboard/agentapi.go:120-143 | a key that has left its device is never shown again to any device, even after re-enrolment resets the delivered flag |
| Handoff.TurnKeeps | agent/cmd/agent/main.go:420-525 | every step of an agent keeps its memory, its state file and the hub in agreement |
| Handoff.KeyAlwaysAwaits | agent/cmd/agent/main.go:432-483 | with stops, losses and resets anywhere but a reset of an approved device without a key and the loss of the note of a first joining, an approved device whose state file does not say joined holds an undelivered key, and no agent ever gives up for want of one |
| Handoff.HandoffCompletes | agent/cmd/agent/main.go:401-525 | wherever such a run without resets has left an approved device, an agent that restarts and is left alone for seven steps is online, joined on file with the address of the network, its key confirmed |
| Stranding.StrandedIff | agent/cmd/agent/main.go:460-462 | among the runs of such steps, some strands an agent without a key exactly when there is no Headscale server |
| Stranding.ResetStrands | agent/cmd/agent/main.go:319-323 | the reset of any approved device without a key, whatever its agent was doing, leads to the missing key |
| Stranding.RekeyRescues | hub/dashboard/portal.go:546-574 | a new key for such a device is all it takes to come back online |
| Stranding.LostNoteStrands | agent/cmd/agent/main.go:479-483 | wherever a run has brought the agent of a stored device that joins for the first time, losing that note and stopping after the confirmation strands it, if need be after an approval |
| Stranding.FirstJoinIsReached | agent/cmd/agent/main.go:420-478 | with a Headscale server the first hand-off of any site gets to that point |
| Stranding.KeepsNoteIff | agent/cmd/agent/main.go:420-525 | after a run of such steps, a further step never lets an agent be stranded exactly when it is neither the reset of an approved device without a key nor the loss of the note of a first joining while the device is stored |
| Queue.Table.constructor | hub/dashboard/db.go:41-44 | no command yet, so in the order of their numbers |
| Queue.Table.Add | hub/dashboard/models.go:421-429 | in a table ordered by number, a queued command numbered above all stored ones; the table stays ordered |
| Queue.Table.Select | hub/dashboard/agentapi.go:183-193 | the first twenty waiting commands of the device, in order |
| Queue.Table.Heartbeat | hub/dashboard/agentapi.go:181-202 | gives out that batch to an approved device and marks exactly those as sent; the table stays ordered |
| Queue.Table.Report | hub/dashboard/agentapi.go:206-225 | a result settles only the command with that number and device; the table stays ordered |
| Queue.Table.Drop | hub/dashboard/portal.go:102 | the commands of a deleted device, and only they, are gone; the table stays ordered |
| Queue.WaitingIs | hub/dashboard/agentapi.go:183 | exactly the queued commands of the device wait |
| Queue.BatchIsOwn | hub/dashboard/agentapi.go:182-183 | a batch holds at most twenty commands, all waiting for that device, and none unless it is approved |
| Queue.GivenOnceInOrder | hub/dashboard/agentapi.go:182-198 | in every run the numbers given to a device strictly increase over its heartbeats, so no command goes out twice |
| Queue.Drains | hub/dashboard/agentapi.go:182-198 | whatever happens to other devices, k approved heartbeats give out the first k batches of what waited, in order, and leave the rest |
| Queue.DrainedIff | hub/dashboard/agentapi.go:183 | n waiting commands are all out exactly after the heartbeats that n commands in batches of twenty take |
| Queue.CommandEnds | hub/dashboard/agentapi.go:206-225 | in every run a stored command is done or failed as the last result that its own device reported of it says, and waiting or given out when there is none |
| Queue.DoneIff | hub/dashboard/agentapi.go:217-222 | it is done exactly when that result was ok, failed exactly when it was not |
| Service.StaysGood | hub/dashboard/agentapi.go:29-225 | in every run of enrolments, approvals, deletions, confirmations, commands and heartbeats: keys and tokens stay sound, devices keep distinct numbers, the queue stays ordered and nothing is stored under a number no device has |
| Service.OnlyTheApprovedAreServed | hub/dashboard/agentapi.go:159-198 | in every run a device is given something only by a heartbeat with its present token while its row says approved, and then exactly its next batch |
| Service.CommandJoins | hub/dashboard/portal.go:645-669 | a command joins the end of the queue, unsent, exactly when its device is stored and it is sent by hand or the device is approved |
| Service.ResultSettles | hub/dashboard/agentapi.go:206-222 | a result with the token of a device settles the commands of that number for that device, well or badly as it says, and nothing else |
| Service.GivenOnceInOrder | hub/dashboard/agentapi.go:182-198 | in every such run what a device is given strictly increases: no command goes out twice |
| Service.NewDeviceStartsEmpty | hub/dashboard/portal.go:100-105 | a new device that takes the row number of a deleted one inherits none of its commands |
| Service.NothingUntilApproved | hub/dashboard/agentapi.go:67-70 | a device that is not approved is given nothing, whatever anyone does, until it is approved; enrolling again does not help |
| Service.OldTokenIsRefused | hub/dashboard/agentapi.go:89-101 | a token replaced by a new enrolment or deleted with its device never again gets a command, settles a result or confirms a key |
| Delivery.StaysGood | hub/dashboard/agentapi.go:29-156 | in every run of the same steps with saves and fetches, every stored device has a configuration and what was fetched is in order |
| Delivery.FetchedInOrder | hub/dashboard/agentapi.go:146-156 | what the tokens of a device fetched are configurations stored for it, each under its version, never an older one after a newer one |
| Delivery.OnlyTheApprovedFetch | hub/dashboard/agentapi.go:146-156 | in every run a configuration is fetched for a device only with its present token while it is approved, and then its newest one |
| Delivery.NothingUntilApproved | hub/dashboard/agentapi.go:151-154 | a device that is not approved fetches nothing until it is, whatever anyone does |
| Delivery.OldTokenFetchesNothing | hub/dashboard/agentapi.go:89-101 | a token that left its device fetches nothing any more |
| Delivery.FetchIsReplica | agent/cmd/agent/main.go:566-570 | what is fetched is what the agent of that device goes on with in `Replica` |
| Presence.Tracker.constructor | hub/dashboard/main.go:61 | a server starts knowing nothing |
| Presence.Tracker.ReadReports | hub/dashboard/agentapi.go:323-326 | the last report under each name |
| Presence.Tracker.LogChanges | hub/dashboard/agentapi.go:332-339 | each change of a sub-device logged once, whatever the order of the names |
| Presence.Tracker.TrackTransitions | hub/dashboard/agentapi.go:312-341 | a heartbeat section: new state, the passage online if there is one, and the changes of the sub-devices |
| Presence.Tracker.Watch | hub/dashboard/agentapi.go:367-380 | a watcher section: a passage offline only from online, sub-devices remembered |
| Presence.PresenceAlternates | hub/dashboard/agentapi.go:312-383 | over every interleaving the passages online and offline of a device alternate and the last agrees with the tracker |
| Presence.ReportedIs | hub/dashboard/agentapi.go:324-326 | of a sub-device counts the last report under its name |
| Presence.KnownOnlineIff | hub/dashboard/agentapi.go:312-380 | the tracker holds a device for online exactly when a heartbeat, or the watcher at its first look, found it online and the watcher has not found it offline since |
| Presence.AnnouncedIff | hub/dashboard/agentapi.go:327-331 | a heartbeat announces a device exactly when it is not held for online, or was never seen and its row did not count as online; the watcher announces that it went offline exactly when it was held for online |
| Presence.EventsFollowReports | hub/dashboard/agentapi.go:320-340 | the events of a sub-device are a function of its reports alone, across offline periods and other devices |
| Presence.SubDevicesAlternate | hub/dashboard/agentapi.go:332-340 | in every heartbeat reported: down, up, down, ..., ending with down exactly when the last report was unreachable |
| Presence.FirstHeartbeat | hub/dashboard/agentapi.go:322-331 | the first heartbeat under the number of a deleted device announces the new one exactly when the watcher found it offline first, or the tracker held the old one for offline, or it knew neither and the row did not count as online |
| Presence.FirstHeartbeatOfSub | hub/dashboard/agentapi.go:332-340 | of a sub-device that heartbeat announces the change since the last heartbeat of the deleted device: a failed one exactly when that heartbeat did not report its name unreachable |
| Presence.AlternatesIff | hub/dashboard/agentapi.go:332-340 | down and up alternate from down exactly when no failure is dropped by a heartbeat that leaves the sub-device out and then reported again |
| Presence.AbsenceRepeatsDown | hub/dashboard/agentapi.go:332-340 | a concrete run that announces the same failure twice in a row |
| Scheduler.Hub.constructor | hub/dashboard/scheduler.go:23 | a hub that starts has no live job |
| Scheduler.Hub.ListAutomations | hub/dashboard/models.go:402-419 | exactly the automations of the project |
| Scheduler.Hub.Reload | hub/dashboard/scheduler.go:43-77 | the project's cron becomes its enabled automations with a valid expression, in the timezone stored for it when that is known and else in UTC, or nothing for a deleted project; other projects keep theirs |
| Scheduler.Hub.ReloadAll | hub/dashboard/scheduler.go:25-40 | from any sound database, the hub is coherent; with known timezones every cron runs in that of its project |
| Scheduler.Hub.CreateProject | hub/dashboard/portal.go:337-363 | a new project with a fresh slug and a known zone; coherent without a cron |
| Scheduler.Hub.UpdateProject | hub/dashboard/portal.go:372-390 | name and zone replaced if given and known, slug kept; coherent |
| Scheduler.Hub.DeleteProject | hub/dashboard/portal.go:392-407 | exactly its rows are gone and it has no live job; coherent |
| Scheduler.Hub.SaveAction | hub/dashboard/portal.go:719-738 | a complete action is stored in its project; coherent |
| Scheduler.Hub.UpdateAction | hub/dashboard/portal.go:740-759 | an action is replaced but stays in its project; coherent |
| Scheduler.Hub.DeleteAction | hub/dashboard/portal.go:761-771 | refused exactly while an automation runs it; coherent |
| Scheduler.Hub.SaveAutomation | hub/dashboard/portal.go:811-839 | stored exactly when named, valid and running an action of its own project; coherent |
| Scheduler.Hub.UpdateAutomation | hub/dashboard/portal.go:841-859 | replaced under the same conditions, in the project it was in; coherent |
| Scheduler.Hub.DeleteAutomation | hub/dashboard/portal.go:861-868 | gone with its job; an unknown one changes nothing; coherent |
| Scheduler.Hub.RunAutomation | hub/dashboard/scheduler.go:101-107 | a live job of a coherent hub finds its automation enabled and an action of its own project to run |
| Scheduler.LiveIffStored | hub/dashboard/scheduler.go:43-77 | in a coherent hub a job is live exactly when its automation is stored in that project, enabled and valid, on the stored expression |
| Scheduler.LiveZone | hub/dashboard/scheduler.go:49-58 | in a coherent hub a live cron runs in the timezone stored for its project when it is known, and else in UTC |
| Scheduler.LiveInOwnZone | hub/dashboard/scheduler.go:49-58 | with known timezones, which an empty hub has and every step of the portal keeps (`OnTime` in the contracts of `Hub`), each live cron runs in the timezone of its own project |
| Slugs.Slugify | hub/dashboard/db.go:137-153 | the loop computes the slug (the agent has the same loop, agent/internal/config/config.go:214-231) |
| Slugs.SlugIsWords | hub/dashboard/db.go:137-153 | a slug is the maximal runs of letters and digits of the lower-cased text, joined by dashes |
| Slugs.SlugFixpoints | hub/dashboard/db.go:137-153 | slugs are canonical, exactly the canonical strings are their own slug, and slugging twice is slugging once |
| Slugs.VarKeyIsKeyPart | hub/dashboard/variables.go:26 | a variable key has no dot, brace or blank |
| Slugs.VarKeyInjective | hub/dashboard/variables.go:26 | stored slugs with the same variable key are the same |
| Slugs.VarKeyReads | hub/dashboard/variables.go:26 | the variable key of a stored slug is the slug with underscores for dashes and nothing else changed |
| Templates.MatchAtIs | hub/dashboard/variables.go:267 | the scanner finds a placeholder at a position exactly when one is written there |
| Templates.HolesAreOccurrences | hub/dashboard/variables.go:267-283 | the placeholders found are exactly those written in the text |
| Templates.PiecesSpellText | hub/dashboard/variables.go:272-283 | literals and placeholders, one after the other, spell the text |
| Templates.ResolveVars | hub/dashboard/variables.go:272-283 | the text with each known placeholder replaced once, and the unknown keys in order |
| Templates.FillRendersPieces | hub/dashboard/variables.go:272-283 | the result is the pieces rendered one by one: inserted values are not scanned again, unknown placeholders stay byte for byte |
| Templates.MissingIffUnknown | hub/dashboard/variables.go:277-281 | a key is reported exactly when the text mentions it and the catalogue does not hold it |
| Templates.UnknownListsPieces | hub/dashboard/variables.go:275-281 | the missing keys are those of the placeholders of the text without a value, piece by piece |
| Templates.PiecesInOrder | hub/dashboard/variables.go:267-283 | each placeholder ends before the next one starts |
| Templates.OnlyOccurringKeysMatter | hub/dashboard/variables.go:272-283 | catalogues that agree on the mentioned keys give the same result |
| Templates.CompleteIsStable | hub/dashboard/variables.go:272-283 | once nothing is missing, adding keys changes nothing |
| Templates.Dedupe | hub/dashboard/variables.go:335-345 | the first occurrence of each key, in order |
| Templates.FirstsAre | hub/dashboard/variables.go:335-345 | the same keys, each once |
| Templates.FirstsInOrder | hub/dashboard/variables.go:335-345 | the keys come in the order of their first occurrence |
| Templates.ResolveAction | hub/dashboard/variables.go:305-333 | refused with the unknown keys, or for an unusable address, or resolved in every part (exactly when, and with what, is `Requests`) |
| Requests.SentIff | hub/dashboard/variables.go:305-333 | an action is sent exactly when every key mentioned in any part has a value and the rendered address is usable; then address, body and each header are each the rendering of their own part |
| Requests.BadAddressIff | hub/dashboard/variables.go:329-331 | it is refused for its address exactly when nothing is missing and the rendered address, which the refusal carries, is unusable |
| Requests.MissingKeysIff | hub/dashboard/variables.go:326-328 | it is refused for keys exactly when one has no value; the refusal holds exactly those keys, each once, in the order in which address, body and headers name them |
| Requests.SentAsWritten | hub/dashboard/variables.go:305-333 | an action without placeholders and with a usable address is sent exactly as written |
| Requests.PlaceholderResolves | hub/dashboard/variables.go:267-283 | a placeholder for a key with a value becomes that value, and nothing is missing |
| Templates.HasValue | hub/dashboard/variables.go:375-379 | whether a text has a placeholder for the slider value |
| Templates.ActionNeedsValue | hub/dashboard/variables.go:374-388 | true exactly when the address and body joined by a newline, or a header, has one |
| Templates.SliderDoesNotInterfere | hub/dashboard/variables.go:300-333 | when the flag is false, running with or without a value gives the same result |
| Templates.RefusedForWantOfValue | hub/dashboard/variables.go:326-328 | without a value, the action is refused for it exactly when one of its parts has the placeholder |
| Templates.SliderMatters | hub/dashboard/variables.go:300-333 | when the catalogue has no `value`, running with one and without give different outcomes exactly when a part has the placeholder |
| Flags.FlaggedIff | hub/dashboard/variables.go:374-388 | the flag is true exactly when a part has the placeholder, or the end of the address and the start of the body complete one across the added newline |
| Flags.FlagMaySpan | hub/dashboard/variables.go:375 | an action of the second kind: flagged, though no part needs the value |
| Catalogue.AddReadings | hub/dashboard/variables.go:199-211 | the entries of the readings of a sub-device, those without a key left out |
| Catalogue.FindAccess | hub/dashboard/variables.go:186-195 | the access address of the last exposed namesake |
| Catalogue.CountSubs | hub/dashboard/variables.go:153-160 | reachable and unreachable sub-devices |
| Catalogue.AddDevice | hub/dashboard/variables.go:107-213 | the entries of one approved device |
| Catalogue.BuildVariables | hub/dashboard/variables.go:85-225 | the entries of the approved devices in order, then those of the project |
| Catalogue.VarsMap | hub/dashboard/variables.go:259-265 | the last value of each key |
| Catalogue.DevicesAreIsolated | hub/dashboard/variables.go:85-225 | under a device's prefix stand exactly its own entries, in order |
| Catalogue.LookupDependsOnDevice | hub/dashboard/variables.go:85-265 | what a template reads under that prefix is the same in any project that holds that device |
| Catalogue.ProjectSlugIsShadowed | hub/dashboard/variables.go:216 | whatever the devices, `project.name` reads as the name of the project |
| Catalogue.IndependentIff | hub/dashboard/variables.go:85-265 | what is found under the prefix of a stored device is the same in all projects that hold it exactly when its slug is not `project` |
| Catalogue.CatalogueKeysAreDotted | hub/dashboard/variables.go:85-225 | every key contains a dot, so none is `value` |
| Lookups.EveryKeyResolves | hub/dashboard/variables.go:85-283 | for every key of the catalogue the text with its placeholder becomes its value, with nothing missing |
| Lookups.DeviceReadsStanding | hub/dashboard/variables.go:118-121 | what a template reads of an approved device: name, slug, status and whether it is online |
| Lookups.DeviceReadsPlace | hub/dashboard/variables.go:122-124 | its address on the private network and its own network |
| Lookups.DeviceReadsSystem | hub/dashboard/variables.go:125-129 | its system; what it last reported goes before what it enrolled with |
| Lookups.DeviceReadsState | hub/dashboard/variables.go:130-143 | when it was last heard of, its remote desktop and, while it is online, its load |
| Lookups.DeviceReadsCounts | hub/dashboard/variables.go:145-163 | whether a peer that is online is reached through a relay, and how many sub-devices there are, answer and do not |
| Lookups.SubReads | hub/dashboard/variables.go:166-196 | of a sub-device, its last entry in the heartbeat and its access address |
| Lookups.SubReadsTarget | hub/dashboard/variables.go:237-243 | of its target, what stands before and behind the last colon, or all of it and no port |
| Lookups.LastAccess | hub/dashboard/variables.go:186-195 | the access address is that of the last exposed namesake, on the port asked for or its own |
| Lookups.ReadingReads | hub/dashboard/variables.go:199-211 | of a reading, the value, unit and error of the last one with its key |
| Lookups.ProjectReads | hub/dashboard/variables.go:216-218 | of the project, its name, slug and timezone, whatever its devices are called |
| Lookups.ProjectReadsCounts | hub/dashboard/variables.go:219-223 | how many of its devices are online, offline and pending, and how many sub-devices of approved ones do not answer |
| Catalogue.SliderActionIsRefused | hub/dashboard/variables.go:305-328 | whatever the project holds, a run without a value is refused for it exactly when a part has the placeholder |
| Subnet.MaskedIsRounded | agent/internal/scan/scan.go:264 | masking byte by byte rounds the address down to a multiple of the block size |
| Subnet.BlockFits | agent/internal/scan/scan.go:265-269 | the block lies below 2^32: no sum in the loop wraps around |
| Subnet.Hosts | agent/internal/scan/scan.go:259-273 | nothing beyond /30 or IPv6, else 2^(32-ones)-2 addresses counting up from just above the base |
| Subnet.EnumerationIsExact | agent/internal/scan/scan.go:258-273 | exactly the addresses of the network but its base and broadcast address |
| Subnet.IpLess | agent/internal/scan/scan.go:275-286 | numeric order for two addresses, textual order if one does not parse |
| Subnet.Targets | agent/internal/scan/scan.go:102-108 | accepts exactly /22 to /30, with every usable address once in increasing order; else says why |

## Left out

- HTTP, JSON and TOML decoding, SQLite, sessions, passwords and access rights: rows are maps and sequences and a handler is one step; the interleavings inside one handler (such as a rekey that reads the status and writes the key later) are not modelled.
- Headscale, tsnet and RustDesk: Headscale gives a fresh key or fails, a tunnel starts or does not. Withdrawing a node from the private network and its warning are not modelled.
- Library parsing: `net.ParseIP`, `net.SplitHostPort`, `url.Parse`, cron expressions and timezones are function parameters; numbers and durations reach the catalogue already formatted.
- Relaying by the forwards and their listeners: starting a list of rules succeeds for all or fails and leaves none.
- Scanning I/O, ARP, vendor names and name resolution around the enumeration of a subnet, and addresses as text (`Subnet` works on their bytes).
- Self-update, Windows service, tray and local panel, dashboards, the browser code and its own substitution.
- Slice sharing: `forAgent` works on a copy whose slices share their storage with the receiver, and a nil list differs from an empty one in JSON; sequences have neither.
- The agent's cycle is a state machine of its atomic steps rather than one loop, since it may stop between any two; waiting times, backoff and the wait for a project key are not modelled.
- Of the configuration an agent proposes when it first enrols only what is stored of it (`Worst.Proposed`); and the texts and times of a device row.
- Deleting a project as a whole is `Scheduler.Hub.DeleteProject` for its automations; its devices and their commands go as if deleted one by one (`Enrollment.Portal.Delete`, `Queue.Table.Drop`).
- Labels and groups of variables, the text of error messages and log lines, and times (who counts as online is an input of each section).
- Lower-casing beyond the letters that slugs and protocol names can tell apart.
- Templates.ResolveAction: the order in which headers are visited is a parameter that may be any order of them, as Go ranges over a map.
- Linking.ExposedIff: where no two sub-devices share a name or an address and port (the portal refuses a shared name); with a shared address and port, several forwards expose the first, the second and so on in turn, which `Links.LinkFrame` and `Worst.SettlesIff` cover without saying which.
- Lookups.DeviceReadsStanding: like the other readings of a device, for one whose slug is not `project`; the keys of one that is are also those of the project (`Catalogue.IndependentIff`).
- Lookups.SubReads: for the last entry of the heartbeat with its key; an earlier one with the same key shows only where the last one has no entry, as with its readings.
- Queue.GivenOnceInOrder: between two deletions of the device, because a deletion also frees the numbers of its commands.
- Service.GivenOnceInOrder: for the device that has the row now. An action of kind `agent` names its device by row number, here by site; that such a number may pass to another device after a deletion is not modelled for actions.
- Handoff.KeyAlwaysAwaits: one agent per site; two installations that enrol under one slug take each other's place and are not modelled.
- Handoff.HandoffCompletes: in runs without resets; a reset also removes the node of the private network, and a key connects one node only, which is not modelled.
- Presence.PresenceAlternates: within one server lifetime; a restart forgets the tracker. Events are placed in the section that decides them, though the watcher writes its line after leaving it.
