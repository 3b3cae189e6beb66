# A model of clixon-switch's control plane

clixon-switch turns an OpenConfig switch configuration into the state of a Linux bridge over DSA
ports, and keeps mstpd, a DHCP client and an SNMP agent running beside it. This project models the
parts of it that decide something, in Dafny, and proves what they promise.

## What is modelled

* **The kernel and the planner.** `Kernel` and `FakeNet` are the in-memory kernel: links, bridge
  VLAN tables, addresses, and which operations are refused. `Planner` and `PlanLoops` are the
  planner: one round of operations that moves the kernel towards a desired state. `Reconciler` and
  `Convergence` are the loop of at most three rounds. `Devices` shows that a run of operations that
  each touch one device can be told device by device, which carries most of the later proofs.
  `Matching` says what it means that the kernel is as desired, in terms of links, tables and
  addresses and not of operations.
* **mstpd.** `Mstpctl` and `MstpctlLoops` are the command list of a configuration and the commands
  of a change. `Daemon` is mstpd's configuration as those commands see it: plain settings, timers
  checked against each other, spanning trees, and the two tables from VLAN to filtering database to
  tree. `Updates`, `Delta` and `Trees` compare a change with a full configuration.
* **Applying.** `Processes`, `DhcpManager`, `SnmpdManager` and `MstpdManager` are the process
  managers as classes, over children that may exit at any moment. `Hearing` is what mstpd loses when
  the bridge or its ports change, and `Records` when the record of what it was told is right.
  `RoundEffects` is what the operations of a reconciliation do to ports and SVIs, and `Outcomes` what
  a commit makes of mstpd's record and of the DHCP client. `Plugin` applies a configuration with all
  of them, `Commits` any number of configurations, and `Staleness` gives a run that goes wrong.
* **The validator.** `Config` holds the configuration leaves; `Validator`, `Interfaces`,
  `StpValidator` and `Acceptance` decide what is accepted and what it asks for. `Isolation` carries
  an accepted configuration through to the kernel.
* **Numbers and texts.** `VlanRanges` (VLAN ranges and their text), `Base64`, `PortLists` and
  `QBridge` (port numbers, PortLists and the VLAN tables of Q-BRIDGE-MIB), `Calendar` (dates).

`Basics` and `Model` hold common definitions; `Invariant`, `Deletion`, `DeviceRuns`, `Opening`,
`Closing`, `Round`, `Stages`, `Transitions`, `AddressMoves`, `SviTurns`, `TailSpots`, `Reachability`
and `Bystanders` hold the proofs about the planner.

## Results that limit what the code promises

* Reconciliation fails for some valid configurations (`Convergence.ConflictHappens`): lowering the
  default PVID of a bridge drops that PVID from its ports, and the plan of the same round then
  deletes the entry a second time for a port that wants another VLAN. `Convergence.Converges` says
  that it succeeds exactly where no port is in this position.
* A forward delay that changes to 30 seconds while the max age stays is not sent to mstpd
  (`Delta.ForwardDelayOverlooked`), because the same command already ran as the first of the three
  timer commands. `Delta.ChangesSuffice` says that this is the only difference, and exactly when.
* If a commit creates the bridge anew, or a port of it joins or leaves, and then fails before mstpd
  can be told, the record of what mstpd was told is wrong (`Hearing.StaleExactly`). Committing the
  same configuration again, however often, does not right it, unless mstpd is started or stopped, a
  command is refused, or operations of that commit make it send everything (`Commits.RecoversIff`,
  `Commits.WrongUntil`). `Staleness.StaleHappens` gives such a commit: the bridge is gone, is created
  anew, and its MAC address cannot be read; the commit after it has nothing to do and sends nothing.
* Where everything is sent again, trees that are no longer configured are not deleted
  (`Trees.TreeLeftOver`), and later commits do not delete them either (`Commits.StrayStays`).
  `Trees.TreesRight` gives the exact condition.
* The planner means not to pass through a state without an address when the management address moves.
  `Reachability.ReachableIff` says exactly when the bridge, the ports and the VLAN links of the bridge
  have some address, static or leased, after every operation of a round. It fails where the bridge
  that has it is replaced (`AddressMoves.ReplacedLoses`), where it moves to another VLAN and the old
  SVI goes first (`Reachability.StaleLoses`), where it moves to an SVI whose name comes later
  (`Reachability.ForwardLoses`), and where the only lease becomes static (`Reachability.SwapLoses`).
  It holds where an SVI with a static address is renumbered (`Reachability.RenumberStays`).
* If a commit creates the VLAN link of the DHCP client anew, or takes it away, and then fails before
  the client is seen to, later commits leave the client on the link that is gone and succeed, until
  one starts it anew (`Commits.BoundRunIff`, `Staleness.StaleRun`).
* A port whose PVID is the default PVID that reconfiguring the bridge drops has none for a while
  (`Transitions.PvidLost`); every other port of a bridge that stays keeps one (`Transitions.PvidKept`).
* After a timeout `prepare` leaves the mstpd it started on record, and the next `prepare` takes it
  for ready although it never answered (`MstpdManager.UnansweredTwice`).
* A disabled SVI named like a conduit or the loopback link is never settled
  (`Reconciler.NeverSettles`).
* Reconfiguring the bridge in place also removes the default VLAN entry of links in it that are not
  switch ports, which the planner's comment on other links does not mention; `Bystanders.ForeignKept`
  says exactly what becomes of such a link.
* Port numbers are distinct exactly for up to 65535 ports (`PortLists.NumbersBijective`).

## Assumptions

* The states reconciled are well formed (`Invariant.WellFormed`), which the in-memory kernel keeps,
  the bridge's name belongs to no DSA port or conduit, and `lo` and the conduits are plain links or
  VLAN links of the bridge (`Opening.Sound`). The names of SVIs are not taken by other links
  (`Opening.Free`); otherwise planning reports the name (`Matching.PlanFails`). An SVI named like a
  conduit or `lo` is enabled; `Reconciler.NeverSettles` says what becomes of one that is not.
* mstpd is modelled from what the source says about it: it refuses timers that break clause 17.14 of
  IEEE 802.1D and the deletion of a tree that a filtering database is mapped to, and it forgets the
  settings of a bridge that is deleted or new and of ports that join or leave. A refused command
  changes nothing.
* A DHCP client is bound to the link its interface has when it is started.
* Forward delays are at most 30 and MST ids are not 0 (`StpValidator.Ranged`): the YANG model has
  these ranges and the validator does not check them again. `StpValidator.StpSound` says that nothing
  else is missing.
* Start-up polling ends with any outcome; processes, commands and spawning may fail at any time.

## Model

| member | source | states |
|---|---|---|
| `FakeNet.FakeNet.Apply` | crates/switch-net/src/fake.rs:47-221 | Each operation changes the stored maps in place as the step function says, also where it is refused |
| `FakeNet.FakeNet.DeleteInPlace` | crates/switch-net/src/fake.rs:105-130 | Deleting a link takes the links on top of it along and releases the ports of a bridge |
| `FakeNet.FakeNet.ConfigureInPlace` | crates/switch-net/src/fake.rs:64-97 | Reconfiguring drops the default entries and is refused while ports carry VLANs on a bridge without MST |
| `Deletion.FallsExactly` | crates/switch-net/src/fake.rs:105-130 | A deletion removes exactly the links that rest on the deleted one through any chain of VLAN links |
| `Invariant.StepKeeps` | crates/switch-net/src/fake.rs:47-221 | Every accepted operation keeps the kernel state well formed |
| `Invariant.RunKeeps` | crates/switch-net/src/fake.rs:47-221 | So does every accepted run |
| `Devices.RunByDevice` | crates/switch-net/src/fake.rs:131-218 | A run of operations on ports, SVIs and tables is accepted iff each device accepts its own, and leaves each device as its own operations do |
| `PlanLoops.SyncVlans` | crates/switch-net/src/plan.rs:287-313 | The loop emits the missing entries, PVID first, then the deletions |
| `DeviceRuns.RunSync` | crates/switch-net/src/plan.rs:287-313 | Running a sync gives exactly the wanted table, and is refused exactly when an entry to delete is no longer there |
| `DeviceRuns.RunAddrs` | crates/switch-net/src/plan.rs:195-222 | Running the address operations of an SVI gives exactly its static addresses, and keeps leases only for the DHCP client |
| `PlanLoops.PlanInPlace` | crates/switch-net/src/plan.rs:33-259 | The planner's loops compute the plan, or the first SVI name that is taken |
| `Opening.RemainIffRefused` | crates/switch-net/src/plan.rs:264-275 | The planner re-creates a bridge without MST exactly when the kernel would refuse to reconfigure it |
| `Opening.RunOpening` | crates/switch-net/src/plan.rs:51-119 | Repairing the bridge, handing over spanning tree and deleting stale VLAN links is always accepted, with the result stated for every device |
| `Matching.PlanFails` | crates/switch-net/src/plan.rs:40-49 | Planning fails exactly when an SVI's name belongs to another link |
| `Matching.NothingToDo` | crates/switch-net/src/plan.rs:33-313 | The planner has nothing to do exactly when the kernel matches: bridge options, spanning tree owner, ports, tables, exactly the wanted VLAN links, addresses, up states |
| `Convergence.RunRound` | crates/switch-net/src/lib.rs:249-262 | Every operation of a round is accepted exactly if no port is in conflict over the dropped PVID |
| `Convergence.Converges` | crates/switch-net/src/lib.rs:237-265 | Reconciliation succeeds exactly without such a conflict, and then the kernel matches; one round does the work, and a second one only adds the dropped PVID back |
| `Convergence.SecondRoundReadds` | crates/switch-net/src/lib.rs:237-265 | A second round holds nothing but the entries that reconfiguring the bridge dropped and ports still want |
| `Convergence.ConflictHappens` | crates/switch-net/src/plan.rs:121-162 | The conflict is real: a port moved to another access VLAN on a bridge with default PVID 1 |
| `Reconciler.PlatformInPlace` | crates/switch-net/src/lib.rs:96-114 | The loops find the loopback and conduit links that are down |
| `Reconciler.ReconcileFake` | crates/switch-net/src/lib.rs:237-265 | The loop on the in-memory kernel leaves the state and returns the result of the modelled rounds |
| `Reconciler.ReconcileAny` | crates/switch-net/src/lib.rs:243-265 | On any backend: if it returns Ok, the state observed last matches and the operations applied are those of the rounds; if not, they are those of full rounds and of the accepted part of the failing one, the beginning of its plan |
| `Reconciler.NeverSettles` | crates/switch-net/src/lib.rs:243-265 | On any backend that goes on naming a disabled SVI as a conduit or loopback, reconciliation never returns Ok |
| `Transitions.PvidKept` | crates/switch-net/src/plan.rs:121-162 | A port that stays in a bridge that stays has exactly one PVID after every accepted operation, the old or the new one, unless reconfiguring the bridge drops its PVID |
| `Transitions.PvidLost` | crates/switch-net/src/plan.rs:51-84 | In that case the port has no PVID right after the bridge is reconfigured |
| `Transitions.AddressesKept` | crates/switch-net/src/plan.rs:178-230 | A kept SVI has all its old or all its wanted static addresses after every operation, and leases of the DHCP client that do not become static are not touched |
| `Transitions.LeftoversLast` | crates/switch-net/src/plan.rs:232-256 | When the plan removes an address of the bridge or a port, every SVI has exactly its static addresses |
| `AddressMoves.AddressLeaves` | crates/switch-net/src/plan.rs:18-32 | Whatever the operation, an address, static or leased, goes from the bridge or a port only once every SVI has exactly its static addresses, unless the bridge is replaced |
| `AddressMoves.ReplacedLoses` | crates/switch-net/src/plan.rs:51-84 | A bridge that is replaced has no address right after it is deleted, when no SVI exists |
| `Reachability.ReachableIff` | crates/switch-net/src/plan.rs:28-32 | The switch has an address after every accepted operation of a round exactly if, on the configuration and the state before, a port or a bridge that is not created anew has one and an SVI will, or an SVI that is kept has one that lasts until an SVI has its own; where the round ends in a conflict, one at first is enough |
| `Reachability.StaleLoses` | crates/switch-net/src/plan.rs:103-119 | Moving the one address to another VLAN leaves no address when the stale VLAN links are deleted |
| `Reachability.ForwardLoses` | crates/switch-net/src/plan.rs:178-208 | Moving the one address to an SVI whose name comes later leaves none in between |
| `Reachability.SwapLoses` | crates/switch-net/src/plan.rs:195-208 | Making the one lease static leaves none in between |
| `Reachability.RenumberStays` | crates/switch-net/src/plan.rs:195-222 | An SVI that stays and goes from static addresses to others keeps the switch reachable throughout |
| `Transitions.StpBeforePorts` | crates/switch-net/src/plan.rs:85-134 | When a port joins the bridge, spanning tree is already mstpd's if it is wanted and nobody's if not |
| `Bystanders.ForeignKept` | crates/switch-net/src/plan.rs:18-32 | What a whole reconciliation, successful or not, does to any other link, exactly: nothing, up for loopback and conduits, and losses only with the bridge it was in |
| `Bystanders.ForeignThroughout` | crates/switch-net/src/plan.rs:18-32 | After every accepted operation of a round such a link is as before, up if it is of the platform, with the bridge's repair as well, or as at the end |
| `VlanRanges.RangesOf` | crates/switch-model/src/stp.rs:909-924 | The loop joins consecutive ids into ranges |
| `VlanRanges.WrittenReadsBack` | crates/switch-model/src/stp.rs:909-924 | The ranges written for a set of ids read back, entry by entry, as that set, and are increasing, disjoint and not adjacent |
| `VlanRanges.NoShorterEntries` | crates/switch-model/src/stp.rs:540-565 | No shorter list of accepted entries stands for the same set |
| `MstpctlLoops.CommandsInPlace` | crates/switch-net/src/stp.rs:315-418 | The loops build the command list |
| `Mstpctl.ChangedInPlace` | crates/switch-net/src/stp.rs:423-459 | The loop picks the commands that did not run before, all timer commands if one changed, and deletes trees after the tables |
| `Daemon.LastAsks` | crates/switch-net/src/stp.rs:360-416 | The commands for trees and ports are exactly those that the configuration asks for, one for each value |
| `Delta.CommandsMean` | crates/switch-net/src/stp.rs:315-418 | All commands on a new bridge are accepted and leave protocol, timers, trees and every port setting as configured |
| `Updates.TimersAccepted` | crates/switch-net/src/stp.rs:321-325 | From any timers that fit, the three timer commands are accepted, and the timers fit after each |
| `Updates.DirectOrderCanFail` | crates/switch-net/src/stp.rs:321-325 | Setting the two timers directly can be refused in either order |
| `Updates.RunUpdate` | crates/switch-net/src/stp.rs:423-459 | The commands of a change are all accepted by a daemon that still holds what they leave out, and lead to a state stated in full |
| `Delta.UpdateRemembered` | crates/switch-net/src/stp.rs:213-242 | Afterwards every command of the configuration has its effect, however little of it had to be run, and the forward delay is the configured one if the timer commands were run and the old one if not |
| `Delta.ChangesSuffice` | crates/switch-net/src/stp.rs:420-459 | On a daemon configured with p, the changed commands of n leave what all commands of n leave on a new bridge; the forward delay alone differs, exactly where its change is overlooked |
| `Delta.ForwardDelayOverlooked` | crates/switch-net/src/stp.rs:441-451 | A change of the forward delay from 15 to 30 does not reach the daemon |
| `Trees.MappedThroughout` | crates/switch-net/src/stp.rs:334-358 | Before and after every command each filtering database has an existing tree, a tree is deleted only when unused, and in the end each VLAN is in exactly the tree it is configured for, also when everything is sent again |
| `Trees.Throughout` | crates/switch-net/src/stp.rs:334-358 | Along any accepted run of commands no filtering database is without its tree, and only unused trees are deleted |
| `Trees.DelayRight` | crates/switch-net/src/stp.rs:423-459 | After a change the forward delay is as configured exactly if it is not one to 30 with the max age as before and another delay in mstpd |
| `Trees.TreesRight` | crates/switch-net/src/stp.rs:423-459 | After a change mstpd has exactly the configured trees exactly if its others are among those the record says to delete |
| `Trees.TreeLeftOver` | crates/switch-net/src/stp.rs:423-459 | Where everything is sent again, a tree that is no longer configured stays |
| `Hearing.HeardReady` | crates/clixon-switch-plugin/src/lib.rs:213-224 | Unless all commands are to be sent again, mstpd still holds what the next change relies on, the forward delay included, whatever other ports left |
| `Hearing.StaleExactly` | crates/clixon-switch-plugin/src/lib.rs:210-224 | A right record of applied commands, trees and forward delay stays right exactly if the bridge was neither deleted nor created anew and none of its recorded ports joined or left |
| `Records.NextCommitIff` | crates/clixon-switch-plugin/src/lib.rs:210-238 | With settings missing unnoticed, the same configuration rights the record exactly if its operations make it send everything |
| `Records.RecordRightIff` | crates/switch-net/src/stp.rs:213-242 | After an accepted change to any configuration the record is right exactly if every command left out already had its effect |
| `Processes.Processes.Spawn` | crates/switch-net/src/process.rs:18-26 | A spawned child has a pid of its own, or spawning failed; other children may exit meanwhile |
| `MstpdManager.Mstpd.Prepare` | crates/switch-net/src/stp.rs:147-178 | With spanning tree wanted mstpd is found running, or started and found to answer, without it none runs, and the record is forgotten with the process; after a timeout it stays unanswered on record |
| `MstpdManager.Mstpd.WaitReady` | crates/switch-net/src/stp.rs:195-208 | Success means that mstpd answered while alive, and failure that it has not answered since it was started |
| `MstpdManager.UnansweredTwice` | crates/switch-net/src/stp.rs:155-176 | An mstpd that timed out is taken for ready by the next call, unanswered |
| `MstpdManager.Mstpd.Configure` | crates/switch-net/src/stp.rs:213-242 | The record is set exactly if every command was accepted; a running mstpd then holds exactly what the changed commands leave, and the effect of every command on record if it held what they leave out; where a command is refused it holds what those before it left |
| `RoundEffects.RoundLeaves` | crates/switch-net/src/plan.rs:121-162 | A plan takes only unconfigured ports out of the bridge, and deletes the bridge only to create it anew |
| `RoundEffects.RoundRelinks` | crates/switch-net/src/plan.rs:51-208 | A plan that takes the link of a wanted SVI away creates it anew |
| `Outcomes.StepIff` | crates/clixon-switch-plugin/src/lib.rs:204-251 | From what a commit does to the kernel and to mstpd it follows that a right record goes wrong exactly if the operations disturb what a running mstpd holds for it and mstpd is not told |
| `Outcomes.BoundIff` | crates/clixon-switch-plugin/src/lib.rs:239-246 | After a commit that gets as far as the DHCP client, it is bound to the link there is exactly if it was started by this commit or was bound before, and it was started if its link went or was created anew |
| `Plugin.Switch.Undergo` | crates/clixon-switch-plugin/src/lib.rs:210-224 | After operations mstpd was not told of, a right record is right exactly if they did not disturb it |
| `Plugin.Switch.ApplyStp` | crates/clixon-switch-plugin/src/lib.rs:207-238 | No operation is applied before mstpd is found running, or started and found to answer, or stopped if not wanted; if mstpd could be told it holds exactly what the changed commands leave, up to a refused one, and otherwise what the operations leave |
| `Plugin.Switch.Apply` | crates/clixon-switch-plugin/src/lib.rs:204-251 | The same for a whole commit; a right record stays right exactly if mstpd is not disturbed untold; an unwanted DHCP client stops before the operations, and after them a client whose link was created anew starts anew; on success the client runs on the SVI that wants it and on no other, the SNMP agent with its configuration, and the state is the applied one, which a failure keeps |
| `Plugin.ReconcileKernel` | crates/switch-net/src/lib.rs:237-265 | Success means that the state observed last matches and that no configured port was taken out of the bridge |
| `Commits.AnyCommits` | crates/clixon-switch-plugin/src/lib.rs:204-251 | Over any commits, failed ones included: each takes mstpd, the DHCP client and the applied state from one moment to the next as a single commit does, and is answered by how far it got |
| `Commits.LastApplied` | crates/clixon-switch-plugin/src/lib.rs:204-251 | The applied state is that of the last commit that succeeded |
| `Commits.RunIff` | crates/clixon-switch-plugin/src/lib.rs:204-251 | Over any run that starts with a right record, all records are right exactly if no commit disturbs what mstpd holds without telling it |
| `Commits.ShakenLoses` | crates/clixon-switch-plugin/src/lib.rs:210-238 | A commit that does so leaves settings of the configuration on record missing |
| `Commits.RecoversIff` | crates/clixon-switch-plugin/src/lib.rs:204-251 | With settings missing, the same configuration rights the record exactly if mstpd is started or cannot be, a command is refused, or everything is sent |
| `Commits.WrongUntil` | crates/clixon-switch-plugin/src/lib.rs:204-251 | Any number of commits of that configuration without such a one leave the record wrong |
| `Commits.BoundRunIff` | crates/clixon-switch-plugin/src/lib.rs:204-251 | A client that was bound and has run since is bound to its link after a commit that gets as far as the client exactly if that commit starts it anew or no earlier one took its link away and failed before the client was seen to |
| `Commits.TreesAndDelayIff` | crates/clixon-switch-plugin/src/lib.rs:204-251 | After a commit mstpd was told of, its trees and its forward delay are as configured exactly under the conditions above, on what it held after the operations |
| `Commits.StrayStays` | crates/clixon-switch-plugin/src/lib.rs:204-251 | A tree that is in no configuration on record or committed stays in mstpd through any number of commits without a new bridge or a new mstpd, refused commands included |
| `Staleness.StaleHappens` | crates/clixon-switch-plugin/src/lib.rs:210-238 | The failure is real: from every sound kernel whose bridge is missing or not fit, a commit whose interface states cannot be read, and the same one again, leave mstpd without settings it is recorded to have |
| `Staleness.StaleRun` | crates/clixon-switch-plugin/src/lib.rs:204-251 | The two commits as a run that starts with a right record and a client bound to its link, the kernel accepting everything: the second is answered Ok, the record is wrong and the client's link is gone |
| `Outcomes.DhcpSvi` | crates/switch-model/src/lib.rs:334-339 | An SVI with a DHCP client is found iff there is one |
| `DhcpManager.DhcpClients.StopUnwanted` | crates/switch-net/src/dhcp.rs:133-145 | The client is kept exactly if it is alive and wanted, every living client is on record, and the event says why it went |
| `DhcpManager.DhcpClients.Sync` | crates/switch-net/src/dhcp.rs:150-179 | Success means a client on the wanted SVI and nowhere else, started anew if its link was; it is otherwise restarted only if it exited |
| `DhcpManager.AnyCalls` | crates/switch-net/src/dhcp.rs:133-179 | Whatever the calls, no client is lost from the record |
| `SnmpdManager.Snmpd.Start` | crates/switch-net/src/snmp.rs:173-219 | After a timeout the process stays on record with its configuration, after an exit neither does |
| `SnmpdManager.Snmpd.Stop` | crates/switch-net/src/snmp.rs:162-171 | Afterwards no process is alive and nothing is on record |
| `SnmpdManager.Snmpd.Sync` | crates/switch-net/src/snmp.rs:129-160 | Every living process is in a slot, the subagent only with an snmpd, the configuration exactly with one; success means both run with what was asked for, or neither |
| `SnmpdManager.AnyCalls` | crates/switch-net/src/snmp.rs:129-171 | Whatever the calls, no process is lost from the record |
| `Validator.DeclareVlans` | crates/switch-model/src/lib.rs:624-653 | Accepts exactly valid declarations; the last one for an id counts |
| `Validator.PortGroups` | crates/switch-model/src/lib.rs:663-723 | Accepts groups exactly if each lists configured switch ports and no port is listed twice |
| `Interfaces.TrunkVlans` | crates/switch-model/src/lib.rs:807-828 | Collects exactly the declared VLANs that an entry lists, all of them for an empty list |
| `Interfaces.TrunkReads` | crates/switch-model/src/lib.rs:852-875 | A range stands for the declared VLANs in it, a single id has to be declared |
| `Interfaces.SwitchedVlans` | crates/switch-model/src/lib.rs:783-840 | Accepts exactly the access and trunk settings allowed, and finds the native and tagged VLANs without suspended ones |
| `Interfaces.ValidatePort` | crates/switch-model/src/lib.rs:725-779 | Accepts exactly the ports allowed in either mode, and what they ask for |
| `Interfaces.SviVlan` | crates/switch-model/src/lib.rs:951-975 | A VLAN name is accepted exactly if one VLAN has it |
| `Interfaces.ValidateSvi` | crates/switch-model/src/lib.rs:877-949 | Accepts exactly the routed VLAN interfaces allowed, and what they ask for |
| `Acceptance.CheckUniqueVlans` | crates/switch-model/src/lib.rs:1001-1011 | Reports a problem exactly if two SVIs have the same VLAN |
| `Acceptance.CheckUniqueAddresses` | crates/switch-model/src/lib.rs:1013-1030 | Reports a problem exactly if two SVIs have the same address |
| `Acceptance.CheckSingleDhcpClient` | crates/switch-model/src/lib.rs:1033-1049 | Reports a problem exactly if two SVIs have a DHCP client |
| `Acceptance.DesiredState` | crates/switch-model/src/lib.rs:492-568 | Accepts exactly the acceptable configurations, and returns what they mean |
| `StpValidator.ValidateTree` | crates/switch-model/src/stp.rs:449-497 | Every port is in the tree, with the last entry's settings; priorities have to be multiples |
| `StpValidator.ValidateInstances` | crates/switch-model/src/stp.rs:499-536 | Accepts instances exactly if their VLAN entries read and no VLAN is in two of them |
| `StpValidator.ValidateFeatures` | crates/switch-model/src/stp.rs:569-624 | Every port has features, overridden by its entries |
| `StpValidator.DesiredStp` | crates/switch-model/src/stp.rs:309-415 | Accepts exactly valid spanning tree settings, and returns those of the protocol in use, or none |
| `StpValidator.StpSound` | crates/switch-model/src/stp.rs:309-447 | Accepted settings have every port in every tree, and timers that fit and MSTIs that share no VLAN, exactly if the forward delay is at most 30 and no MSTI has id 0 |
| `Isolation.AcceptedSound` | crates/switch-model/src/lib.rs:492-568 | Accepted configurations have valid ids, SVIs named like no port or bridge and distinct in VLAN and address, ports of the switch only, and settings mstpd can take |
| `Isolation.TwoGroupsAccepted` | crates/switch-model/src/lib.rs:663-723 | Two ports in two groups are an accepted configuration, and share no group |
| `Isolation.AcceptedConverges` | crates/switch-net/src/lib.rs:243-265 | Accepted configurations are carried out from every sound state, up to the conflict above |
| `Isolation.GroupsIsolate` | crates/switch-model/src/lib.rs:663-779 | In port-based mode any two ports of the switch, configured or not, share a kernel VLAN exactly if a group lists both |
| `Isolation.PortsClean` | crates/switch-model/src/lib.rs:781-840 | No port carries a suspended VLAN, and a port has at most one untagged VLAN, its PVID |
| `Isolation.BridgeClean` | crates/switch-net/src/plan.rs:164-176 | The bridge itself is in exactly the active VLANs that have an SVI |
| `Base64.EncodeInPlace` | crates/switch-model/src/mib.rs:526-545 | The loops encode, three octets at a time |
| `Base64.RoundTrip` | crates/switch-model/src/mib.rs:526-545 | Decoding by section 4 of RFC 4648 gives the octets back |
| `PortLists.PortNumbersInPlace` | crates/switch-model/src/mib.rs:121-134 | The loop numbers the sorted ports |
| `PortLists.NumbersBijective` | crates/switch-model/src/mib.rs:119-134 | The numbers are exactly 1..n, one for each port, exactly for up to 65535 ports |
| `PortLists.NumbersFollowNames` | crates/switch-model/src/mib.rs:119-134 | Ports are numbered by the number in their name, then by name, those without one last, strictly so for up to 65535 ports |
| `PortLists.PortListInPlace` | crates/switch-model/src/mib.rs:499-509 | The loop sets the bits of the members in a buffer |
| `PortLists.TextShows` | crates/switch-model/src/mib.rs:497-509 | A PortList read back through base64 and its bits shows exactly its members |
| `QBridge.TurnAll` | crates/switch-model/src/mib.rs:419-429 | The loops turn VLANs by port into ports by VLAN, without empty rows |
| `QBridge.Tables` | crates/switch-model/src/mib.rs:418-495 | The current table shows the kernel's ports of each VLAN that has one, the static table the configured ports of each declared VLAN |
| `QBridge.TablesAgree` | crates/clixon-switch-plugin/src/lib.rs:326-336 | Once the kernel matches, the current table has rows for exactly the VLANs some port carries, equal to the static ones, and they tell of each port whether it carries the VLAN and whether untagged |
| `Calendar.DateCorrect` | crates/switch-model/src/system.rs:111-123 | Every day gets a valid Gregorian date with exactly that many days since 1970-01-01 |
| `Calendar.Consecutive` | crates/switch-model/src/system.rs:111-123 | Consecutive days get consecutive dates |
| `Calendar.TextCorrect` | crates/switch-model/src/system.rs:111-130 | The text has the four-digit year of section 5.6 of RFC 3339 exactly below 253402300800 seconds, and its fields read as date and time |

## Left out

- Netlink encoding, the clixon library bindings and the foreign calls; the in-memory kernel stands for the kernel.
- Passwords, account files and the command line plugin.
- Signals, timeouts, orphaned processes and reading /proc; a child process is a pid that is alive or not.
- The table of supported configuration leaves and the walk over it.
- Rendering of XML, JSON, log lines, snmpd.conf and command arguments, and error messages: a problem found by the validator is a constructor, a command a datatype.
- Parsing of JSON documents, IPv4 addresses, lease files and what mstpctl reports; a configuration leaf arrives as a number, a text, or absent.
- The SNMP part of the configuration and the system leaves: simple reference checks.
- The spanning tree protocol itself, which mstpd runs.
- BRIDGE-MIB, RSTP-MIB and the forwarding database tables, which copy values.
- File names, environment variables and arguments of the child processes, and writing their files.
- Transitions.PvidKept: says nothing about a bridge that is re-created, because there all entries go away for a while.
