# Campus SDN controller: a verified model

A Dafny model of the parts of the campus network project where a mistake is easy to make and
hard to see: the SDN controller (`examples/campus_controller.py`), the dashboard's VLAN
policy editor that feeds it (`examples/campus_dashboard.py`), the routing agent's thresholds
(`examples/dqn_routing_agent.py`), two mining algorithms (`examples/data_mining.py`), the
cluster placers (`examples/cluster.py`) and the naming of hosts added at run time
(`examples/campus_topology.py`). `dafny verify dfyconfig.toml` checks the project.

Each component has the same three layers: the operations as functions of the state, the code
that updates fields and lists in place as methods and classes proved to compute those
functions, and lemmas that say what the functions mean, for all inputs and over all runs.

| module | models |
|---|---|
| `OpenFlow` | flow tables: adds and deletes as in section 6.4 of the OpenFlow Switch Specification 1.3, lookup by highest priority as in its section 5.3 |
| `VlanPolicy`, `VlanCompiler`, `VlanMeaning`, `VlanKnown`, `VlanConflicts`, `VlanSeats`, `VlanByMembers`, `VlanHistory` | the compiler from VLAN policy to flows, its correctness, which ports it takes into account, when its rules conflict, and reprogramming over time |
| `VlanNormalizer`, `VlanReading`, `VlanWriter` | the controller's reading of the policy file |
| `Dashboard`, `DashboardService`, `DashboardInvariant`, `DashboardMeaning`, `DashboardEdits`, `DashboardClearing`, `DashboardOrder`, `LinkLosses` | the policy editor: ten operations, when each is accepted, what they keep and what each does |
| `EndToEnd`, `Scenarios` | from dashboard operations to the treatment of a frame |
| `AutomationHook`, `AutomationLoop`, `AutomationRace` | the polling of the policy file, and dashboard, file, controller and switches as one system |
| `Reroute`, `RerouteController`, `RerouteLog`, `RerouteFlows`, `RerouteFrames`, `RerouteChoices`, `RerouteSafety`, `RerouteShadowed` | the adaptive reroute protocol with its agent, as steps of a state machine |
| `Rounding`, `Thresholds`, `AgentEffects` | the agent's and the controller's threshold arithmetic, and what the agent's actions bring about |
| `FloodDetector`, `AttackAlarm`, `AttackRecords` | the sliding-window flood detector, the blocking of attacking addresses, and the alarm they share |
| `SecurityPolicy`, `SecurityNormalizer`, `SecurityReading` | drop rules as a cache of the security policy, and the reading of the policy file |
| `QueuePolicy`, `ClientPorts` | the compiler from traffic classes to queues, and the tables of the hosts on a switch |
| `KMeans`, `KMeansSettles`, `Pearson`, `Correlations` | clustering and correlation, over exact reals |
| `Layers` | VLAN, queue and reroute flows in one table |
| `Placement`, `HostNames`, `Text` | allocation of servers, names and addresses |

Where flow entries depend on the order of a loop over a dictionary, the model takes an
arbitrary order. One handler is one atomic step. Clock readings, random samples, square
roots and the contents of files are inputs.

## What the proofs show about the code

Some properties one would expect hold only under a condition. The condition is proved exact,
and where it can fail a lemma exhibits the failure:

- Re-assigning the only member of a VLAN to that same VLAN drops the VLAN's links
  (`DashboardMeaning.AssignLinks`); removing one of several members drops them too
  (`DashboardEdits.RemoveAssignmentMeaning`). Both happen (`LinkLosses.LabLosesLinks`).
- A VLAN policy compiles without conflicting rules if and only if VLANs that share a port
  reach the same ports from it in the same order and every address it reaches is on one port
  (`VlanByMembers.ConflictFreeByMembers`). The controller's normaliser does not ensure this
  (`VlanConflicts.NormalPolicyConflicts`); the dashboard's operations do.
- A registered switch has the rules of the policy in force unless the policy changed between
  its set-up and its registration and not since (`AutomationLoop.CurrentSinceSetUp`); such a
  switch stays behind (`AutomationRace.LabMissesUpdate`).
- A device on a port outside the controller's list for its switch, where hosts added at run
  time land, is never managed, although the dashboard stores it (`VlanKnown.ManagedByNumber`).
- With the agent on, no agent message can release a reroute; it takes a low core sample that
  finds a fresh message (`RerouteSafety.ReleaseExactly`).
- Without agent integration the message of `exam_mode`, which asks for the primary path,
  switches the reroute on; with it and an uncongested link, it does not
  (`AgentEffects.IntegrationMatters`).
- On a switch whose other flows are lower, a flow of the reroute policy handles a frame it
  matches if and only if the policy engine has no mapping for the switch or the frame is none
  of the engine's business (`RerouteShadowed.PolicyWinsExactly`). Every switch that carries
  such flows has a mapping (`RerouteShadowed.PolicySwitchesMapped`), and redirection
  (priorities 200 and 210) and upload throttling (180) never work, whatever the other flows
  (`RerouteShadowed.RerouteNeverWins`, with a run in `RerouteShadowed.RedirectLoses`).
- The agent's correction of unordered thresholds never restores their order
  (`Thresholds.ClampOrdered`, `Thresholds.CorrectionNeverHelps`), with bounds where that is
  needed in `Thresholds.UnorderedBounds`; the controller's fails for a requested high
  threshold that is not positive (`Thresholds.ApplyOrdered`, `Thresholds.NegativeHigh`).
- The attack alarm goes off if and only if a data-plane clean-up expires the last blocked
  address (`AttackAlarm.AlarmExactly`). So it outlives a flood (`AttackAlarm.AlarmOutlivesFlood`)
  and can be off while a flood is recorded (`AttackAlarm.AlarmForgetsFlood`).
- An attacking address is blocked on one switch at a time, although the loop goes over all
  connected ones (`AttackAlarm.BlockedOnce`).
- Two tables say which hosts a switch has. They agree on every access switch but s12
  (`ClientPorts.AgreeExactly`). In the flood detector's, hosts of several switches share port
  numbers, and only the first of each number is ever found (`ClientPorts.FoundExactly`), also
  for floods of its neighbours (`ClientPorts.NeighbourBlamed`).
- A TCP or UDP fragment without its header makes the controller cache a drop for the whole
  protocol, permitted ports included (`SecurityPolicy.CachedSoundExactly`,
  `SecurityPolicy.FragmentShutsPort`).
- Normalising a security policy is not idempotent when its hard timeout is unreadable and its
  idle timeout longer than 300 seconds (`SecurityNormalizer.IdempotentExactly`,
  `SecurityNormalizer.SecondPassRaises`), and a policy file cannot withdraw a default port
  (`SecurityNormalizer.PortsNormal`).
- A host added at run time gets an interface name that is taken if and only if its name is
  the stem of a numbered interface of a host with a long name
  (`HostNames.InterfaceTakenExactly`); two calls reach that (`HostNames.InterfaceClash`). It
  gets the name of a switch if its base is one and no host has it yet
  (`HostNames.NodeNameExactly`); one call does (`HostNames.NodeClash`).

## Model

| member | source | states |
|---|---|---|
| OpenFlow.AddAllContents | examples/campus_controller.py:1628-1664 | after a list of flow adds whose keys decide the rule, the table holds exactly the added rules and the old entries under other keys |
| OpenFlow.Switch.DeleteCookieFlows | examples/campus_controller.py:1872-1886 | a delete by cookie removes the entries with that cookie and keeps every other |
| Text.DecimalRoundTrip | examples/campus_controller.py:1459-1461 | the decimal numeral of a number reads back as the number, so datapath names and numbered host names never collide |
| VlanCompiler.VlanController.InstallVlanAutomationFlows | examples/campus_controller.py:1888-2059 | reprogramming a switch removes its old VLAN rules, adds exactly the compilation of its current policy, and returns the number of rules pushed |
| VlanKnown.ManagedExactly | examples/campus_controller.py:1895-1945 | a member is managed on a switch if and only if the policy has it there on a port the controller knows, or it knows no port of the switch |
| VlanKnown.ManagedByNumber | examples/campus_controller.py:157-172 | in numbers: ports 1 to 6 of s1, 1 to 7 of s2 and 1 to 4 of the other campus switches; a host that is attached to another port is never managed |
| VlanKnown.KnownInOrder | examples/campus_controller.py:1915-1932 | members on known ports keep their order |
| VlanKnown.OnlyKnownPorts | examples/campus_controller.py:1888-2044 | on a switch with a list of ports, every rule compiled from any configuration is for an ingress port of the list and outputs only to ports of the list |
| VlanMeaning.RuleShape | examples/campus_controller.py:1971-2044 | a rule is compiled if and only if it is one of the five forms: ARP fan-out, allow, closed port, block, ARP block |
| VlanMeaning.TargetsMeaning | examples/campus_controller.py:1972-1984 | the targets computed for a sender are exactly the members it may reach: other ports in its VLAN or a linked one |
| VlanMeaning.ConflictFree | examples/campus_controller.py:1971-2044 | with distinct ports and addresses, two compiled rules of one priority that match a common frame are the same rule |
| VlanMeaning.CompiledKeysDecide | examples/campus_controller.py:1971-2044 | no compiled add replaces an earlier one by a different one |
| VlanConflicts.KeysDecideExactly | examples/campus_controller.py:1971-2044 | for any policy: no compiled add replaces an earlier one by a different one if and only if every port fans out to the same ports in each VLAN it reaches anybody from, and reaches every address on one port |
| VlanConflicts.ConflictFreeExactly | examples/campus_controller.py:1971-2044 | rules of one priority that match a common frame are the same rule under exactly that condition; distinct ports and addresses imply it |
| VlanSeats.FirstMeaning | examples/campus_controller.py:1971-1984 | the first candidate on a port is the first member on it, by VLAN number and then by place, among the VLAN and those linked to it |
| VlanByMembers.ConflictFreeByMembers | examples/campus_controller.py:1971-2044 | over members, ports, addresses and links alone: a policy compiles without conflicts if and only if VLANs that share a port reach the same ports from it in the same order, and of the members other ports are reached through those with one address are on one port |
| VlanConflicts.NormalPolicyConflicts | examples/campus_controller.py:1524-1581 | a policy file with two members of one address passes the normaliser and compiles to conflicting rules |
| VlanMeaning.CompiledMeaning | examples/campus_controller.py:1888-2044 | compiler correctness: for every policy with distinct ports and addresses, every frame and any other flows, none of which matches the frame at priority 380 or above, each highest-priority match sends the frame exactly where the policy says or drops it where the policy denies it, and frames the policy does not concern are left to the other flows |
| VlanHistory.NoResidue | examples/campus_controller.py:1872-1889 | deleting by the VLAN cookie takes the compiled rules away again and restores the rest of the table exactly |
| VlanHistory.HistoryForgotten | examples/campus_controller.py:1888-2059 | after any history of reprogrammings, mixed with other components' adds, deletes and timeouts, the table is the last policy's compilation on top of what the others alone would have left |
| VlanNormalizer.NormalizeNetworkAutomation | examples/campus_controller.py:1487-1581 | the loops over an arbitrary file compute the normal-form reading, junk skipped and later entries replacing earlier |
| VlanNormalizer.NormalizedIsNormal | examples/campus_controller.py:1487-1581 | whatever the file holds, the result has valid switch names and VLAN numbers, non-empty VLANs, one member per port and VLAN, and ordered duplicate-free links |
| VlanReading.MembersExactly | examples/campus_controller.py:1514-1547 | the members read are exactly the entries with a positive port and a hardware address that are the first such for their port, in the order of the file and as written there; everything else in the list changes nothing |
| VlanReading.LinksExactly | examples/campus_controller.py:1549-1575 | the links read are exactly the first entries, in either order, of their pair of different valid VLANs, in the order of the file |
| VlanReading.VlansExactly | examples/campus_controller.py:1504-1547 | a VLAN is read if and only if some entry of a valid number has a usable member, and its members are those of the last such entry |
| VlanReading.ReadExactly | examples/campus_controller.py:1495-1581 | a switch is in the policy if and only if some entry for it has a usable VLAN or link, and then it is as its last such entry says; junk, wherever it stands, changes nothing |
| VlanNormalizer.ReadBack | examples/campus_controller.py:1487-1581 | a file that stores a normal-form policy, in any order of entries, is read back as that policy |
| VlanNormalizer.NormalizeIdempotent | examples/campus_controller.py:1487-1581 | storing the normalised policy and normalising again changes nothing |
| VlanWriter.ReadsSomeFile | examples/campus_controller.py:1487-1581 | every policy in normal form is what some file is read as: nothing is lost for want of a file |
| DashboardService.CleanupSwitchAutomation | examples/campus_dashboard.py:4271-4326 | the clean-up loops compute the cleaned configuration and report whether anything is left |
| DashboardService.Service.AssignDeviceVlan | examples/campus_dashboard.py:4328-4411 | accepts exactly the valid assignments and stores the assigned policy; a refused call changes nothing |
| DashboardService.Service.AutoConfigureSwitchVlans | examples/campus_dashboard.py:4413-4488 | accepts exactly when there is a number for every device and stores the automatic configuration; otherwise nothing changes |
| DashboardService.Service.AutoConfigureWholeNetwork | examples/campus_dashboard.py:4502-4575 | replaces the whole policy or, when some switch has too few numbers, changes nothing |
| DashboardService.Service.ClearSwitchAutomation | examples/campus_dashboard.py:4490-4500 | forgets one switch, refused when it has no policy |
| DashboardService.Service.ClearAllNetworkAutomation | examples/campus_dashboard.py:4577-4580 | forgets every switch |
| DashboardService.Service.RestoreOpenConnectivity | examples/campus_dashboard.py:4582-4590 | forgets one switch or all |
| DashboardService.Service.RemoveVlanFromAllSwitches | examples/campus_dashboard.py:4592-4619 | removes the VLAN wherever it is, refused when it is nowhere |
| DashboardService.Service.RemoveVlanAssignment | examples/campus_dashboard.py:4889-4928 | removes a device or a whole VLAN on one switch, refused when the VLAN is not there |
| DashboardService.Service.SetVlanInterconnect | examples/campus_dashboard.py:4930-4967 | links or unlinks two VLANs of one switch, refused unless both are there |
| DashboardService.Service.SetVlanInterconnectScope | examples/campus_dashboard.py:4621-4661 | the same on one switch or on every switch that has both VLANs |
| DashboardInvariant.PlacedOnce | examples/campus_dashboard.py:4346-4380 | in a sound policy a device is a member of at most one VLAN of one switch in the whole network |
| DashboardInvariant.AppliedSound | examples/campus_dashboard.py:4271-4661 | every accepted operation keeps the policy sound: valid numbers, no empty VLAN, each device once network-wide, links ordered, duplicate-free and between VLANs of that switch |
| DashboardInvariant.RunSound | examples/campus_dashboard.py:4271-4967 | the policy is sound after any sequence of operations from the empty one |
| DashboardMeaning.CleanupIdempotent | examples/campus_dashboard.py:4271-4326 | cleaning any configuration twice is cleaning it once |
| DashboardMeaning.AssignMoves | examples/campus_dashboard.py:4346-4411 | an assignment puts the device into that VLAN of that switch only and moves no other device |
| DashboardMeaning.AssignLinks | examples/campus_dashboard.py:4346-4411 | an assignment keeps exactly the links whose two VLANs have another member; re-assigning a sole member to its own VLAN drops that VLAN's links |
| DashboardMeaning.AssignIdempotent | examples/campus_dashboard.py:4346-4411 | assigning a device to a VLAN twice stores the same policy as once |
| DashboardClearing.AcceptedExactly | examples/campus_dashboard.py:4328-4967 | each of the ten operations on a sound policy is accepted if and only if what it names exists: an attached device, enough valid numbers, a VLAN in use, two different VLANs in use |
| DashboardClearing.ClearSwitchMeaning | examples/campus_dashboard.py:4490-4500 | clearing a switch takes all its members and links, and every placement and link on every other switch is as before |
| DashboardClearing.RestoreMeaning | examples/campus_dashboard.py:4577-4590 | restoring one switch does the same; restoring all, and clearing everything, leaves nobody placed and nothing linked anywhere |
| DashboardOrder.AssignRecords | examples/campus_dashboard.py:4357-4390 | an assigned device is stored with the port, address and text it is attached with, and with no others |
| DashboardOrder.RunByPort | examples/campus_dashboard.py:4271-4967 | in every policy operations reach from the empty one, the members of each VLAN are in the order of their ports |
| DashboardOrder.InterconnectSorts | examples/campus_dashboard.py:4930-4967 | setting a link leaves the links of that switch in ascending order |
| DashboardOrder.CleanFirst | examples/campus_dashboard.py:4286-4300 | of the members of one device the clean-up keeps the first, whatever the list |
| DashboardEdits.RemoveEverywhereMeaning | examples/campus_dashboard.py:4592-4619 | removing a VLAN everywhere takes its members and links on every switch and nothing else |
| DashboardEdits.RemoveAssignmentMeaning | examples/campus_dashboard.py:4889-4928 | removing an assignment takes that member, or the whole VLAN, and all links of the VLAN on that switch, even if other members stay |
| LinkLosses.ReassigningLosesLink | examples/campus_dashboard.py:4346-4411 | on any topology with two devices on a switch: a run after which assigning a device to the VLAN it is in moves nobody and loses a link |
| LinkLosses.RemovingLosesLink | examples/campus_dashboard.py:4889-4928 | with three devices: a run after which removing one of a VLAN's two members loses its link to the third device's VLAN |
| LinkLosses.LabLosesLinks | examples/campus_dashboard.py:4346-4928 | both happen on a concrete topology |
| DashboardEdits.InterconnectMeaning | examples/campus_dashboard.py:4930-4967 | setting a link changes that one link of that switch and no placement |
| DashboardEdits.InterconnectScopeMeaning | examples/campus_dashboard.py:4621-4661 | without a switch the link is set on exactly the switches that have both VLANs |
| DashboardEdits.AutoSwitchMeaning | examples/campus_dashboard.py:4413-4488 | automatic configuration gives each device of the switch its own VLAN in order, links exactly the requested pairs in use, and leaves other switches alone |
| DashboardEdits.AutoAllMeaning | examples/campus_dashboard.py:4502-4575 | the same on every switch at once, with nothing kept from before |
| EndToEnd.MayTalkSymmetric | examples/campus_dashboard.py:4930-4967 | who may talk to whom is symmetric |
| EndToEnd.DashboardToDataPlane | examples/campus_controller.py:1487-2059 | after any run of dashboard operations, stored in any order and read back, on a switch with any history of policies and other flows, every frame of an attached device that concerns a managed one is treated as the edited policy says; devices on ports outside the controller's list count as unmanaged |
| EndToEnd.UnicastBetweenDevices | examples/campus_controller.py:1971-2044 | on a switch with any history, a unicast frame between two devices that concerns a managed one leaves on the receiver's port alone if they may talk and is dropped if not |
| AutomationHook.Automation.ApplyNetworkAutomationHook | examples/campus_controller.py:1583-1626 | one monitor round over the policy file: missing, not newer, unreadable or new, and every registered switch reprogrammed exactly when the policy changed |
| AutomationHook.ReadOnce | examples/campus_controller.py:1594-1599 | one time stamp is looked into once: whatever a file holds when it is found again with that stamp or an earlier one, nothing changes |
| AutomationLoop.InForce | examples/campus_controller.py:1583-1626 | once a round has come after the last edit or removal of the file, the policy in force is the one the dashboard has stored |
| AutomationLoop.CurrentExactly | examples/campus_controller.py:1583-2100 | a registered switch has the rules of the policy in force if and only if it was set up again or the policy changed since its registration, or it had them when it was registered |
| AutomationLoop.CurrentSinceSetUp | examples/campus_controller.py:2061-2100 | in terms of the run: its part of the policy was the same at set-up and at registration, or it was refreshed since |
| AutomationLoop.EditsReachDataPlane | examples/campus_controller.py:1583-2100 | the whole loop of dashboard, file, rounds and switches: in every reachable state after such a round, on every current switch, each frame of an attached device is treated as the stored policy says |
| AutomationRace.LabMissesUpdate | examples/campus_controller.py:2061-2100 | a run in which the policy changes between set-up and registration, and the registered switch has none of its rules |
| Scenarios.LabIsSound | examples/campus_dashboard.py:4126-4160 | a topology with two devices meets every assumption made of topologies |
| Scenarios.AssignAccepted | examples/campus_dashboard.py:4332-4344 | any attached device can be assigned to any valid VLAN |
| Scenarios.TalkExactlyInOneVlan | examples/campus_dashboard.py:4328-4411 | two freshly assigned devices may talk if and only if they were put into one VLAN |
| Scenarios.AssignedThenForwarded | examples/campus_controller.py:1487-2044 | and the programmed switch, whatever its history, forwards frames between them to the receiver exactly then, and drops them otherwise |
| Scenarios.LabDelivers | examples/campus_controller.py:1487-2044 | a complete instance: on the two-device topology, for any two VLANs, some file stores the policy and programming an empty switch from it forwards or drops every frame as it should |
| RerouteController.Controller.constructor | examples/campus_controller.py:183-253 | starts with nothing congested, active or pending, an empty log, and default or configured thresholds, corrected |
| RerouteController.Controller.SetReroutePolicy | examples/campus_controller.py:2386-2410 | switching the policy logs the change and installs or deletes the policy flows of every connected switch; nothing happens when the flag is already as asked |
| RerouteController.Controller.InstallPolicyFlows | examples/campus_controller.py:2412-2495 | adds to a switch exactly the policy rules of its role |
| RerouteController.Controller.UpdatePortCongestion | examples/campus_controller.py:536-581 | hysteresis of one port, logged with the thresholds in force |
| RerouteController.Controller.TriggerDecision | examples/campus_controller.py:591-611 | asks the agent unless integration is off or a decision is already pending |
| RerouteController.Controller.ResolveChoice | examples/campus_controller.py:613-652 | the agent's routing choice, else its action name, else the current state, with the safety override |
| RerouteController.Controller.ApplyRoutingDecision | examples/campus_controller.py:654-691 | clears the pending flag, applies the resolved decision and logs it |
| RerouteController.Controller.CheckDecisionTimeout | examples/campus_controller.py:693-715 | past the deadline the pending decision is dropped and, if congested, the reroute switched on |
| RerouteController.Controller.ApplyActionHook | examples/campus_controller.py:717-836 | takes a fresh agent message once: thresholds, decision or forced state, then the operator's thresholds |
| RerouteController.Controller.ApplyThresholdSettings | examples/campus_controller.py:866-897 | requested thresholds merged and corrected when a low one is not below its high one |
| RerouteController.Controller.EvaluateCongestion | examples/campus_controller.py:2350-2384 | throughput hysteresis, then activation or release, by the agent or directly |
| RerouteController.Controller.PortStats | examples/campus_controller.py:2330-2341 | one port of a statistics reply |
| RerouteController.Controller.ApplyTimetable | examples/campus_controller.py:2131-2152 | a timetable mode change sets both thresholds |
| RerouteController.Controller.Monitor | examples/campus_controller.py:2261-2268 | one monitor round: agent, timetable, deadline |
| RerouteController.Controller.PacketInHandler | examples/campus_controller.py:2541-2573 | the fast path adds one policy flow while the reroute is active |
| RerouteLog.StepLogged | examples/campus_controller.py:536-2410 | every step only appends to the event log, keeps it a legal history whose replay gives the controller's flags, and stamps measurements with the thresholds in force before the step |
| RerouteLog.LogTellsState | examples/campus_controller.py:2350-2410 | in every reachable state the flags are what replaying the log gives |
| RerouteLog.PolicyAlternates | examples/campus_controller.py:2386-2402 | in any run activations and deactivations strictly alternate, starting with an activation, and the flag is what the last one says |
| RerouteLog.PortDetectionsApart | examples/campus_controller.py:536-560 | between two congestion detections of a port lies its clearing |
| RerouteLog.PortClearingFollows | examples/campus_controller.py:562-581 | a clearing follows a detection, since the last clearing or the start |
| RerouteFlows.FlowsAgree | examples/campus_controller.py:2386-2573 | in every reachable state, while flows time out and the rest of the controller adds and deletes its own, the flows that are not the policy's are exactly those there would be without the protocol, and while the reroute is inactive there is no other: no policy flow is left on any switch, fast path included |
| RerouteSafety.ReleaseExactly | examples/campus_controller.py:2377-2384 | with the agent on, a step releases an active reroute if and only if it is a core sample at or below the low threshold that consumes a fresh agent message |
| RerouteSafety.ReleasedOnlyBySample | examples/campus_controller.py:2377-2384 | between an active and a later inactive state of any run lies such a sample |
| RerouteSafety.SampleResponds | examples/campus_controller.py:2368-2376 | after a core sample at or above a high threshold that the step leaves as it is, whatever the agent's file or the operator asks for without effect, the reroute is on or a decision pending, with the earlier deadline if one was pending |
| RerouteSafety.StepResponds | examples/campus_controller.py:591-715 | every later step that leaves the high threshold as it is keeps this and the deadline, and a monitor round at or past the deadline leaves the reroute on |
| RerouteSafety.BoundedResponse | examples/campus_controller.py:591-715 | bounded response over runs: while core samples stay at or above an unchanged high threshold, with a silent, stale or overridden agent too, the reroute is on or a decision with the first deadline is pending after every step, and from the first monitor round at or past that deadline on the reroute is on for good |
| RerouteChoices.AgentDecides | examples/campus_controller.py:613-836 | with the agent on, the reroute is on after a message was taken up if and only if the link was congested or the message asks for it: by one of three routing choices, or without one of six by its action name; and nothing is pending any more. A message that is not taken up changes neither |
| RerouteChoices.RoundDecides | examples/campus_controller.py:2261-2268 | the same of a whole monitor round that takes a message up |
| RerouteChoices.RoundWaits | examples/campus_controller.py:693-715 | a round that takes none up: the decision stays pending exactly until its deadline, and the reroute is switched on if and only if the deadline has come and the link is congested by the threshold then in force |
| RerouteChoices.SampleDecides | examples/campus_controller.py:2350-2384 | a core sample with the agent on: a message that is there already is taken up, and whatever it says the reroute is on after a high sample and off after a low one; without one the decision stays pending; other samples change neither |
| RerouteChoices.MessageForces | examples/campus_controller.py:800-830 | without the agent a new message sets the reroute outright, or by the last routing choice known |
| RerouteChoices.ThresholdsDecided | examples/campus_controller.py:717-800 | the thresholds after reading both files are the operator's requests if there are any, whatever the agent asks for, else those of a new message, with low ones not below their high one replaced, and as before where nothing is requested |
| RerouteChoices.ModeTakesEffect | examples/campus_controller.py:2103-2152 | a new timetable mode puts its thresholds in force, 40 and 20 if it is unknown, and the same mode again nothing |
| RerouteChoices.PortCongestedExactly | examples/campus_controller.py:536-581 | over runs with ordered thresholds a port is congested if and only if some sample of it was at or above its high threshold and no later one at or below its low one, each as in force then |
| RerouteChoices.ThroughputExactly | examples/campus_controller.py:2350-2367 | the same of the core link's throughput |
| RerouteChoices.ActiveExactly | examples/campus_controller.py:2368-2384 | and, without an agent and new messages, of the reroute itself |
| RerouteFrames.FramesTreated | examples/campus_controller.py:2412-2495 | in every reachable state, for every frame that a policy flow and no higher one matches: on s2 it is a ping and leaves by the core port with the address of the backup server, on s3 a reply that leaves as the primary server's, on s5 client traffic that leaves unchanged in queue 2 |
| RerouteFrames.PingRedirected | examples/campus_controller.py:2414-2438 | right after activation a client's ping leaves s2 by the core port, addressed to the backup server's IP and MAC |
| RerouteFrames.ReplyDisguised | examples/campus_controller.py:2440-2456 | and the backup server's reply leaves s3 by the core port as coming from the primary server |
| RerouteFrames.PingAnswered | examples/campus_controller.py:2414-2456 | the two rewritings cancel: the client's ping is answered from the address it pinged |
| RerouteFrames.ClientThrottled | examples/campus_controller.py:2457-2495 | downloads of a throttled client leave s5 by its port and uploads by the uplink, both in queue 2 |
| RerouteFrames.FastPathRedirects | examples/campus_controller.py:2541-2573 | the fast path treats the pings of a client in the same way from then on |
| RerouteShadowed.PolicyWinsExactly | examples/campus_controller.py:1685-2573 | on a switch with lower flows that the engine has programmed, in every reachable state, a frame that some flow of the policy matches is handled by the policy if and only if the engine has no mapping for the switch or the frame is none of its business |
| RerouteShadowed.PolicySwitchesMapped | examples/campus_controller.py:1666-1683 | every switch that carries flows of the reroute policy is one the engine has a mapping for |
| RerouteShadowed.RerouteNeverWins | examples/campus_controller.py:2412-2573 | redirection, its fast path and upload throttling never handle any frame: from the moment the engine has programmed the switch, in every reachable state, whatever flows of whatever priority others add, delete or let time out, as long as the engine's rule for the server stays |
| RerouteShadowed.RedirectLoses | examples/campus_controller.py:2386-2438 | a run in which redirection is on, its flow matches a ping to the server, and another flow handles the ping |
| Thresholds.ClampOrdered | examples/dqn_routing_agent.py:423-431 | before rounding the clamped pair is ordered if and only if the lower bound of the low threshold is below the clamped high one |
| Thresholds.CorrectionNeverHelps | examples/dqn_routing_agent.py:423-431 | the pair is ordered after the agent's correction exactly when it was before |
| Thresholds.UnorderedBounds | examples/dqn_routing_agent.py:423-431 | bounds under which every published pair is unordered, and bounds under which the correction moves the low threshold and leaves it above the high one |
| Thresholds.RoundedClampOrdered | examples/dqn_routing_agent.py:423-432 | after rounding, if and only if the rounded bound is below the rounded high threshold |
| Thresholds.BuildActionPayload | examples/dqn_routing_agent.py:435-606 | the sixteen action branches and the clamps compute the published message |
| Thresholds.PublishedOrdered | examples/dqn_routing_agent.py:576-580 | the published pairs are ordered exactly under these bounds, the port pair exactly when the published port-high exceeds 30 |
| Thresholds.AgentAdopted | examples/dqn_routing_agent.py:423-580 | with the default bounds every action publishes ordered positive thresholds, whatever it read, and the controller adopts them unchanged |
| AgentEffects.ActionReroutes | examples/dqn_routing_agent.py:462-556 | with the agent on: after the message of an action was taken up, the reroute is on if and only if the link was congested or the action is one of seven, by name |
| AgentEffects.ActionForces | examples/dqn_routing_agent.py:462-556 | without integration: it is on if and only if the action is one of those, exam mode or load balancing, or the 70 percent throttle while the agent saw it on |
| AgentEffects.IntegrationMatters | examples/dqn_routing_agent.py:462-556 | so a controller with and one without integration, uncongested, disagree on a message exactly for those last three |
| AgentEffects.StricterFirst | examples/dqn_routing_agent.py:462-563 | for one reading and any bounds, the sixteen actions publish high thresholds in one fixed order of strictness |
| AgentEffects.PublishedForDefaults | examples/dqn_routing_agent.py:462-567 | the thresholds published for the controller's defaults, for each action |
| Thresholds.ApplyOrdered | examples/campus_controller.py:866-897 | the controller's correction yields an ordered pair if and only if the merged pair is ordered or its high threshold is positive |
| Thresholds.NegativeHigh | examples/campus_controller.py:866-897 | a negative high threshold requested over ordered ones leaves the pair unordered |
| Thresholds.ApplyTwice | examples/campus_controller.py:866-897 | applying the same settings again changes nothing |
| Thresholds.AlwaysOrdered | examples/campus_controller.py:536-897 | agent messages, operator settings and timetable changes in any order keep each low threshold below its high one in every reachable state, if no request sets a high threshold that is not positive |
| FloodDetector.FloodMonitor.TrackPacketIn | examples/campus_controller.py:1152-1168 | one packet-in: window extended and its outdated front dropped, flood mitigated when the rate is reached |
| FloodDetector.FloodMonitor.Mitigate | examples/campus_controller.py:1170-1206 | records the flood, raises the alarm and installs the port drop rule, once |
| FloodDetector.FloodMonitor.CleanupFloods | examples/campus_controller.py:1208-1225 | expired records and their windows are removed |
| FloodDetector.WindowIsHistory | examples/campus_controller.py:1159-1163 | in every reachable state a window is exactly the packet-ins heard from its switch in the half second up to the last one |
| FloodDetector.FloodDetected | examples/campus_controller.py:1159-1168 | a drop rule is installed if and only if the packet-in is at least the seventy-fifth within half a second and the switch has no record |
| AttackRecords.PortShut | examples/campus_controller.py:1170-1206 | a detected flood shuts its port for thirty seconds, from at most two after it was recorded |
| FloodDetector.OneLiveRule | examples/campus_controller.py:1170-1225 | at most one flood rule is ever live on a switch |
| FloodDetector.LiveRuleRecorded | examples/campus_controller.py:1170-1225 | a record is never removed before its rule's hard timeout: every rule that has not timed out, the newest included, has its record and keeps the flood flag up |
| AttackRecords.FloodRecordedExactly | examples/campus_controller.py:1152-1225 | in every reachable state a switch has a flood record of some time if and only if a flood was detected then and no clean-up since came 32 seconds later or more |
| FloodDetector.FloodMonitor.InstallDrop | examples/campus_controller.py:1273-1307 | blocks an address on the switch and raises the alarm, unless the address is blocked already |
| FloodDetector.FloodMonitor.BlockEverywhere | examples/campus_controller.py:1269-1271 | the loop over all connected switches blocks a new address on the first of them |
| FloodDetector.FloodMonitor.CleanupAttackers | examples/campus_controller.py:1311-1327 | expired addresses are removed and the alarm is up exactly if some remain; without an expired one nothing changes |
| AttackAlarm.AlarmExactly | examples/campus_controller.py:1152-1327 | the alarm, once on, is off in a later state if and only if a data-plane clean-up in between expired an address and left none, and nothing was detected since; floods and their clean-up play no part |
| AttackAlarm.AlarmOutlivesFlood | examples/campus_controller.py:1208-1225 | a run in which the only flood is over and cleaned up and the alarm is still on |
| AttackAlarm.AlarmForgetsFlood | examples/campus_controller.py:1311-1327 | a run in which the alarm is off while a flood is recorded and its flag up |
| AttackAlarm.BlockedOnce | examples/campus_controller.py:1269-1307 | in every reachable state a recorded address is blocked by exactly one rule on one switch, however many are connected; any other block of it is older by at least the time after which records expire |
| AttackRecords.AttackerRecordedExactly | examples/campus_controller.py:1273-1327 | the same of an attacking address |
| AttackRecords.BlocksExactly | examples/campus_controller.py:1254-1292 | the rules against addresses are exactly one for each address found unrecorded, on the first of the connected switches |
| AttackRecords.KindExactly | examples/campus_controller.py:1170-1327 | an attack is announced if and only if one of the alarms is on, as a control-plane attack if and only if a flood has been detected since both were last off, and else as a data-plane attack |
| SecurityPolicy.Enforcer.Enforce | examples/campus_controller.py:1364-1457 | the handler drops exactly the packets the policy denies, installs exactly one rule for a dropped packet, and counts attempts and drops |
| SecurityPolicy.CachedSoundExactly | examples/campus_controller.py:1400-1457 | the rule cached for a dropped packet is sound if and only if the packet was blocked by zones or is not a TCP or UDP packet without its header while ports are allowed |
| SecurityPolicy.PairsDropExactly | examples/campus_controller.py:1364-1400 | zones are blocked in one direction: a packet that reaches no protected server is dropped if and only if the policy lists its source's zone with its destination's, in that order |
| SecurityPolicy.ServersDropExactly | examples/campus_controller.py:1400-1457 | a protected server drops exactly the packets of restricted zones that are neither permitted ICMP nor to a listed port |
| SecurityPolicy.DroppedOnSwitch | examples/campus_controller.py:1329-1457 | after a drop the switch drops by itself the packets from that port between those addresses, all of them for blocked zones and else those of the same service, and treats every other frame as before |
| SecurityPolicy.FragmentShutsPort | examples/campus_controller.py:1400-1457 | a dropped TCP fragment whose cached rule drops a packet to a permitted port |
| SecurityPolicy.CachedDropsSound | examples/campus_controller.py:1364-1457 | in every reachable state under a fixed policy, each cached drop matches only packets a fresh evaluation drops as well |
| SecurityNormalizer.NormalizePolicy | examples/campus_controller.py:958-1062 | the loops over an arbitrary policy file compute the normalised policy, addresses kept as the texts they are, dotted quads out of range included |
| SecurityNormalizer.NormalizedIsNormal | examples/campus_controller.py:958-1062 | whatever the file holds: lists duplicate-free and not empty, known zones, ports in range, numbers clamped |
| SecurityNormalizer.PortsNormal | examples/campus_controller.py:1017-1038 | the allowed ports are exactly the defaults and the valid listed ones: a file can add ports but not withdraw one |
| SecurityReading.AddressExactly | examples/campus_controller.py:945-956 | an address is accepted if and only if it is four groups of one to three digits with dots between them |
| SecurityReading.ListsExactly | examples/campus_controller.py:958-1000 | the protected addresses and restricted zones are the valid entries of the file's lists, and a list without one stands for the default |
| SecurityReading.PairsExactly | examples/campus_controller.py:1002-1022 | the blocked pairs are the first usable entries of their pair of zones, with their reasons, in the order of the file |
| SecurityReading.NumbersExactly | examples/campus_controller.py:1048-1061 | priority and timeouts are the nearest numbers to those asked for in 300 to 390, 10 to 900, and the idle timeout to 1800, with defaults for missing and unreadable ones; only an unreadable hard timeout may end below the idle one |
| SecurityReading.AlwaysOpen | examples/campus_controller.py:1024-1046 | the ports every file leaves open are exactly the default ones |
| SecurityNormalizer.IdempotentExactly | examples/campus_controller.py:1048-1061 | normalising twice equals normalising once if and only if not both the hard timeout is unreadable and the idle timeout exceeds 300 seconds |
| SecurityNormalizer.SecondPassRaises | examples/campus_controller.py:1048-1061 | with an unreadable hard timeout and idle 600 the first pass gives 300 seconds and the second 600 |
| QueuePolicy.Engine.InstallPolicyEngineFlows | examples/campus_controller.py:1685-1870 | adds exactly the compiled rules to a switch with a mapping, none to another, and returns their number |
| QueuePolicy.CompiledKeysDecide | examples/campus_controller.py:1710-1848 | rules with one key are one rule, even when a port is listed in several classes |
| QueuePolicy.QueueMeaning | examples/campus_controller.py:1685-1850 | on top of any flows of lower priority the compiled table refines the direct classification: every winning rule gives traffic to and from the primary server the queue of its server port and the port of its way, and every other frame is left to the other flows |
| ClientPorts.HostIpForPort | examples/campus_controller.py:1227-1252 | the detector's search finds the first host on the port in the dictionary of the switch, and none exactly if there is none |
| ClientPorts.Served | examples/campus_controller.py:1666-1870 | on any of the thirteen mapped switches, over lower flows, the server's frame for a client enters its queue and leaves by the client's port |
| ClientPorts.ServerReached | examples/campus_controller.py:1666-1870 | and a frame for the server enters its queue and leaves by port 1 |
| ClientPorts.DeliversExactly | examples/campus_controller.py:1666-1683 | which hosts the queue flows of a switch serve: on s2 and s3 the dictionary of their side, on s12 the right side's, on the other access switches the detector's, and elsewhere nobody |
| ClientPorts.QueueNumbers | examples/campus_controller.py:1710-1850 | queue 0 exactly for academic TCP, realtime and authentication UDP, queue 2 for other bulk TCP, queue 1 for the rest |
| ClientPorts.AgreeExactly | examples/campus_controller.py:1227-1252 | every host the detector can blame on a port is served there by the queue flows, on every access switch but s12; there if and only if its dictionary is empty |
| ClientPorts.FoundExactly | examples/campus_controller.py:1227-1252 | a known host is blamed for a flood on some port of some switch if and only if no host before it in its dictionary has the same port |
| ClientPorts.NeighbourBlamed | examples/campus_controller.py:113-119 | as in the campus: a flood from port 2 of s5 is blamed on the host on port 2 of s4 |
| Layers.VlansOverQueues | examples/campus_controller.py:1685-2044 | on a switch with the queue flows and the VLAN flows, over lower ones: a frame that the VLAN policy decides goes where that says, to and from the server too, and any other frame of the engine's business is queued as if there were no VLANs |
| Layers.VlanPriorities | examples/campus_controller.py:1971-2044 | the VLAN flows lie at 395, 390, 385, 384 and 380 |
| Layers.EnginePriorities | examples/campus_controller.py:1710-1848 | the engine's flows lie at 310 to 340 and 250, below those |
| Layers.ReroutePriorities | examples/campus_controller.py:2412-2573 | and the reroute policy's at 180, 200 and 210, below all of the engine's |
| KMeans.RunKMeans | examples/data_mining.py:121-143 | the arrays updated in place end with the assignment of Lloyd's iteration from the sampled start |
| KMeans.Reassign | examples/data_mining.py:131-136 | one pass assigns every point its first nearest centroid and reports exactly whether anything changed |
| KMeans.Recentre | examples/data_mining.py:139-142 | moves each centroid with members to their mean and no other |
| KMeans.MoveDescends | examples/data_mining.py:139-142 | moving one centroid to the mean of its members never raises the total squared distance |
| KMeans.RoundDescends | examples/data_mining.py:129-142 | neither does a full round of reassigning and recentring |
| KMeans.LloydDescends | examples/data_mining.py:129-143 | nor any number of rounds |
| KMeans.SettledIsFixed | examples/data_mining.py:137-143 | on the exit without change every point is at its first nearest centroid and, unless the first round changed nothing, every centroid with members is their mean |
| KMeans.SizesAddUp | examples/data_mining.py:173-228 | the cluster sizes add up to the number of points, also with more clusters asked for than points |
| KMeansSettles.ReassignImproves | examples/data_mining.py:131-136 | strict descent: a reassignment lowers the cost, or keeps it and lowers the sum of the cluster indices, or changes nothing |
| KMeansSettles.RoundImproves | examples/data_mining.py:129-142 | from centred clusters, a round that changes the assignment makes it strictly better by its own cost and then its indices, so no assignment comes back |
| KMeansSettles.Settles | examples/data_mining.py:129-143 | termination: from any start the loop reaches its exit without change within one round more than there are ways to assign the points to the clusters |
| KMeansSettles.SettledStays | examples/data_mining.py:129-143 | a larger bound on the rounds does not change a settled result |
| KMeansSettles.DistByProducts | examples/data_mining.py:131-133 | the distance is the square of Euclid's, every coordinate counting alike |
| Pearson.CauchySchwarz | examples/data_mining.py:316-327 | the squared numerator is at most the product of the sums of squared deviations, with equality exactly for proportional deviations |
| Pearson.NoneExactly | examples/data_mining.py:316-326 | no correlation is returned if and only if there are fewer than two points or one list is constant |
| Pearson.CorrelationBound | examples/data_mining.py:316-327 | the correlation lies in [-1, 1], also after rounding, and is -1 or 1 exactly for proportional deviations |
| Correlations.CorrelationIsCovariance | examples/data_mining.py:316-327 | the correlation times the two standard deviations is the mean of the products less the product of the means |
| Correlations.LinearCorrelates | examples/data_mining.py:316-327 | a linear function of the other list gives 1 for a positive slope and -1 for a negative one, also after rounding |
| Correlations.CorrelationSymmetric | examples/data_mining.py:316-327 | the order of the two lists does not matter |
| Placement.BinPlacesAll | examples/cluster.py:644-660 | every node, and nothing else, is placed on one of the servers, even when a server is listed twice |
| Placement.BinIsEven | examples/cluster.py:644-660 | distinct nodes on distinct servers: the load of the server at place j is the quotient, plus one for places in the remainder |
| Placement.LoadsAddUp | examples/cluster.py:644-660 | the loads add up to the number of nodes |
| Placement.SwitchBinPlacer.CalculatePlacement | examples/cluster.py:662-690 | fails exactly without servers or with an isolated host, naming the first; otherwise every node is placed and a host sits with the switch it was linked to last |
| Placement.RoundRobinPlacer.Place | examples/cluster.py:615-626 | call number k is answered with server k modulo their number |
| Placement.TurnsEven | examples/cluster.py:619-626 | after any number of calls the turns of two servers differ by at most one |
| HostNames.CandidatesDiffer | examples/campus_topology.py:669-673 | different numbers give different candidates, even when the base is cut to make room |
| HostNames.TakenBounded | examples/campus_topology.py:668-674 | pigeonhole: no more candidates are taken than there are names |
| HostNames.FirstFree | examples/campus_topology.py:622-627 | the unbounded search terminates with the first free number, after at most as many tries as there are names |
| HostNames.CandidateShape | examples/campus_topology.py:669-674 | a numbered identifier is well-formed and within 20 characters if and only if its suffix is within 19 |
| HostNames.BaseIsHostId | examples/campus_topology.py:660-666 | any display name is cleaned to a well-formed identifier of at most 20 characters |
| HostNames.BaseExactly | examples/campus_topology.py:660-666 | the identifier is the words of the display name, the maximal runs of letters and digits, joined by underscores and cut to twenty characters, with a stand-in for no word and a prefix for a leading digit |
| HostNames.CandidateFills | examples/campus_topology.py:669-673 | a numbered identifier is base and suffix where they fit, and otherwise the suffix behind as much of the base as fills twenty characters |
| HostNames.Topology.AllocateHostId | examples/campus_topology.py:659-674 | returns a well-formed identifier that no host has: the base, or its first free number |
| HostNames.NewNameUnique | examples/campus_topology.py:659-674 | which determines the identifier: there is one for each display name and set of names |
| HostNames.NodeNameExactly | examples/campus_topology.py:659-674 | the new identifier is the name of another node if and only if the base is and no host has it yet, or the first free candidate is; only the former is possible when no node has an underscore in its name |
| HostNames.NodeClash | examples/campus_topology.py:2193-2251 | a call that gives a host the name of its switch |
| HostNames.Topology.NextDynamicIfname | examples/campus_topology.py:615-627 | returns the first unused interface name |
| HostNames.Topology.NextAvailableCampusIp | examples/campus_topology.py:676-689 | the first free address of 10.5.0.0/24, or none exactly when all 254 are used |
| HostNames.CampusAddress | examples/campus_topology.py:676-689 | the address given out is the first unused one from 10.5.0.1 to 10.5.0.254 |
| HostNames.MacTextExactly | examples/campus_topology.py:2221-2225 | a hardware address is accepted if and only if it is six pairs of hexadecimal digits with colons between |
| HostNames.InterfaceFits | examples/campus_topology.py:2231-2236 | every interface name fits the fifteen characters a network interface may have, and a name of up to ten characters is part of it |
| HostNames.Topology.AddHost | examples/campus_topology.py:2193-2251 | accepts exactly the valid requests: a name, a known node to attach to, an address given or free, positive bandwidth, no hardware address or a well-formed one; the new host has the identifier, interface and address of the allocators; a refused request changes nothing |
| HostNames.InterfaceTakenExactly | examples/campus_topology.py:2231-2236 | the interface name of an added host is taken if and only if its name is short and is the stem of a numbered interface that a host with a long name has |
| HostNames.AddingKeepsNamed | examples/campus_topology.py:2231-2236 | the invariant behind it, kept by every addition: short names have their own interface, long ones a numbered one |
| HostNames.InterfaceClash | examples/campus_topology.py:2231-2236 | two calls that give two hosts one interface name |

## Left out

- Sockets, Mininet process control, HTTP, the HTML page, files and their formats: a handler's
  input is the parsed content. Trimming and lower-casing of texts is taken as done before.
- Switches that disconnect or reconnect during a run, except in `AutomationLoop`: the other runs are over a fixed set of switches.
- Training and exploration of the agent, the reports, charts and `HostSwitchBinPlacer`.
- Port-scan detection, and the tests before an address is blocked: its packet rate, the exemption of probes and the pause after a security block. That an address is to be blocked is an input.
- Floating-point rounding error: floats are exact reals, and `round` rounds them exactly.
- DashboardService.Service.AssignDeviceVlan: the stored file is a well-formed policy, as the dashboard itself writes it; repairs of other shapes in the file are modelled in `VlanNormalizer` only.
- VlanMeaning.CompiledMeaning: no other flow that matches the frame has priority 380 or more; frames that a flood, attack or port-scan drop matches are that drop's, and a security policy can set its drops as high as 390.
- EndToEnd.DashboardToDataPlane: the same for the frame in question, and other components use neither the cookie nor the keys of VLAN rules; devices on ports outside the controller's list count as unmanaged, which is what the controller makes of them.
- RerouteController.Controller.ApplyActionHook: a message is well-formed; fields of a message that only reach the metrics file (reward, step count, action values, notes) are not part of the state.
- RerouteController.Controller.PacketInHandler: MAC learning and the flooding of unknown destinations, which add flows of priority 1, are not part of this model.
- RerouteLog.StepLogged: the log holds the protocol's own events; threshold-update, timetable and connection events are not part of it.
- AutomationLoop.EditsReachDataPlane: each write of the policy file gets a later time stamp than those before, a topology does not change during a run, and nobody but the dashboard writes the file.
- RerouteShadowed.PolicyWinsExactly: no other flow that matches the frame, besides the engine's, has priority 180 or more.
- RerouteFlows.FlowsAgree: no other flow of the controller has priority 180, 200 or 210 or the policy's cookie.
- RerouteSafety.BoundedResponse: the high threshold does not change, as the property promises; nothing is claimed about an eventual release.
- FloodDetector.OneLiveRule: a switch installs a rule within two seconds of its being recorded, the margin the code allows.
- RerouteFrames.FramesTreated: no other flow that matches the frame has priority 180 or more; the policy engine's flows do on every mapped switch, which is what `RerouteShadowed` is about.
- SecurityPolicy.CachedDropsSound: soundness only and under a fixed policy; packets that match a learned flow are never handed to the controller.
- SecurityNormalizer.NormalizePolicy: numbers and zones are given parsed, and all texts trimmed.
- KMeans.RunKMeans: the random sample is an input; an empty list of points, which the code does not accept, is excluded.
- Pearson.CorrelationBound: lists of equal length, and standard deviations given as exact square roots.
- HostNames.Topology.AddHost: a given address is taken as parsed, and the category and the delay of the link are not part of this model; letters outside ASCII count as separators.
