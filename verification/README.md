# linuxptp, verified

A Dafny model of the decision and estimation cores of linuxptp, an implementation
of IEEE Std 1588-2008. `dafny verify dfyconfig.toml` checks all of it.

The project has five parts. Each has pure specifications, classes and methods that
change in place as the C code does and are proved to refine them, and theorems
about the specifications over all inputs or runs.

1. **Best master clock algorithm.** `Octets`, `Bmc`, `Fsm`, `ForeignMasters`,
   `Port`, `PortTheory`, `Clock`, `ClockTheory`, `ClockMachine`, `DecisionTheory`. The
   comparison of data sets is shown to be an order, and exactly when it is not. A
   clock is a step machine: Announces, timers, faults and decisions in any order.
   `RunKeepsInv` is its safety over every run, and `TakeAll` ties the objects to it.
   An Announce that asks for no decision leaves the choice of a master alone
   (`UnaskedIsUnchanged`), and a port recovers from faults (`RecoversFromFault`).
   `Network` and `NetworkTheory` put clocks together: whenever no clock wants to
   change anything, each link has one transmitting end and the network is spanned by
   shortest path trees of the best clocks (`OneTransmitterPerLink`,
   `ShortestPathTree`). `NetworkStages`, `NetworkSettling` and `NetworkConvergence` are
   about rounds, in which all clocks decide and then every port comes to know what its
   far end sends: from any state, rounds end in a state of rest (`Converges`, 517 of
   them if every clock is within 255 links of the best one), for every network
   (`AlwaysConverges`).
   `PortHearing`, `PortListening`, `PortForgetting`, `NetworkProgress` and
   `NetworkStuck` are about the steps that make a round: exactly when the clocks can
   take them (`RoundExactly`), that they can once what they stored has expired, and so
   come to rest (`StepsToRest`), and a record that never expires (`NeverExpires`).
   `NetworkUniqueness` shows that every network has one state of rest only
   (`OneStateOfRest`).
   `NetworkChain` has lines of every length up to the one that exhausts the number of
   steps; `NetworkMixed` and `NetworkTriangle` are about links with transparent clocks.
2. **Transparent clock and offset.** `TransparentClock`, `TcMachine`, `TcTheory`,
   `TcRuns`, `TcPassage`, `ForwardingTheory`, `Tsproc`, `OffsetChain`, `OffsetModes`,
   `PeerDelay`, `PeerTheory`. Residence times are added exactly once per egress port in
   any order of messages, through any number of clocks, end-to-end or peer-to-peer, and
   the slave measures its true offset (`OffsetThroughChain`, `OffsetThroughPeers`), in
   every mode of time stamp processing (`SteadyOffset`). What a port synchronizes with,
   and every sample of a peer delay, comes from its parent and from its own requests over
   any run (`SynchronizesWithParent`, `SamplesAreAnswered`). Transparent clocks that relay Announces along the tree
   cannot forward a message in a loop (`NoForwardingLoop`).
3. **Filters and statistics.** `CircularBuffer`, `MovingMedian`, `MedianFilter`,
   `MovingAverage`, `Stats`. The incremental forms equal the batch definitions.
4. **Servos and leap seconds.** `LeastSquares`, `Linreg`, `LinregServo`, `LinregErrors`,
   `LinregTime`, `Servo`, `PiServo`, `PiTheory`, `LeapSecond`. Five windows share their
   sums, and each keeps the least squares line of exactly its points while the reference
   moves, and the average of its prediction errors (`ErrIsAverage`); the reference loses
   no fraction of the time over any run (`RunKeepsTime`); the PI servo obeys its control
   law (`ControlLaw`); frequencies are bounded; without a step threshold a servo jumps
   once at most in any run; the UTC offset is right, with two exactly stated exceptions.
5. **Wire format.** `Flips`, `Tlv`, `Suffix`, `SuffixBuffer`, `Wire`, `Declarations`.
   Conversion in place, the walk over TLVs, and the round trip of whole messages. What is
   converted is what the packed structs declare (`MessagesAsDeclared`, `TlvsAsDeclared`).

`Lists`, `CArith` and `RealArith` hold what the others share: filtering of
sequences, C's truncating division, and products of reals.

Where the code does not do what its documentation or the standard promises, the
model follows the code, and the exact condition is proved:

- `dscmp` is no order if one grandmaster is announced with different attributes
  (`DscmpCycle`, `DscmpOrderExactly`).
- A clock 255 steps or more from its grandmaster transmits, and the far end, which
  ignores it, may transmit too (`OneTransmitterPerLink`, with a line of 257 clocks in
  `ChainRests`). At rest a clock that is more than 255 links away from the best clock
  of its component does not follow it (`OneGrandmasterExactly`).
- An Announce that claims an interval of 2^32 seconds or more never expires
  (`ExpiresExactly`). A port that follows such a sender keeps it as its best master
  after it has gone, until the announce receipt timer makes the port a master
  (`NeverExpires`); the exact condition is that of `RoundExactly`.
- Behind transparent clocks the tie between equally near clocks is not broken between
  the ends of a link, but with the sender of what is relayed, so that both ends may
  transmit (`BothTransmit`); exactly when is stated in `BothTransmitExactly`.
- The current master can be heard again with the same contents after all but one of its
  Announces have expired: its record becomes qualified once more, and no decision is
  asked for (`ReturnsUnasked`).
- In the raw modes of time stamp processing the peer delay mechanism mixes the time
  stamps of the Sync with those of the request to the peer, so that the offset lacks half
  of what the peer's clock is ahead of the master's (`RawTrustsPeer`).
- The comment in `leap_second_status` splits updates at six hours after midnight.
  If no query falls into those hours, a leap that was seen is not cleared, and the
  offset is wrong until a query does (`GapKeepsLeap`, `CorrectedOffset`). The offset
  is also wrong if a master switches early and its announcement was never seen
  (`EarlySwitchUnseen`).
- `scaled_ns_n2h` and `scaled_ns_h2n` build the last word of a ScaledNs from its
  first one, so that most do not survive (`PhaseChangeIsLost`, `ValueRoundTrip`).
- `msg_pre_send` converts the time stamps of four message types only; those of Sync,
  Delay_Req, Pdelay_Req and Announce, and the target of a signaling message, are sent
  as they are stored (`HeadIsBigEndian`).

## Model

| member | source | states |
|---|---|---|
| `Octets.MemcmpAntisymmetric` | bmc.c:83-85 | Octet comparison changes sign when its arguments are exchanged and is zero exactly on equal strings. |
| `Octets.MemcmpTransitive` | bmc.c:83-85 | Octet comparison is transitive, strictly when one step is strict. |
| `DataSets.PidCmpZero` | port.c:150-153 | Comparing port identities octet by octet decides their equality, and is antisymmetric. |
| `DataSets.PidCmpTransitive` | bmc.c:31-55 | The tie-break on port identities is transitive. |
| `Bmc.CompareAntisymmetric` | bmc.c:72-116 | Both comparisons are negated by exchanging their arguments, null pointers and the TOPO codes included. |
| `Bmc.Dscmp2Key` | bmc.c:24-70 | The topology comparison is the octet order of (stepsRemoved, sender, receiving port), if no receiver is its own sender. |
| `Bmc.CompareIsKeyOrder` | telecom.c:26-73 | Each profile's nested tests implement one lexicographic order of a reference key, if no receiver is its own sender and, for the IEEE profile alone, equal grandmasters have equal attributes. |
| `Bmc.CompareTransitive` | bmc.c:72-116 | "Not worse than" is a total preorder on comparable data sets, for both profiles. |
| `Bmc.DscmpCycle` | bmc.c:72-116 | Without equal attributes there are three data sets each of which beats the next. |
| `Bmc.DscmpDifferentIdentity` | bmc.c:85-116 | Between different grandmasters the attributes and the identity alone decide, strictly. |
| `Bmc.DscmpOrderExactly` | bmc.c:72-116 | Two data sets of one grandmaster leave the comparison transitive beside every third one that is not its own sender, in all arrangements, if and only if their attributes are equal or prefer the same one as the topology does. |
| `Bmc.AgreementIsOrdered` | bmc.c:72-116 | The if direction, for a third data set of another grandmaster. |
| `Bmc.SameIdentityOrdered` | bmc.c:24-70 | Three data sets of one grandmaster are always in order, whatever their attributes. |
| `Bmc.NotOrdered` | bmc.c:72-116 | Where attributes and topology disagree there is a third data set that closes a cycle. |
| `Bmc.SilentExactly` | bmc.c:118-153 | When a port is recommended not to transmit under the IEEE comparison, in both directions: class 127 or less, the one best port, and the ports that lose the tie for the same grandmaster. |
| `Fsm.SlaveMachineListens` | fsm.c:222-337 | The slave only machine is the full machine, sent back to LISTENING wherever that one would leave the slave only states. |
| `Fsm.EntersExactly` | fsm.c:21-220 | Exactly which events make a port a slave, make it transmit, and take it out of operation. |
| `Fsm.FaultyExactly` | fsm.c:21-220 | A fault makes every port in operation faulty, from the same step on, and nothing else does; what leaves that state. |
| `Fsm.DisabledExactly` | fsm.c:21-220 | A port is disabled by DESIGNATED_DISABLED only, from every state, and stays so until it is enabled, initialized or powered up. |
| `Fsm.InitializingExactly` | fsm.c:21-220 | Exactly which events start an initialization, from every state. |
| `Fsm.RecommendationsExactly` | fsm.c:21-220 | Where each recommendation leads from each state in operation. |
| `Fsm.OtherEventsExactly` | fsm.c:21-220 | Where the timers, a selected master and a synchronization fault lead, and that nothing else changes a working port. |
| `ForeignMasters.Pruned` | port.c:266-288 | Pruning keeps the newest messages, at most two, of which the last is current, and drops only what is not. |
| `PortBmc.ForeignClock.constructor` | port.c:338-354 | A new record does not store the Announce that caused it. |
| `PortBmc.ForeignClock.Clear` | port.c:254-264 | Clearing empties a record's list and keeps its counter in step. |
| `PortBmc.ForeignClock.Prune` | port.c:266-288 | The two loops leave the pruned list, with the counter equal to its length. |
| `PortBmc.ForeignClock.Push` | port.c:364-369 | An Announce is stored at the head. |
| `PortBmc.Port.FindForeignMaster` | port.c:333-337 | The first record of the sender is found. |
| `PortBmc.Port.AddForeignMaster` | port.c:327-380 | Insertion of new senders, pruning and storing for known ones, and whether the decision is due; every other record and the best record are unchanged. |
| `PortBmc.Port.UpdateCurrentMaster` | port.c:1642-1675 | An Announce of the current master is stored in its record, any other as for a foreign master. |
| `PortBmc.Port.ProcessAnnounce` | port.c:1687-1716 | Dispatch on the port state, with 255 steps or more ignored. |
| `PortBmc.Port.ScanOne` | port.c:2209-2225 | One turn of the scan: refresh, prune, qualify, compare, and clear the loser. |
| `PortBmc.Port.ComputeBest` | port.c:2196-2229 | The whole scan, which clears records while it runs, has the value of its specification; none for a masterOnly port. |
| `PortBmc.Port.Disable` | port.c:1534-1554 | Disabling drops all records and the best one. |
| `PortBmc.Port.Dispatch` | port.c:2912-2950 | State update with immediate fault clearing, initialization, and the disabling that a change of state brings. |
| `PortBmc.Port.ClearBest` | port.c:2414-2424 | The announce receipt timer empties the current master's record. |
| `PortTheory.StoredKeepsInv` | port.c:359-369 | A stored record holds at most three messages of its own sender, all less than 255 steps away, fewer than were received. |
| `PortTheory.ForeignMasterKeepsInv` | port.c:327-380 | The invariant of a port is kept, and its best record stays in its own list. |
| `PortTheory.AnnounceKeepsInv` | port.c:1687-1716 | The same for every Announce of another clock, in every state. |
| `PortTheory.ClearedBestKeepsInv` | port.c:254-264 | The same when the current master's record is cleared. |
| `PortTheory.DispatchKeepsInv` | port.c:2912-2950 | The same for every event; a port that is out of operation has no records. |
| `PortTheory.RecoversFromFault` | port.c:2912-2950 | A fault and its clearing bring a port in any state of operation back to LISTENING without records, with immediate clearing in one step. |
| `PortTheory.FaultStays` | port.c:2912-2950 | Without immediate clearing a port stays faulty until it is cleared, initialized, powered up or disabled. |
| `PortTheory.DisabledUntilEnabled` | port.c:2912-2950 | A disabled port comes back by being enabled, initialized or powered up only. |
| `PortTheory.DecisionDueExactly` | port.c:327-380 | An Announce asks for a decision if and only if its record is qualified afterwards and was not before, or its contents changed; as long as the newest stored Announce did not expire before an older one. |
| `DecisionTheory.NoDecisionExactly` | port.c:59-70 | For a record that is qualified before and after, no decision is due if and only if its data set keeps its priorities, grandmaster, quality and steps. |
| `DecisionTheory.UnaskedIsUnchanged` | port.c:327-380 | An Announce that asks for no decision leaves the clock's choice as it would have been, unless it is the return of the current master. |
| `DecisionTheory.ReturnsUnasked` | port.c:1642-1675 | The current master, heard again with the same contents after all but one of its Announces expired, becomes qualified once more without a decision being asked for. |
| `PortTheory.ScanWinner` | port.c:2208-2226 | The best record was qualified and keeps its messages; there is none only if no record was qualified. |
| `PortTheory.ScanStep` | port.c:2208-2226 | The choice in terms of the records before the scan, although losers are cleared during it. |
| `PortTheory.ScanIsBest` | port.c:2196-2229 | No qualified record of the list beats the one that the scan returns. |
| `PortTheory.ScanKeepsRecords` | port.c:2208-2226 | The scan removes messages only. |
| `PortTheory.ScanLeaves` | port.c:2208-2226 | What the scan leaves of each record: all its messages are dropped exactly if it is qualified and does not beat the best before it. |
| `PortTheory.BestKeepsInv` | port.c:2196-2229 | Computing the best keeps the invariant and the port state. |
| `PortTheory.BestRecord` | port.c:2196-2229 | The best record keeps two Announces, its sender has sent three since the record was created, and its data set is that of the newest. |
| `ClockTheory.MachineEntersNoFollowing` | fsm.c:21-220 | Without a recommendation no machine enters PASSIVE, UNCALIBRATED or SLAVE from another state, or UNCALIBRATED and SLAVE from outside them. |
| `ClockTheory.MachineFollowsRecommendation` | fsm.c:222-337 | After a recommendation a port is in UNCALIBRATED or SLAVE only if that was RS_SLAVE, and PASSIVE only if it was RS_PASSIVE. |
| `ClockTheory.RoleTaken` | fsm.c:21-220 | What a port in operation makes of the role a decision gives it, from each state. |
| `ClockTheory.RecommendationFacts` | bmc.c:118-153 | SLAVE goes to the port of the clock's best record only, PASSIVE only to ports with a best record. |
| `ClockTheory.NoSlaveBesideGrandMaster` | bmc.c:132-152 | No decision recommends SLAVE to one port and GRAND_MASTER to another. |
| `ClockTheory.Turns` | clock.c:1760-1788 | After any number of turns of the second loop the records are unchanged and no port but the best one synchronizes. |
| `ClockTheory.DecisionKeepsInv` | clock.c:1717-1789 | A decision keeps the invariant of the clock; afterwards only the port of the best record can be UNCALIBRATED or SLAVE. |
| `ClockTheory.SlaveStaysExactly` | clock.c:1746-1788 | A port is SLAVE after a decision if and only if it was before, is recommended to be, and the grandmaster is the same; a new one sends it back to UNCALIBRATED. |
| `ClockTheory.StepKeepsInv` | clock.c:1468-1540 | Every step (Announce, timeout, other event, decision) keeps the invariant. |
| `ClockTheory.RunKeepsInv` | clock.c:1468-1540 | After every run: at most one port UNCALIBRATED or SLAVE, a following port has a best record in its own list, records of at most three messages, stepsRemoved at most 255. |
| `ClockTheory.SelectedSender` | port.c:338-369 | After any run, the sender a decision selects has announced at least three times since its record was created. |
| `ClockTheory.ClockBestIsBest` | clock.c:1724-1730 | The choice among the ports' best data sets is not beaten by any of them. |
| `ClockTheory.DecisionChoosesBest` | clock.c:1724-1730 | The two-level choice is not beaten by any qualified record of any port. |
| `ClockMachine.Clock.constructor` | clock.c:852-1142 | A new clock is its own grandmaster, with ports in INITIALIZING. |
| `ClockMachine.Clock.Choose` | clock.c:1724-1730 | The first loop over the ports. |
| `ClockMachine.Clock.ChooseBest` | clock.c:1724-1758 | The best record, its identity, and whether it names a new grandmaster. |
| `ClockMachine.Clock.Recommend` | bmc.c:118-153 | The recommendation, from the data sets that the objects hold. |
| `ClockMachine.Clock.UpdateGrandmaster` | clock.c:622-637 | The clock announces itself, zero steps away. |
| `ClockMachine.Clock.UpdateSlave` | clock.c:639-663 | The clock announces its master's grandmaster, one step further away. |
| `ClockMachine.Clock.DecideAll` | clock.c:1760-1788 | The second loop: each port takes its role in turn. |
| `ClockMachine.Clock.HandleStateDecisionEvent` | clock.c:1717-1789 | The whole decision, in place, is the step of the specification that the invariants are proved about; records are the old ones or new. |
| `ClockMachine.Clock.OnAnnounce` | port.c:2407-2540 | Delivery of an Announce is a step of the specification. |
| `ClockMachine.Clock.OnAnnounceTimeout` | port.c:2414-2426 | So is the announce receipt timeout, with the fault of a slave only port that cannot renew its transport. |
| `ClockMachine.Clock.OnPortEvent` | port.c:2318-2344 | So is every other event. |
| `ClockMachine.Clock.FollowingHasBest` | port.c:1642-1648 | The pointer that update_current_master() follows without a check is not null in any reachable state. |
| `ClockMachine.Clock.Take` | clock.c:1468-1540 | One step of any kind, in place, and that another can follow it. |
| `ClockMachine.Clock.TakeAll` | clock.c:1468-1540 | Any list of steps, from any state that meets the invariant, leaves the objects in the state that the run of the specification has; every port that follows a master then has a best record in its own list. |
| `Network.AllTurns` | clock.c:1760-1788 | The turns of one decision together set the states and, consistently, the data sets that are announced. |
| `Network.QuietIsSettled` | clock.c:1717-1789 | What a clock at rest amounts to: a root announces itself on every port, any other follows one port, takes over its sender as parent and announces its grandmaster one step further away. |
| `NetworkTheory.Parent` | clock.c:639-663 | A clock that is not a root has a neighbour that announces the same grandmaster one step nearer. |
| `NetworkTheory.ReachesRoot` | clock.c:639-663 | Following parents reaches the announced grandmaster in stepsRemoved steps. |
| `NetworkTheory.SameGrandmaster` | port.c:1318-1364 | In a quiescent network one grandmaster identity stands for one set of attributes, which is what the comparison needs. |
| `NetworkTheory.HeardBest` | port.c:2196-2229 | The data set a clock follows is not beaten by any that it hears. |
| `NetworkTheory.TransmitterPrefers` | bmc.c:132-152 | A port that hears its far end transmits only if its clock announces a better grandmaster, or the same from nearer, or wins the tie. |
| `NetworkTheory.OneTransmitterPerLink` | bmc.c:118-153 | In every quiescent network exactly one end of each link transmits Announces if and only if no transmitting clock is 255 steps or more away. |
| `NetworkTheory.LinkAgrees` | bmc.c:24-70 | The ends of a link announce the same grandmaster, from distances that differ by one at most. |
| `NetworkTheory.WalkAgrees` | bmc.c:24-70 | Along any walk the grandmaster is the same, and the distance grows by one per link at most. |
| `NetworkTheory.RootIsBest` | bmc.c:72-116 | A root's default data set beats that of every clock that announces it. |
| `NetworkTheory.ShortestPathTree` | clock.c:1717-1789 | Each component has one root, its best clock; from every clock the parents lead there along a shortest path of stepsRemoved links. |
| `NetworkChain.ChainRests` | clock.c:1717-1789 | Lines of 2 to 257 clocks, of which any but the ends may be transparent, are at rest; in the longest one clock 255 steps away transmits and so does its far end, in all others exactly one end of each link does. |
| `NetworkChain.SyncGoesDown` | tc.c:54-118 | Through any row of transparent clocks of such a line Syncs are forwarded. |
| `NetworkMixed.AnEndTransmits` | bmc.c:118-153 | In a network of boundary and transparent clocks at rest at least one end of each link transmits. |
| `NetworkMixed.FollowerTransmitsExactly` | bmc.c:118-153 | A port of a clock that follows another, boundary or transparent, and that hears something, transmits if and only if its clock announces another grandmaster, or the same from nearer, or from as far and the port has a lower identity than the sender of what it hears. |
| `NetworkMixed.BothTransmitExactly` | bmc.c:24-70 | Both ends of a link between two such clocks transmit if and only if they announce the same grandmaster from the same distance and each has a lower identity than the sender of what comes from the other; between boundary clocks they never do. |
| `NetworkTriangle.BothTransmit` | tc.c:383-406 | A network at rest in which they do: two transparent clocks that hear one master and each other. |
| `NetworkStages.NextIsSounder` | port.c:1687-1690 | One round of Announces makes every claim that cannot be traced to a clock one step older, until it is too old to be heard. |
| `NetworkStages.BestLeads` | bmc.c:132-152 | The best clock of a component considers itself the grandmaster, whatever it hears from clocks whose claims can be traced. |
| `NetworkStages.Adopts` | clock.c:639-663 | A clock that hears of the best clock of its component announces it, one step further away at most. |
| `NetworkStages.SilentTowards` | bmc.c:143-152 | A port is silent only towards a clock that announced the same grandmaster and wins by steps or by port identity. |
| `NetworkStages.TransmitsAgainst` | bmc.c:24-70 | A port that hears the same grandmaster transmits only if it wins so itself. |
| `NetworkStages.OutranksHeard` | bmc.c:72-116 | A clock that hears of another grandmaster announces a better one. |
| `NetworkSettling.PhantomsDie` | port.c:1687-1690 | After 256 rounds every grandmaster announced in a region that hears nothing from outside is a clock of the region, as many steps away as some walk through it is long, whatever was announced before. |
| `NetworkSettling.DistancesGrow` | clock.c:639-663 | From then on the best clocks of the region are heard one link further with every round. |
| `NetworkSettling.BeyondIsShut` | port.c:1687-1690 | Where all clocks within reach of the best ones announce these, the clocks beyond hear nothing of them. |
| `NetworkSettling.LayersSettle` | clock.c:639-663 | So one layer after the other comes to announce the best clock of what remains, from its distance. |
| `NetworkSettling.ClaimsAgree` | clock.c:639-663 | Claims that are true in every layer are unique. |
| `NetworkSettling.Rules` | bmc.c:118-153 | Once claims are steady, who transmits on a link follows from them. |
| `NetworkConvergence.TurnedStays` | fsm.c:21-220 | A port that is told the same again keeps its state, and no timer changes it. |
| `NetworkConvergence.QuietAgain` | clock.c:1717-1789 | A clock that hears the same again changes neither its choice, nor a port state, nor what it announces. |
| `NetworkConvergence.Converges` | clock.c:1717-1789 | Rounds in which all clocks decide and then every port comes to know exactly what leaves its far end: whatever state the clocks begin in, as long as it keeps the invariant of RunKeepsInv and all ports are in operation, a network is quiescent after 513 of them for each layer (the clocks within 255 links of the best one of what remains of their component) and four more, and stays so. |
| `NetworkConvergence.ConvergesWithinReach` | clock.c:1717-1789 | If every clock is within 255 links of the best one of its component, 517 rounds are enough, whatever the size of the network. |
| `NetworkConvergence.AlwaysConverges` | port.c:1687-1690 | Every network comes to rest, also those in which some clocks are too far from the best one to hear of it: there are no more layers than clocks. |
| `PortListening.ThreeAreEnough` | port.c:327-380 | Whatever a port has heard before, after three Announces of one sender that one is its best master, unless something better that it knows has not expired. |
| `PortListening.WaitsInVain` | port.c:2414-2426 | A port that hears nothing has no best master once its timer has expired, unless it knows others who have not. |
| `PortListening.StepDrifts` | port.c:2407-2540 | What else can happen while a port listens touches no record but the sender's, as long as its timer does not expire; then its port is a master and its best record is empty. |
| `PortForgetting.ExpiresExactly` | port.c:122-140 | An Announce expires at some time if and only if it claims an interval of less than 2^32 seconds. |
| `PortForgetting.CurrentExactly` | port.c:122-140 | An Announce is current while four of its intervals have not passed, for every logarithm of the interval. |
| `PortForgetting.StepExpires` | clock.c:1468-1540 | If all that a clock knows, and all that it receives, expires by some time, so does all that it knows after any step. |
| `NetworkProgress.RoundByExpiry` | clock.c:1468-1540 | If what each port knew before has expired in time, or is worse than what it hears, steps of the clocks (a decision, qualification timeouts, three Announces per port, announce receipt timeouts) make a round. |
| `NetworkProgress.RoundExactly` | clock.c:1468-1540 | The clocks can take steps that make a round if and only if that holds on every port, where a port that hears nothing may still know a best master whom its timer makes it forget; as long as what is known can be compared. |
| `NetworkProgress.RunsGoOn` | clock.c:1468-1540 | Clocks whose stored Announces all expire can go on so for as long as one likes, with a round every four seconds after the first. |
| `NetworkProgress.ForgetsExactly` | port.c:122-140 | There is a time by which everything that is stored has expired if and only if no stored Announce claims an interval of 2^32 seconds or more. |
| `NetworkProgress.StepsToRest` | clock.c:1717-1789 | From any state in which all ports work and whatever is known expires, the clocks of a network can take steps, one message or timer at a time, that bring it to rest. |
| `NetworkStuck.NeverExpires` | port.c:122-140 | Two clocks one of which follows a sender that is gone, whose last Announces claim an interval of 2^32 seconds: no steps of theirs ever make a round. |
| `NetworkProgress.RestExists` | clock.c:1717-1789 | Every network has a state of rest, at any time. |
| `PortHearing.ThreeAnnounces` | port.c:327-380 | A port that knows nobody has a sender as its best after three Announces, and not before. |
| `NetworkUniqueness.OneStateOfRest` | clock.c:1717-1789 | And only one, within reach or not: in any two quiescent states every clock announces the same grandmaster from the same distance, the same ports transmit and the same ports follow a master. |
| `NetworkUniqueness.OneGrandmasterExactly` | port.c:1687-1690 | A network at rest has one grandmaster per component if and only if every clock is within 255 links of the best one. |
| `NetworkUniqueness.ShallowIsWithinReach` | port.c:1687-1690 | Where no transmitting clock is 255 steps away, every clock is within reach of the best one. |
| `NetworkUniqueness.OneDestination` | clock.c:1717-1789 | Two runs of rounds of one network, from any two states, end alike. |
| `TransparentClock.AnswersAreIndependent` | tc.c:140-175 | Answering one egress port does not change what another is answered. |
| `TransparentClock.OthersDoNotInterfere` | tc.c:177-236 | Traffic of other messages neither adds nor removes what is stored for one. |
| `TransparentClock.KeyIsEnough` | tc.c:334-353 | What is stored for a message determines how it is completed. |
| `TransparentClock.Projection` | tc.c:177-236 | What a port sends and keeps for a message, among any traffic, is determined by the events of that message alone. |
| `TransparentClock.PairCompletesOnce` | tc.c:177-236 | A Sync and its Follow_Up, in either order and among any traffic, send exactly one Follow_Up, with the residence time in this egress port, the ingress peer delay and asymmetry added; nothing is left behind. |
| `TransparentClock.RequestAnsweredOnce` | tc.c:120-175 | A Delay_Req and its response send that response exactly once, with the residence time added. |
| `TcMachine.TcPort.SearchSyfup` | tc.c:186-206 | The first entry that matches is found. |
| `TcMachine.TcPort.SendCorrected` | tc.c:221-232 | The message is sent with the increased correction, and the shared buffer is restored. |
| `TcMachine.TcPort.CompleteSyfup` | tc.c:177-236 | Completion in place, on messages that several ports share, leaves every correction as it was. |
| `TcMachine.TcPort.Complete` | tc.c:238-253 | Dispatch on the message type. |
| `TcMachine.TcPort.CompleteResponse` | tc.c:140-175 | The response leaves by the other port with the request's residence time, and its correction is restored. |
| `TcMachine.AnswerIsOwn` | tc.c:428-441 | A port is answered with its own residence time, whichever ports were answered before. |
| `TcMachine.AnswerStep` | tc.c:428-441 | One turn of the forwarding loop. |
| `TcMachine.Bridge.CompleteAll` | tc.c:288-308 | Each unblocked port completes the message with its own residence time; no port sees another's. |
| `TcMachine.Bridge.FwdEvent` | tc.c:266-311 | An event message leaves by every unblocked port and is completed there. |
| `TcMachine.Bridge.FwdFolup` | tc.c:408-421 | A Follow_Up is completed for every unblocked port. |
| `TcMachine.Bridge.FwdResponse` | tc.c:428-441 | Each unblocked port sends the response with the residence time of its own request. |
| `TcMachine.Bridge.FwdSync` | tc.c:443-473 | A one-step Sync is made two-step and its Follow_Up is forwarded behind it; the messages it leaves with the ports are the old ones, this one, or new. |
| `TcMachine.OneStepConverted` | tc.c:443-473 | A one-step Sync leaves as a two-step Sync with its correction untouched and one Follow_Up with its time stamp and residence time. |
| `TcRuns.RunHandled` | tc.c:177-236 | Over any run of messages by any ports, the list of each port is what handling its own traffic leaves. |
| `TcRuns.RunSendsFollowUps` | tc.c:177-236 | And the Follow_Ups it sends for one Sync are those that its list gives. |
| `TcRuns.RunSendsResponses` | tc.c:140-175 | The responses a port sends to one Delay_Req are those that the list of the port they come in by gives. |
| `TcRuns.SettingsOverRun` | tc.c:408-473 | Over any run messages leave the state of a port, its peer delay and its asymmetry alone. |
| `TcPassage.PairCrossesBridge` | tc.c:177-236 | A two-step Sync and its Follow_Up come in by one port in either order, among any other messages by any ports, and neither is blocked towards an egress port when it comes in: that port sends one Follow_Up for them, with its own residence time. |
| `TcPassage.ResponseCrossesBridge` | tc.c:120-175 | A Delay_Req and its response come in by two ports, and neither is blocked towards the other one when it comes in: the port the request came in by sends that response once, with the residence time of the request. |
| `TcRuns.TakeAll` | tc.c:266-473 | The objects of a clock that takes any list of messages end as the run of the specification. |
| `TcTheory.ForwardsAlongTree` | tc.c:54-118 | In any reachable state a message in the domain passes between two ports if and only if it follows the tree: Delay_Req from a transmitting to the synchronizing port, all else the other way. |
| `TcTheory.OneWayThrough` | tc.c:54-118 | There is one port by which a Delay_Req can leave and one by which anything else can enter. |
| `TcTheory.PassesExactly` | tc.c:54-118 | What passes between two ports in any state, with and without the spanning tree, in the clock's domain and outside. |
| `ForwardingTheory.SynchronizesByBest` | bmc.c:143-152 | In a network at rest the port that synchronizes is the one with the data set the clock follows. |
| `ForwardingTheory.RelaysFollowed` | tc.c:383-406 | What leaves a transparent clock is the Announce its synchronizing port follows, of the same sender, one step further away. |
| `ForwardingTheory.AnnounceComesFrom` | tc.c:383-406 | Followed back along transparent clocks, an Announce comes from a boundary clock, with as many steps more as it passed links. |
| `ForwardingTheory.HopChangesDepth` | tc.c:54-118 | From one transparent clock to the next a message changes the distance from the grandmaster by one: the one clock follows what the other relays. |
| `ForwardingTheory.NoForwardingLoop` | tc.c:383-406 | In a network of boundary and transparent clocks at rest, of any shape, no forwarded message visits a clock twice, as ptp4l.8 promises of tc_spanning_tree. |
| `Tsproc.CorrectionAdds` | tmv.h:88-93 | Whole nanoseconds of a correction pass through the shift, negative corrections included. |
| `Tsproc.Weight` | tsproc.c:217-225 | An offset counts in full, except if its raw delay exceeds a positive filtered one. |
| `Tsproc.TsProc.GetRawDelay` | tsproc.c:124-146 | The raw delay, with the rate ratio applied to the local interval. |
| `Tsproc.TsProc.UpdateDelay` | tsproc.c:148-179 | One sample for the filter, or failure without the time stamps. |
| `Tsproc.TsProc.UpdateOffset` | tsproc.c:181-228 | The offset and weight in each of the four modes, or failure. |
| `Tsproc.TsProc.Reset` | tsproc.c:230-242 | Time stamps are forgotten, the filter only by a full reset. |
| `OffsetModes.OffsetInEveryMode` | tsproc.c:181-228 | In each of the four modes: when there is an offset, what it is wrong by in terms of the true times, and its weight. |
| `OffsetModes.DelayInEveryMode` | tsproc.c:148-179 | The same for the delay: the mean of the link goes to the filter, and what is returned. |
| `OffsetModes.SteadyOffset` | tsproc.c:181-228 | Over a link of constant delays, with a filter that keeps equal samples, the offset in every mode is wrong by half the asymmetry that is not configured. |
| `OffsetModes.MedianSteadies` | mmedian.c:44-77 | The moving median is such a filter. |
| `OffsetModes.AverageSteadies` | mave.c:41-53 | The moving average is such a filter. |
| `OffsetModes.RawWithRatio` | tsproc.c:124-146 | With any rate ratio the raw delay is half the scaled round trip to within a nanosecond. |
| `OffsetModes.RatioMeasuresLink` | tsproc.c:124-146 | With the true ratio of the rates the raw delay is that of the link to within a nanosecond. |
| `OffsetChain.SyncReceiver.ProcessSync` | port.c:2129-2174 | Ignored unless the port synchronizes and the Sync is of the parent; else asymmetry, one-step Syncs, and matching with a Follow_Up that came first. |
| `OffsetChain.SyncReceiver.ProcessFollowUp` | port.c:1837-1874 | The same checks, and matching with a Sync that came first, by sequenceId. |
| `OffsetChain.EitherOrder` | port.c:1129-1206 | A Sync and its Follow_Up synchronize once, with the same arguments in either order. |
| `OffsetChain.SynchronizesWithParent` | port.c:1129-1206 | Over any run each synchronization comes from a Sync, and its Follow_Up, that the parent of the time sent while the port synchronized, and each Sync gives one at most. |
| `OffsetChain.FollowUpThroughChain` | tc.c:177-236 | Behind any number of transparent clocks the Follow_Up differs by the total residence time of its Sync, and by what is added for the links, only. |
| `OffsetChain.ResponseThroughChain` | tc.c:140-175 | The same for a Delay_Resp and its Delay_Req. |
| `OffsetChain.DepartureThroughChain` | port.c:1098-1104 | The corrected departure time grows by exactly the residence times and what is added for the links. |
| `OffsetChain.OneStepDeparture` | tc.c:443-473 | A one-step Sync converted on the way gives the same departure time as one that was corrected itself. |
| `OffsetChain.OffsetArithmetic` | tsproc.c:124-146 | The offset in terms of the true times, with C's division. |
| `OffsetChain.OffsetThroughChain` | tsproc.c:181-228 | Through any two chains of transparent clocks the offset is wrong by half the residual path asymmetry, rounded, and right if the configured asymmetry matches in whole nanoseconds. |
| `OffsetChain.OffsetThroughPeers` | tc.c:177-236 | Through any row of peer-to-peer transparent clocks that know the delays of their links the offset is wrong by what the slave does not know of its own link only. |
| `OffsetChain.RawTrustsPeer` | tsproc.c:124-146 | In the raw mode with peer delays half of the difference between the clocks of the peer and the master is missing from the offset. |
| `PeerDelay.Port.PdelayRequest` | port.c:1208-1258 | A new request forgets the answers to the one before, or fails if it cannot be sent and time stamped. |
| `PeerDelay.Port.PeerDelay` | port.c:1998-2068 | The checks, the four time stamps, and that a request that gave a sample is dropped. |
| `PeerDelay.Port.ProcessResp` | port.c:2070-2112 | Responses, with the count of requests that several peers answered; exactly which are refused with a fault. |
| `PeerDelay.Port.ProcessFup` | port.c:2114-2127 | Follow-ups are kept while a request is pending. |
| `PeerDelay.OneSampleEach` | port.c:2062-2067 | Over any interleaving of requests, responses and follow-ups each request gives at most one sample. |
| `PeerDelay.EitherOrder` | port.c:1998-2068 | Response and follow-up give the same sample in either order. |
| `PeerDelay.MeasuresLink` | port.c:1998-2068 | With equal rates and any configured asymmetry the sample is the mean delay of the link, whatever the peer's offset and turnaround; two-step answers lose the fraction of a nanosecond of the asymmetry before the division. |
| `PeerTheory.SamplesAreAnswered` | port.c:1998-2068 | Over any run each sample is half the round trip of a request of the port's own, less the turnaround, by the response to it and that peer's follow-up, both received after it; each request gives one at most. |
| `PeerTheory.ExchangeIsMeasured` | port.c:1998-2127 | From any state a request, its response and the follow-up, in either order, log the mean delay of the link. |
| `PeerTheory.ThirdInARowIsRefused` | port.c:2070-2112 | A second peer's response is refused if and only if the request is not pending any more or several peers responded to each of the two requests before, over any rounds. |
| `CircularBuffer.NextWindow` | mmedian.c:44-77 | Writing at the index and advancing it moves the window by one sample. |
| `CircularBuffer.WindowPermutes` | mmedian.c:44-77 | The buffer holds the samples of the window, in some order. |
| `MovingMedian.AscendingIsUnique` | mmedian.c:44-77 | Sorted sequences with the same values are equal, so the median is well defined. |
| `MovingMedian.IndexesPermute` | mmedian.c:44-77 | A list of all indexes lists every value once. |
| `MovingMedian.OrderedIsSorted` | mmedian.c:44-77 | The values in the order of their indexes are the sorted window. |
| `MovingMedian.MiddleOfOrder` | mmedian.c:72-76 | The middle of the order is the median, with C's division for even counts. |
| `MovingMedian.WithoutOrdered` | mmedian.c:53-58 | Taking an index out keeps the rest in order, whatever is written to its slot. |
| `MovingMedian.InsertedOrdered` | mmedian.c:61-68 | Putting it in behind what is not greater keeps the order. |
| `MedianFilter.Mmedian.Create` | mmedian.c:86-111 | No filter for a length below one, else an empty one. |
| `MedianFilter.Mmedian.RemoveIndex` | mmedian.c:53-58 | The shifting loop takes the index of the replaced sample out, in place. |
| `MedianFilter.Mmedian.InsertIndex` | mmedian.c:61-68 | The insertion loop puts the new index where its value belongs, in place. |
| `MedianFilter.Mmedian.Sample` | mmedian.c:44-77 | After any samples the result is the true median of the last min(n, len) since the reset. |
| `MedianFilter.Mmedian.Reset` | mmedian.c:79-84 | The history starts again. |
| `MovingAverage.WindowSum` | mave.c:41-53 | The sum of the whole buffer is that of the window, because unused slots are zero. |
| `MovingAverage.Mave.Accumulate` | mave.c:41-53 | The result is the truncated mean of the window, and sum its sum. |
| `MovingAverage.Mave.Reset` | mave.c:55-63 | The history starts again, with zeros in every slot. |
| `Stats.WelfordStep` | stats.c:57-59 | One update adds exactly the growth of the squared deviations. |
| `Stats.TotalsAreRight` | stats.c:47-60 | After any values the mean is their mean, and the incremental sum is that of the squared deviations from it. |
| `Stats.Statistics.AddValue` | stats.c:47-60 | One value more, with the extremes tracked. |
| `Stats.Statistics.GetResult` | stats.c:67-80 | Extremes that are attained, mean, mean of squares and variance of all values, or failure without any. |
| `Stats.DeviationsNotNegative` | stats.c:78 | The number whose square root is taken is not negative. |
| `LeastSquares.DenominatorIsPositive` | linreg.c:185-188 | With positive weights and two different x the division is by a positive number. |
| `LeastSquares.FitIsNormal` | linreg.c:185-188 | The computed line satisfies the normal equations. |
| `LeastSquares.FitIsBest` | linreg.c:138-190 | No line has less weighted squared error. |
| `Linreg.MoveKeepsLine` | linreg.c:92-105 | Moving the reference keeps a line where it is in absolute coordinates. |
| `Linreg.MoveKeepsBest` | linreg.c:92-105 | A line that is best for its points stays best for them. |
| `Linreg.RegressedIsBest` | linreg.c:138-190 | The line of a window is best for exactly its points. |
| `Linreg.ErrNotNegative` | linreg.c:157-168 | The smoothed prediction error stays non-negative. |
| `LinregErrors.ErrIsAverage` | linreg.c:138-168 | Over any run of regressions of a window, with moves of the reference between them, the error is the batch average of the prediction errors: the mean of the first ten, fading by 0.98 with each later one, and 0.02 of each of those; the count is at most ten. |
| `LinregErrors.NextAverage` | linreg.c:157-168 | One prediction error more, in terms of that batch average. |
| `LinregServo.LinearRegression.constructor` | linreg.c:333-352 | A new servo. |
| `LinregServo.LinearRegression.MoveReference` | linreg.c:92-105 | All five lines are moved with the reference. |
| `LinregServo.LinearRegression.UpdateReference` | linreg.c:107-124 | The reference advances by the uncorrected time that passed, and no fraction of it is lost. |
| `LinregServo.LinearRegression.AddSample` | linreg.c:126-136 | The circular buffer holds the newest 64 points. |
| `LinregServo.LinearRegression.Accumulate` | linreg.c:170-183 | Sums carried over from the smaller window are those of exactly the n newest points. |
| `LinregServo.LinearRegression.Regress` | linreg.c:138-190 | Each window with enough points gets the line fitted to its points, each other keeps its result. |
| `LinregServo.LinearRegression.UpdateSize` | linreg.c:192-214 | The selection among all windows from the smallest to the largest. |
| `LinregServo.SelectionFacts` | linreg.c:192-214 | None if no window has a line; the selected window is the first with one or was preferred to a smaller one, and no larger window is preferred to it. |
| `LinregServo.LinearRegression.Measure` | linreg.c:234-238 | After the first half of a sample every window that has enough points holds its best line. |
| `LinregServo.LinearRegression.Control` | linreg.c:231-287 | The clock jumps exactly if the offset of the selected line exceeds a threshold, and the frequency is the allowed one nearest to that which follows the line and takes its offset back in one, two or three updates. |
| `LinregServo.LinearRegression.Sample` | linreg.c:216-287 | One sample: which point is added at which reference, what a jump moves, best lines, bounded frequency, and at most one jump if there is no step threshold. |
| `LinregServo.LinearRegression.Reset` | linreg.c:296-310 | A reset keeps first_update, the jumps that were made, and the invariant, and forgets the points. |
| `LinregServo.LinearRegression.Leap` | linreg.c:319-331 | When a leap second was applied the reference moves by it, and the lines with it, so that they stay best. |
| `LinregServo.LinearRegression.Take` | servo.c:91-105 | One step of any kind changes the points, the reference, the interval, first_update and the jumps as that kind does, and gives a frequency and state exactly if it is a sample. |
| `LinregServo.LinearRegression.Run` | servo.c:91-105 | Over any run of samples, resets, leaps and interval changes each step has its effect on the one before; the jumps are those among the states that were given; the points are those of the samples since the last reset; every window with enough points holds its best line; and without a step threshold there is at most one jump. |
| `LinregServo.OneJump` | servo.c:91-105 | Over any steps that have these effects, if each jump needs first_update, which the first result that is not UNLOCKED ends, there is at most one jump, and none if it had ended before. |
| `LinregTime.RunKeepsTime` | linreg.c:107-124 | Over a run the reference keeps the time without corrections to the last fraction, and stays a constant ahead of the time stamps but for leap seconds. |
| `LinregTime.PointsAreMeasured` | linreg.c:126-136 | Each sample is stored as the time without corrections and the time of the master, whatever jumped in between. |
| `PiServo.AdjustedTracks` | pi.c:104-106 | The estimated drift makes the local clock advance as the master's did. |
| `PiServo.AntiWindup` | pi.c:140-148 | Integrating only while the frequency is not clamped keeps the drift bounded. |
| `PiServo.SampleIsBounded` | pi.c:64-155 | One sample keeps drift and frequency within the maximum. |
| `PiServo.RunIsBounded` | pi.c:64-155 | From the first result that is not UNLOCKED, over any samples, resets and gains, every frequency is bounded, and none jumps again without a step threshold. |
| `PiServo.JumpsOnce` | servo.c:91-105 | Without a step threshold there is at most one jump in any run. |
| `PiServo.Pi.Sample` | servo.c:91-105 | servo_sample() in place: first_update is cleared by the first result that is not UNLOCKED. |
| `PiServo.Pi.PiSample` | pi.c:64-155 | The three states of the controller, in place. |
| `PiServo.Pi.Estimate` | pi.c:81-124 | The frequency estimate, in place, or a restart of it. |
| `PiServo.Pi.Control` | pi.c:125-150 | The control step, in place. |
| `PiServo.Pi.RunAll` | pi.c:64-178 | Any list of samples, resets and gains, in place, is the run that the bounds are proved about. |
| `PiTheory.ControlLaw` | pi.c:140-148 | Over any run within bounds the drift has grown by ki times the weighted sum of the offsets, and the frequency is that plus kp times the last. |
| `PiTheory.Saturates` | pi.c:140-148 | Beyond the bounds the frequency is at the bound on the side of the offset, and the drift stays. |
| `PiTheory.EstimatesExactly` | pi.c:81-124 | When the frequency is estimated, what it then is, and whether the clock jumps, in plain arithmetic. |
| `PiTheory.StartsAgain` | pi.c:125-138 | An offset beyond the step threshold starts the estimate anew. |
| `PiTheory.ResetStartsAgain` | pi.c:173-178 | After a reset, in any run, the next sample begins a new estimate, with frequency and drift kept. |
| `LeapSecond.LeapSecondStatus` | util.c:273-299 | The in/out parameters end as specified. |
| `LeapSecond.StatusOverRun` | util.c:273-299 | Over any run of queries the status is set from when the announcement is seen until a query in the early hours clears it. |
| `LeapSecond.StatusBeforeLeap` | util.c:273-299 | The status is set exactly before the leap if and only if no seen leap is left uncleared after it. |
| `LeapSecond.CorrectedOffset` | util.c:287-296 | For masters that switch early or late, the corrected offset is the true one if and only if the query is not between an early switch and midnight with the leap unseen, nor after a leap that no query in the early hours cleared. |
| `LeapSecond.GapKeepsLeap` | util.c:273-299 | A concrete gap in the queries after which the offset is wrong by one second. |
| `LeapSecond.EarlySwitchUnseen` | util.c:273-299 | A concrete early switch with the announcement unseen, before which the offset is wrong. |
| `LeapSecond.UpdateIsCorrected` | clock.c:665-729 | An update is suspended in the ambiguous second, or moves the offset from TAI to UTC by the true number of seconds, with those two exceptions. |
| `LeapSecond.TimesOfDay` | util.c:264-287 | Updates are suspended in the last second of a day, and early are its first six hours. |
| `LeapSecond.LookupIsTarget` | clock.c:685-695 | A leap second is looked up for the true time of a clock that is to be stepped, up to the error of the announced offset. |
| `LeapSecond.UpdateFindsError` | clock.c:665-729 | An update leaves exactly the error of the local clock as the offset, and tells the kernel the true UTC offset, with the same exact exceptions. |
| `LeapSecond.OtherClocks` | clock.c:665-729 | Clocks other than the system's, or that do not keep UTC, are neither suspended nor told of leap seconds. |
| `LeapSecond.UtcClock.UtcCorrect` | clock.c:665-729 | clock_utc_correct() in place, with the leaps it passes on. |
| `Flips.FlippedTwice` | msg.c:83-91 | Reversing separate fields twice restores the buffer. |
| `Flips.FlippedNumbers` | msg.c:83-91 | Reversing changes the byte order of the number in each field and no octet outside. |
| `Flips.FlipFields` | tlv.c:55-80 | The in-place conversion of a part of a buffer. |
| `Tlv.LayoutIsProper` | tlv.c:575-631 | The fields of every accepted TLV lie within its value and do not overlap. |
| `Tlv.LayoutStable` | tlv.c:633-671 | What is converted when a TLV is sent is what was converted when it was received, and conversely. |
| `Declarations.TlvsAsDeclared` | tlv.h:118-235 | Which TLV values are accepted, and what is converted of them, is what laying the declared structs over them says, for every type, value and direction. |
| `Tlv.ConvertedTwice` | tlv.c:41-53 | Both conversions together restore a value, but for the nanoseconds of a ScaledNs. |
| `Tlv.ValueRoundTrip` | tlv.c:575-671 | A value survives the round trip if and only if its ScaledNs, if it has one, holds what is rebuilt from the word before it. |
| `Tlv.PhaseChangeIsLost` | tlv.c:41-53 | A Follow_Up information TLV that does not survive. |
| `Suffix.LayoutsAreLawful` | tlv.c:575-671 | The conversions of all TLV types obey the laws that the walk is proved from. |
| `Suffix.FirstOfSent` | msg.c:187-225 | A TLV is received as it was sent if and only if its length is even, it is not a path trace that is cut off, and its value survives. |
| `Suffix.WalkAccounts` | msg.c:187-225 | The TLVs and fewer than four octets behind them account for the whole suffix; all lengths are even. |
| `Suffix.SuffixRoundTrip` | msg.c:227-238 | The walk over TLVs that were sent finds the same TLVs. |
| `SuffixBuffer.ConvertValue` | tlv.c:575-671 | One value converted in place, with the ScaledNs rebuilt first; nothing around it changes. |
| `SuffixBuffer.PostRecv` | msg.c:187-225 | The walk in place ends, succeeds exactly if the specified walk does, and leaves its image and descriptors. |
| `SuffixBuffer.PreSend` | msg.c:227-238 | The loop over the descriptors leaves the network image of the TLVs. |
| `Wire.HeadIsBigEndian` | msg.c:104-111 | Every number that is converted is sent with its most significant octet first; no other octet of the fixed part changes. |
| `Declarations.MessagesAsDeclared` | msg.h:82-168 | The lengths, the suffixes and the converted fields of all types are those of the packed structs, laid out member by member. |
| `Declarations.DeclaredNumbersTurn` | msg.c:93-111 | Every declared number of a message is converted, in both directions, and nothing else is touched. |
| `Declarations.TimestampIsBigEndian` | msg.c:240-247 | The time stamp beside a received message is 48 bits of seconds and 32 of nanoseconds, most significant octets first. |
| `Declarations.ReceivedExactly` | msg.c:340-430 | Exactly which octets are rejected as a bad message, as another protocol, or received. |
| `Wire.HeadRoundTrip` | msg.c:433-479 | The fixed part is received as it was sent; a converted time stamp is recovered beside it. |
| `Wire.MessageRoundTrip` | msg.c:340-430 | Receiving what was sent recovers every field, the same TLVs and the time stamp, for each message type. |
| `Wire.WireRoundTrip` | msg.c:340-479 | The same, for the TLV types as they are. |
| `Wire.Buffer.PostRecv` | msg.c:340-430 | msg_post_recv() in place, with its three results and error conditions. |
| `Wire.Buffer.PreSend` | msg.c:433-479 | msg_pre_send() in place. |
| `Wire.TmvRoundTrip` | tmv.h:117-144 | Every 64 bit time, negative ones included, survives conversion to a Timestamp and back. |

## Left out

- Floating point: `double` is modelled as `real`, without rounding, infinities or NaN. Square roots of the statistics are left out, with the variance and the mean of squares in their place.
- Times and corrections are unbounded integers, except in `TmvRoundTrip`; so is the buffer arithmetic of the filters.
- The host is taken to be little endian, where `memcmp` sees port numbers and where byte orders are exchanged.
- Sockets, transports, hardware clocks, configuration, logging and notifications. Arrival times, outcomes of initialization and received messages are step inputs; a decision reads the monotonic clock once.
- When decisions happen: the step machine allows one at any time, which includes every schedule of `clock_poll`.
- Reference counts and pools of messages; in `TcMachine` messages are shared objects that are not freed.
- Path traces and time properties in Announces, `port_ignore` except for the clock's own messages, and the change of hardware clock in `bc_dispatch`.
- Network: links are point to point, clocks have distinct identities, class above 127, and are neither slave only nor master only; at rest every port is informed exactly of what its far end announces or relays. Trees, convergence and uniqueness are about boundary clocks; for networks with transparent clocks it is shown who transmits and that nothing is forwarded in a loop, not that they come to rest or that rest is unique.
- NetworkConvergence.Converges: rounds are synchronous: every clock decides, qualification timers expire, and every port then listens until it knows what leaves its far end, before any clock decides again. RoundExactly says when the steps of the clocks can make such a round; other schedules, in which clocks decide while Announces are still coming in, are covered by the invariants of the step machine only. All clocks are boundary clocks whose ports stay in operation, and a port that hears Announces does not time out for want of Syncs.
- NetworkUniqueness.OneDestination: for runs of such rounds.
- NetworkProgress.RoundExactly: the if and only if holds for data sets that can be compared (equal grandmasters with equal attributes); that the condition is enough holds without (RoundByExpiry).
- ForeignMasters.Current: the shifts in `msg_current` are taken as powers of two; for intervals of 31 and below -31 C leaves them undefined.
- ForwardingTheory.NoForwardingLoop: for messages in the common domain while the network is at rest; while Announces are still spreading a loop is not excluded. The 16 bit wrap of the number of steps that are relayed cannot occur, since ports do not qualify 255 steps.
- Send and time stamping failures in the transparent clock, which go to the fault path; expiry and flushing of stored messages; forwarding of management and signaling messages; the residence time scaled by a rate ratio other than one.
- Management requests, signaling, `pmc`, the polling tools and the other servos.
- OffsetChain.OffsetThroughChain: for the RAW mode, a rate ratio of one, end-to-end transparent clocks, and an offset that does not change during the exchange. The other modes are those of OffsetModes.SteadyOffset, over a link whose delays do not change; peer-to-peer transparent clocks, which know the delays of their links in whole nanoseconds, those of OffsetChain.OffsetThroughPeers.
- DecisionTheory.UnaskedIsUnchanged: for an Announce that is current, and a record whose newest Announce did not expire before an older one.
- OffsetChain.SyncReceiver.ProcessFollowUp: pairs by sequenceId alone, as the code does; that both messages are from one source is not claimed across a change of parent.
- `process_delay_req` and the matching of responses in `process_delay_resp` against the list of pending requests; the exchange is given by its request and response.
- Tsproc.TsProc.UpdateDelay: the delay filter is any function of its samples; the moving median and average are proved to be such functions in their own modules.
- PeerDelay.Port.PdelayRequest: the count of missing responses (`pdr_missing`), and with it port capability, is not modelled; the neighbor rate ratio is a parameter.
- ClockMachine.Clock.OnPortEvent: which event a servo result leads to (`port_synchronize`) is not modelled; all of them are allowed.
- LinregServo.LinearRegression.Sample: asks for positive weights and two different x among the newest four points, the new one included, without which the code divides by zero, and for a maximum frequency below 10^9 ppb.
- PiServo.RunIsBounded: the gains are inputs of the run; how `pi_sync_interval` computes them is left out.
- LeapSecond.UtcClock.UtcCorrect: calls into the kernel are recorded as a list only.
- MovingAverage.Mave.constructor: a length of at least one is asked for, which `mave_create` leaves to the configuration. Failed allocations are left out throughout.
- SuffixBuffer.PostRecv: the contents of the buffer are not specified when a message is rejected.
- SuffixBuffer.ConvertValue: the fields of a TLV are determined before they are converted; the code interleaves both, field by field.
- Wire.Buffer.PreSend: the clock reading that `msg_pre_send` takes, and the capacity checks of `msg_tlv_append`, are left out.
