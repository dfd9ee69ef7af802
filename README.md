# WAVE multi-channel operation and the SJF service-channel allocator

This project models the IEEE 1609.4-2010 multi-channel layer of the ns-3
WAVE device as this repository extends it. It also models the
shortest-job-first (SJF) service-channel allocator that the repository's
multiple-channel example adds on top. Each part is one Dafny module.

- `Common` (common.dfy): `uint8`/`uint32`/`uint64` as subset types, `Wrap32`
  for C++ unsigned wrap-around, and little-endian byte encoding with its
  round trips. It also holds `Filter` (the erase-while-iterating loops) and
  `RemoveFirst` (an erase-and-break loop).
- `TagBuffers` (tag_buffer.dfy): a byte stream standing in for the ns-3 tag
  buffer that the two packet tags serialise into.
- `ChannelManagement` (channel_manager.dfy): the seven WAVE channels
  172..184, the CCH at 178, the tri-state channel state, and the
  `ChannelManager` class whose table `SetState` updates in place.
- `Coordination` (channel_coordinator.dfy): interval arithmetic in integer
  milliseconds (sync interval = CCHI + SCHI, guard at the start of each
  half), the wait-time functions, and the `ChannelCoordinator` class with
  its listener list. The class also runs the guard/CCH/SCH phase loop, with
  the next scheduled event as an explicit field and notifications as a log.
- `Scheduling` (channel_scheduler.dfy): the `ChannelScheduler` access state
  machine for continuous, alternating, extended and default-CCH access. It
  shares the channel table and keeps its pending timers as a list. Radio
  and MAC calls are recorded in a log.
- `EdcaQueues` (wave_edca_txop.dfy): the 4-byte `ChannelTag` and the
  per-channel frame queues of `WaveEdcaTxopN`. A map from channel number
  to a FIFO holds the frames, with one active queue and a pending frame.
- `MacLow` (wave_mac_low.dfy): the adaptive transmit-vector choice and the
  guard-aware transmit gate.
- `Vsa` (vsa_repeater.dfy): organisation-identifier construction, the
  repeat period, and the `VsaRepeater` class. The class keeps the repeat
  list, its removal loops, and the interval decision for one vendor
  specific action (VSA) frame.
- `Device` (wave_net_device.dfy): the `WaveNetDevice` gates for service
  channel access, transmit profiles, `SendX`, `Send` and `StartVsa`. It
  also holds the SJF schedule bookkeeping in unsigned 32-bit arithmetic.
- `Sjf` (channel_queues.dfy): the 20-byte `StatsTag`, and the
  `ChannelQueues` class with four service-channel lists and its `Counts`
  and `Sums` arrays. It covers SJF and round-robin allocation,
  partial-service updates, backups and dropped services.

Times are natural numbers of milliseconds; the `StatsTag` send time is in
nanoseconds. The current time is always a parameter. Simulator events are
explicit pending fields (`coordination`, `pending`, `deferred`), and the
model never fires them by itself. Calls into the PHY, the MAC and upper
layers are ghost logs (`notified`, `radio`, `sent`, `handoffs`).

The model follows the code, with one exception: the four defects listed
under "## Findings" are each modelled as written by a function of their
own (`AlternatingBusyAsWritten`, `SendDecisionAsWritten`,
`UpdateStepAsWritten`, `DropServiceAsWritten`), while the methods whose
state they affect use the corrected rule. Each such method is named under
"## Left out" with the input on which it departs from the code.

Where the code and its documentation disagree, the model follows the code:
- `ChannelScheduler.Release` keeps the access mode it releases.
- `WaveNetDevice.StartSch` rejects the CCH, although the module's own test
  suite asks for continuous access to it.
- `IsValidConfig` is modelled and characterised, but nothing in the source
  calls it before coordination starts.

## Model

| member | source | states |
|---|---|---|
| Common.Wrap32 | src/wave/model/wave-net-device.cc:527-541 | a `uint32_t` result is the integer result reduced modulo 2^32: equal inside the range, shifted by 2^32 one wrap below or above it |
| Common.EncodeLE | src/wave/model/wave-edca-txop-n.h:72-75 | a tag field is written as exactly `n` little-endian bytes |
| Common.DecodeLE | src/wave/model/wave-edca-txop-n.h:76-79 | the value read back from `n` bytes is below 256^n |
| Common.DecodeEncode | src/wave/model/wave-edca-txop-n.h:72-79 | reading back what was written gives the value that was written |
| Common.EncodeDecode | src/wave/model/wave-edca-txop-n.h:72-79 | writing back what was read gives the same bytes |
| Common.EncodeInjective | src/wave/model/wave-edca-txop-n.h:72-75 | two values of one width are written as the same bytes exactly when they are equal |
| Common.Filter | src/wave/model/vsa-repeater.cc:224-245 | the erase loop keeps only elements that pass the test, keeps every element that passes it, and never grows the list |
| Common.FilterPartition | src/wave/model/vsa-repeater.cc:224-245 | the kept and the erased entries together are exactly the original entries |
| Common.FilterAppend | src/wave/model/vsa-repeater.cc:224-245 | erasing from a concatenation is erasing from each part |
| Common.FilterIdempotent | src/wave/model/vsa-repeater.cc:224-245 | repeating a removal changes nothing |
| Common.FilterCommutes | src/wave/model/vsa-repeater.cc:224-270 | two removals by different tests may be applied in either order |
| Common.RemoveFirst | src/wave/model/channel-coordinator.cc:295-306 | erase-and-break removes one occurrence when there is one, and otherwise leaves the list as it was |
| Common.RemoveFirstAt | src/wave/model/channel-coordinator.cc:295-306 | the removed occurrence is the first one, and the order of the rest is kept |
| TagBuffers.TagBuffer.constructor | src/wave/model/wave-edca-txop-n.h:72-79 | a new buffer holds no bytes |
| TagBuffers.TagBuffer.WriteU32 | src/wave/model/wave-edca-txop-n.h:72-75 | appends the four little-endian bytes of the value |
| TagBuffers.TagBuffer.WriteU64 | src/wave/examples/wave-multiple-channel.cc:116-123 | appends the eight little-endian bytes of the value |
| TagBuffers.TagBuffer.ReadU32 | src/wave/model/wave-edca-txop-n.h:76-79 | consumes four bytes and returns their little-endian value |
| TagBuffers.TagBuffer.ReadU64 | src/wave/examples/wave-multiple-channel.cc:124-131 | consumes eight bytes and returns their little-endian value |
| ChannelManagement.DataRateCode | windows/ns-3-dev/headers/ns3/channel-manager.h:66-77 | rate codes are 0..8, and 8 is exactly the unknown rate |
| ChannelManagement.DataRateOfCode | windows/ns-3-dev/headers/ns3/channel-manager.h:66-77 | a code names a rate exactly when it is at most 8 |
| ChannelManagement.DataRateCodeRoundTrip | windows/ns-3-dev/headers/ns3/channel-manager.h:66-77 | rate and code convert into each other without loss in both directions |
| ChannelManagement.WaveChannelsAreSeven | src/wave/model/channel-manager.cc:85-97 | the WAVE channels are exactly 172, 174, 176, 178, 180, 182 and 184 |
| ChannelManagement.SchPartition | src/wave/model/channel-manager.cc:63-97 | a channel is a service channel iff it is a WAVE channel other than the CCH; the CCH is a WAVE channel |
| ChannelManagement.IsCch | src/wave/model/channel-manager.cc:63-67 | a channel is the CCH iff its number is 178 |
| ChannelManagement.IsSch | src/wave/model/channel-manager.cc:70-82 | a service channel is exactly a WAVE channel other than the CCH |
| ChannelManagement.IsWaveChannel | src/wave/model/channel-manager.cc:85-97 | the WAVE channels are the even numbers from 172 to 184 (characterised by `WaveChannelsAreSeven`) |
| ChannelManagement.GetIndex | src/wave/model/channel-manager.cc:100-112 | the index is below 7 exactly for WAVE channels, and every other channel gets 7 |
| ChannelManagement.ChannelNumberAt | windows/ns-3-dev/headers/ns3/channel-manager.h:45-60 | every table position 0..6 holds a WAVE channel |
| ChannelManagement.IndexRoundTrip | src/wave/model/channel-manager.cc:100-112 | GetIndex is a bijection between the seven channels and 0..6, with the table order as its inverse |
| ChannelManagement.WithState | src/wave/model/channel-manager.cc:123-128 | changing one channel's state sets that entry and leaves every other channel's entry alone |
| ChannelManagement.InitialChannels | src/wave/model/channel-manager.cc:39-49 | the table lists the seven channels in channel-number order, each with the default profile |
| ChannelManagement.ChannelManager.constructor | src/wave/model/channel-manager.cc:39-49 | the table starts with the seven channels in order, every one Dead |
| ChannelManagement.ChannelManager.SetState | src/wave/model/channel-manager.cc:123-128 | afterwards the channel has the new state and no other channel's state changed |
| ChannelManagement.ChannelManager.SetStates | src/wave/model/channel-scheduler.cc:196-224 | two different channels get their new states and the other five keep theirs |
| ChannelManagement.ChannelManager.GetState | src/wave/model/channel-manager.cc:115-120 | the state of a WAVE channel is the one stored at its index (read back by `SetState`'s contract) |
| ChannelManagement.ChannelManager.IsChannelActive | src/wave/model/channel-manager.cc:131-135 | a channel is active iff its state is Active (exclusive with the other two by `StatesExclusive`) |
| ChannelManagement.ChannelManager.IsChannelInactive | src/wave/model/channel-manager.cc:138-142 | a channel is inactive iff its state is Inactive |
| ChannelManagement.ChannelManager.IsChannelDead | src/wave/model/channel-manager.cc:145-149 | a channel is dead iff its state is Dead |
| ChannelManagement.ChannelManager.StatesExclusive | src/wave/model/channel-manager.cc:131-149 | for a WAVE channel exactly one of active, inactive and dead holds |
| ChannelManagement.ChannelManager.GetOperatingClass | src/wave/model/channel-manager.cc:152-157 | every channel has operating class 17 |
| ChannelManagement.ChannelManager.IsAdapter | src/wave/model/channel-manager.cc:160-165 | every channel is adaptable |
| ChannelManagement.ChannelManager.GetDataRate | src/wave/model/channel-manager.cc:168-172 | every channel's rate is OFDM 6 Mbps |
| ChannelManagement.ChannelManager.GetTxPowerLevel | src/wave/model/channel-manager.cc:175-179 | every channel's power level is 4 |
| Coordination.GetIntervalTime | src/wave/model/channel-coordinator.cc:270-277 | the offset is below the sync interval, and the time is a whole number of sync intervals plus the offset |
| Coordination.GetRemainTime | src/wave/model/channel-coordinator.cc:280-284 | the remaining time is positive, at most one sync interval, and ends exactly at the next sync boundary |
| Coordination.NeedTimeToCchInterval | src/wave/model/channel-coordinator.cc:233-241 | the wait is zero exactly inside the CCH interval and never longer than the SCH interval |
| Coordination.NeedTimeToSchInterval | src/wave/model/channel-coordinator.cc:244-252 | the wait is zero exactly inside the SCH interval and never longer than the CCH interval |
| Coordination.NeedTimeToGuardInterval | src/wave/model/channel-coordinator.cc:255-267 | the wait is zero exactly inside a guard interval and never longer than one sync interval |
| Coordination.IsCchInterval | src/wave/model/channel-coordinator.cc:181-186 | an instant is in the CCH interval iff its offset in the sync interval is below the CCH interval length (checked on the defaults by `DefaultTruthTable`) |
| Coordination.IsSchInterval | src/wave/model/channel-coordinator.cc:189-193 | an instant is in the SCH interval iff it is not in the CCH interval |
| Coordination.IsGuardInterval | src/wave/model/channel-coordinator.cc:196-203 | an instant is in a guard iff its offset in its own half is below the guard length |
| Coordination.IsValidConfig | src/wave/model/channel-coordinator.cc:206-229 | a configuration is valid iff a UTC second holds whole sync intervals and both halves are longer than the guard (characterised by `ValidConfigMeaning`) |
| Coordination.IntervalTimeShift | src/wave/model/channel-coordinator.cc:270-277 | moving forward without crossing a sync boundary adds to the offset; reaching the boundary resets it to 0 |
| Coordination.IntervalTimePeriodic | src/wave/model/channel-coordinator.cc:270-277 | the offset repeats with period one sync interval |
| Coordination.IntervalsPeriodic | src/wave/model/channel-coordinator.cc:181-203 | CCH, SCH and guard membership repeat every sync interval |
| Coordination.DefaultConfigValues | src/wave/model/channel-coordinator.cc:90-114 | the defaults are a 100 ms sync interval, a 4 ms guard and 46 ms slots, and they form a valid configuration |
| Coordination.IntervalTimeExample | windows/ns-3-dev/headers/ns3/channel-coordinator.h:135-153 | at 5020 ms plus 50 ms with a 100 ms sync interval, the offset is 70 ms and 30 ms remain |
| Coordination.DefaultTruthTable | src/wave/model/channel-coordinator.cc:181-203 | with the defaults, 0, 1 and 3 ms are CCH guard, 4 ms is CCH, 50, 51 and 53 ms are SCH guard, 54 ms is SCH, and 100 ms is CCH guard again |
| Coordination.ValidConfigMeaning | src/wave/model/channel-coordinator.cc:206-230 | a configuration is valid iff a second is a whole number of sync intervals and both intervals are longer than the guard; then every whole second starts a sync interval |
| Coordination.NeedTimeToCchLands | src/wave/model/channel-coordinator.cc:233-241 | waiting the returned time lands in the CCH interval, at its start when the wait is positive, and no earlier instant is in it |
| Coordination.NeedTimeToSchLands | src/wave/model/channel-coordinator.cc:244-252 | waiting the returned time lands in the SCH interval, at its start when the wait is positive, and no earlier instant is in it |
| Coordination.NeedTimeToGuardLands | src/wave/model/channel-coordinator.cc:255-267 | waiting the returned time lands in a guard interval and no earlier instant is in one |
| Coordination.SuccessorOnSchedule | src/wave/model/channel-coordinator.cc:343-383 | one step of the phase loop keeps every event on its boundary with the guard parity matching the half |
| Coordination.RunOnSchedule | src/wave/model/channel-coordinator.cc:316-383 | any number of phase-loop steps stay on schedule |
| Coordination.OnScheduleIntervals | src/wave/model/channel-coordinator.cc:343-383 | a guard event falls in a guard and reports the half it starts; a CCH or SCH slot falls in its interval after the guard |
| Coordination.PhaseLoopPeriod | src/wave/model/channel-coordinator.cc:343-383 | four steps from a guard go guard, CCH slot, guard, SCH slot, and return to a guard one sync interval later with the count raised by two |
| Coordination.Wrap32FlipsParity | src/wave/model/channel-coordinator.cc:365-383 | raising the 32-bit guard counter always flips its parity, so the CCH and SCH halves alternate even across wrap-around |
| Coordination.ChannelCoordinator.constructor | src/wave/model/channel-coordinator.cc:62-66 | a new coordinator has the default intervals, no listeners, count 0 and no pending event |
| Coordination.ChannelCoordinator.SetCchInterval | src/wave/model/channel-coordinator.cc:117-121 | only the CCH interval changes |
| Coordination.ChannelCoordinator.SetSchInterval | src/wave/model/channel-coordinator.cc:131-135 | only the SCH interval changes |
| Coordination.ChannelCoordinator.SetGuardInterval | src/wave/model/channel-coordinator.cc:152-156 | only the guard interval changes |
| Coordination.ChannelCoordinator.RegisterListener | src/wave/model/channel-coordinator.cc:287-292 | the listener is appended at the end of the list |
| Coordination.ChannelCoordinator.UnregisterListener | src/wave/model/channel-coordinator.cc:295-306 | only the first registration of that listener is removed |
| Coordination.ChannelCoordinator.UnregisterAllListeners | src/wave/model/channel-coordinator.cc:309-313 | the list is empty and nothing else changes |
| Coordination.ChannelCoordinator.StartChannelCoordination | src/wave/model/channel-coordinator.cc:316-330 | starting succeeds exactly at a sync boundary; then the count restarts, every listener is told of a CCH guard in order, and the next event is on schedule |
| Coordination.ChannelCoordinator.StopChannelCoordination | src/wave/model/channel-coordinator.cc:333-340 | the pending event is cancelled and the count is 0 |
| Coordination.ChannelCoordinator.DoDispose | src/wave/model/channel-coordinator.cc:81-86 | coordination stops and the listener list is emptied |
| Coordination.ChannelCoordinator.NotifyAll | src/wave/model/channel-coordinator.cc:343-383 | every listener is notified once, in registration order, and nothing else changes |
| Coordination.ChannelCoordinator.NotifySchSlot | src/wave/model/channel-coordinator.cc:343-351 | listeners hear of an SCH slot of SCHI − GI, and the next guard is due after it |
| Coordination.ChannelCoordinator.NotifyCchSlot | src/wave/model/channel-coordinator.cc:354-362 | listeners hear of a CCH slot of CCHI − GI, and the next guard is due after it |
| Coordination.ChannelCoordinator.NotifyGuardSlot | src/wave/model/channel-coordinator.cc:365-383 | listeners hear of a guard of GI in the CCH half iff the count is even; the matching slot is due after GI and the count rises |
| Scheduling.RequestedAccess | windows/ns-3-dev/headers/ns3/channel-scheduler.h:35-36 | 0 requests alternating access, 255 continuous, anything else extended; never default-CCH |
| Scheduling.Cancel | src/wave/model/channel-scheduler.cc:346-382 | cancelling removes exactly the timer with that identifier |
| Scheduling.RemainingGuard | src/wave/model/channel-scheduler.cc:215-221 | inside a guard the declared busy time is positive and at most one guard interval |
| Scheduling.AlternatingBusyNegativeInSchGuard | src/wave/model/channel-scheduler.cc:215-221 | with the defaults at 51 ms (an SCH guard), the busy time as written is −47 ms, while 3 ms of guard remain |
| Scheduling.AlternatingBusyAgreesInCchGuard | src/wave/model/channel-scheduler.cc:215-221 | in the CCH half the busy time as written equals the remaining guard |
| Scheduling.RemainingGuardEndsGuard | src/wave/model/channel-scheduler.cc:215-221 | being busy for the remaining guard covers exactly the rest of the guard |
| Scheduling.AlternatingBusyAsWritten | src/wave/model/channel-scheduler.cc:215-221 | as written, the busy time never exceeds the guard and is negative anywhere in the SCH interval of a configuration whose CCH half is longer than the guard |
| Scheduling.ChannelScheduler.constructor | src/wave/model/channel-scheduler.cc:70-93 | the scheduler starts on the CCH with default-CCH access and extend 255; the CCH becomes Active and radio and queue tune to it |
| Scheduling.ChannelScheduler.IsAccessAssigned | src/wave/model/channel-scheduler.cc:133-150 | continuous and extended access are assigned to the held channel only, alternating access to the held SCH and to the CCH, default access to none |
| Scheduling.ChannelScheduler.IsAnyAccessAssigned | src/wave/model/channel-scheduler.cc:153-157 | some access is assigned iff the mode is not default CCH access |
| Scheduling.ChannelScheduler.AtMostOneActive | src/wave/model/channel-scheduler.cc:174-311 | the single radio never has two Active channels |
| Scheduling.ChannelScheduler.AssignedChannelAlive | src/wave/model/channel-scheduler.cc:133-157 | a channel with assigned access is never Dead |
| Scheduling.ChannelScheduler.AssignDefaultCchAccess | src/wave/model/channel-scheduler.cc:314-321 | the CCH becomes Active and radio and queue tune to it; the access mode is left as it was |
| Scheduling.ChannelScheduler.Schedule | src/wave/model/channel-scheduler.cc:258-262 | a timer with a fresh identifier is appended and nothing else changes |
| Scheduling.ChannelScheduler.AssignAlternatingAccess | src/wave/model/channel-scheduler.cc:174-227 | the CCH is refused; a repeated request succeeds unchanged; a request while another SCH is held fails unchanged; otherwise the SCH is granted, Active with the radio and queue switched to it in the SCH interval or when immediate, Inactive behind an Active CCH otherwise, and inside a guard the MAC is told the medium is busy for the guard time left (the corrected time; the source's own figure is `AlternatingBusyAsWritten`) |
| Scheduling.ChannelScheduler.EnterAlternating | src/wave/model/channel-scheduler.cc:196-224 | the granted channel and the CCH take opposite Active/Inactive states by the current interval, the radio and queue switch only in the SCH interval or when immediate, the mode becomes alternating, and inside a guard a busy notice for the guard time left (the corrected time) is logged |
| Scheduling.ChannelScheduler.AssignContinuousAccess | src/wave/model/channel-scheduler.cc:230-265 | a repeat succeeds unchanged; another held SCH fails unchanged; in the channel's own interval or when immediate it switches exclusively; otherwise it succeeds with a retry timer for when that interval starts |
| Scheduling.ChannelScheduler.SwitchExclusively | src/wave/model/channel-scheduler.cc:247-257 | the CCH becomes Dead, the granted channel Active, and radio and queue switch to it |
| Scheduling.ChannelScheduler.RetryLandsInRole | src/wave/model/channel-scheduler.cc:258-262 | the retry time is positive when the switch must wait, and at that time the switch happens |
| Scheduling.ChannelScheduler.AssignExtendedAccess | src/wave/model/channel-scheduler.cc:268-311 | the same channel with at most the held extension succeeds unchanged; a larger one fails; on a grant the extension is stored and a release is armed after the wait plus that many sync intervals |
| Scheduling.ChannelScheduler.StartSch | src/wave/model/channel-scheduler.cc:324-343 | extension 255 selects continuous, 0 alternating and any other value extended access over that many sync intervals; `ok` and the new channel states, radio log and armed timers are exactly the selected mode's outcome; a refusal changes nothing and the held channel only changes on a grant |
| Scheduling.ChannelScheduler.Release | src/wave/model/channel-scheduler.cc:346-382 | a channel without access is a no-op; otherwise it becomes Dead, the CCH becomes Active and is tuned, continuous/extended timers are cancelled with extend 0, and the access mode stays |
| Scheduling.ChannelScheduler.NotifyCchSlotStart | src/wave/model/channel-scheduler.cc:386-395 | outside alternating access nothing changes; in it the SCH becomes Inactive and the CCH Active |
| Scheduling.ChannelScheduler.NotifySchSlotStart | src/wave/model/channel-scheduler.cc:398-407 | outside alternating access nothing changes; in it the CCH becomes Inactive and the SCH Active |
| Scheduling.ChannelScheduler.NotifyGuardSlotStart | src/wave/model/channel-scheduler.cc:410-431 | outside alternating access nothing changes; in it radio and queue go to the CCH or the SCH by the half, and the MAC is told it is busy for the notified duration |
| EdcaQueues.EncodeChannelTag | src/wave/model/wave-edca-txop-n.h:72-75 | the tag is four bytes |
| EdcaQueues.DecodeChannelTag | src/wave/model/wave-edca-txop-n.h:76-79 | four bytes are read back as a little-endian channel number (inverse of `EncodeChannelTag` by `ChannelTagRoundTrip`) |
| EdcaQueues.ChannelTagRoundTrip | src/wave/model/wave-edca-txop-n.h:72-79 | deserialising a serialised channel gives it back, and different channels serialise differently |
| EdcaQueues.ChannelTagThroughBuffer | src/wave/model/wave-edca-txop-n.h:37-79 | a tag written to a buffer and read into a fresh tag carries the same channel |
| EdcaQueues.AllFramesUpdate | src/wave/model/wave-edca-txop-n.cc:100-151 | replacing one queue changes the frames held by exactly that queue's old and new contents |
| EdcaQueues.ChannelTag.constructor | src/wave/model/wave-edca-txop-n.h:37-39 | a default tag carries channel 0 |
| EdcaQueues.ChannelTag.WithChannel | src/wave/model/wave-edca-txop-n.h:40-42 | a tag built for a channel carries it |
| EdcaQueues.ChannelTag.SetChannelNumber | src/wave/model/wave-edca-txop-n.h:47-54 | the channel read back is the one set |
| EdcaQueues.ChannelTag.GetChannelNumber | src/wave/model/wave-edca-txop-n.h:51-54 | the tag's channel, as `SetChannelNumber` and the constructors leave it |
| EdcaQueues.ChannelTag.GetSerializedSize | src/wave/model/wave-edca-txop-n.h:68-71 | the size is that of the encoding, 4 bytes |
| EdcaQueues.ChannelTag.Serialize | src/wave/model/wave-edca-txop-n.h:72-75 | appends the channel's four bytes |
| EdcaQueues.ChannelTag.Deserialize | src/wave/model/wave-edca-txop-n.h:76-79 | consumes four bytes and takes their value as the channel |
| EdcaQueues.WaveEdcaTxopN.constructor | src/wave/model/wave-edca-txop-n.cc:71-79 | one empty queue exists, for the CCH, and it is active |
| EdcaQueues.WaveEdcaTxopN.DoDispose | src/wave/model/wave-edca-txop-n.cc:64-69 | the queue map is empty |
| EdcaQueues.WaveEdcaTxopN.Queue | src/wave/model/wave-edca-txop-n.cc:100-133 | without a tag nothing changes and the call fails; with one the frame goes to the tail of that channel's queue, created on demand; no other queue changes; access is requested iff the active queue is non-empty |
| EdcaQueues.WaveEdcaTxopN.SwitchToChannel | src/wave/model/wave-edca-txop-n.cc:136-151 | the channel's queue is created if absent and becomes active, the pending frame is dropped from view, and no queued frame is lost |
| EdcaQueues.WaveEdcaTxopN.NotifyChannelSwitching | src/wave/model/wave-edca-txop-n.cc:82-97 | a pending frame goes back to the front of the active queue; with none, nothing changes |
| EdcaQueues.WaveEdcaTxopN.SwitchPreservingFrames | src/wave/model/wave-edca-txop-n.cc:82-151 | a switch notification followed by a switch keeps every frame, the pending one included |
| MacLow.GetDataTxVector | src/wave/model/wave-mac-low.cc:60-94 | no tag gives the MAC's vector; a fixed tag gives its own; an adaptable tag gives the faster mode with ties to the MAC, and the lower power |
| MacLow.AdaptableTagWithinBounds | src/wave/model/wave-mac-low.cc:76-93 | an adaptable tag no faster and no weaker than the MAC yields the MAC's vector |
| MacLow.StartTransmission | src/wave/model/wave-mac-low.cc:97-126 | outside alternating access every frame is passed on; in alternating access a frame is passed on iff it ends no later than the next guard starts |
| MacLow.StartTransmissionAvoidsGuard | src/wave/model/wave-mac-low.cc:97-126 | in alternating access a frame passes iff it ends before the next guard starts |
| MacLow.StartTransmissionOtherModes | src/wave/model/wave-mac-low.cc:103-108 | outside alternating access every frame passes |
| Vsa.IntervalCode | src/wave/model/vsa-repeater.h:36-41 | the interval codes are 1..3 |
| Vsa.IntervalCodesDistinct | src/wave/model/vsa-repeater.h:36-41 | the three intervals have distinct codes |
| Vsa.SendDecision | src/wave/model/vsa-repeater.cc:164-191 | a VSA goes out at once iff the current time is in its requested interval; otherwise it waits a positive time |
| Vsa.SendDecisionLands | src/wave/model/vsa-repeater.cc:164-191 | a deferred VSA is sent when its retry comes, and no earlier instant was in its interval |
| Vsa.SendDecisionAsWritten | src/wave/model/vsa-repeater.cc:164-187 | as written, every retry is armed for the current instant and only inside the requested interval |
| Vsa.SendDecisionAsWrittenInverted | src/wave/model/vsa-repeater.cc:164-187 | as written, a CCH or SCH VSA goes out at once exactly when the time is outside its interval, and inside it is rescheduled after zero delay |
| Vsa.SendDecisionAsWrittenExamples | src/wave/model/vsa-repeater.cc:164-187 | with the defaults, a CCH VSA at 10 ms is rescheduled at 10 ms as written but sent by the corrected rule; at 60 ms it is sent outside the CCH interval as written but waits until 100 ms |
| Vsa.EffectiveOi | src/wave/model/vsa-repeater.cc:76-87 | a given OI is kept; a null one becomes 00-50-C2-4A followed by 0x4 and the management id's low nibble |
| Vsa.ManagementIdNibble | src/wave/model/vsa-repeater.cc:76-87 | only the low nibble of the management id counts, and ids 0..15 give different OIs |
| Vsa.RepeatPeriod | src/wave/model/vsa-repeater.cc:110 | the period is 5000 ms divided by the rate, rounded down, between 19 and 5000 ms |
| Vsa.RemovalsCommute | src/wave/model/vsa-repeater.cc:224-270 | removing by channel and by OI may be done in either order, and repeating a removal changes nothing |
| Vsa.VsaRepeater.constructor | src/wave/model/vsa-repeater.cc:48-70 | the repeat list, the sent log and the deferred list start empty |
| Vsa.VsaRepeater.DoSendVsa | src/wave/model/vsa-repeater.cc:144-204 | on a Dead channel nothing is sent; otherwise, by the corrected interval check (`SendDecision`), the VSA goes out at once inside its interval and is deferred to the start of it outside; the source's inverted check is `SendDecisionAsWritten` |
| Vsa.VsaRepeater.SendVsa | src/wave/model/vsa-repeater.cc:73-117 | a repeat entry with the computed OI and period is appended exactly for a group peer and a non-zero rate, and the first frame is dispatched by the corrected interval check |
| Vsa.VsaRepeater.DoRepeat | src/wave/model/vsa-repeater.cc:120-125 | the entry's next repeat moves one period on and its frame is dispatched by the corrected interval check |
| Vsa.VsaRepeater.RemoveAll | src/wave/model/vsa-repeater.cc:207-221 | the repeat list is empty |
| Vsa.VsaRepeater.RemoveByChannel | src/wave/model/vsa-repeater.cc:224-245 | exactly the entries on that channel go, and the rest keep their order |
| Vsa.VsaRepeater.RemoveByOrganizationIdentifier | src/wave/model/vsa-repeater.cc:249-270 | exactly the entries with that OI go, and the rest keep their order |
| Vsa.VsaRepeater.RemoveWhere | src/wave/model/vsa-repeater.cc:224-270 | the erase-while-iterating loop keeps exactly the entries that pass, in order |
| Device.HigherLayerVector | src/wave/model/wave-net-device.cc:320-328 | the upper layer fixes the vector iff it names a power below 8 and a known rate |
| Device.DefaultsLeaveVectorToMac | src/wave/model/wave-net-device.h:55-75 | the default transmit info and profile leave rate and power to the MAC; they default to the CCH and to SCH1 |
| Device.ScheduledMeaning | src/wave/model/wave-net-device.cc:496-504 | a node is scheduled iff it has sent or holds SCH2, SCH3, SCH4 or SCH5; a cleared schedule is not scheduled |
| Device.UpdateStep | src/wave/model/wave-net-device.cc:527-541 | a delivery report lowers the remaining size by exactly its amount; a report above what remains is ignored; the schedule clears iff nothing remains |
| Device.UpdateStepAsWrittenWraps | src/wave/model/wave-net-device.cc:527-541 | as written, 200 bytes reported against 100 leave 4294967196 bytes scheduled |
| Device.UpdateStepAsWritten | src/wave/model/wave-net-device.cc:527-541 | as written, a report larger than what remains leaves a larger remaining size and keeps the channel and the sent flag |
| Device.UpdateStepAgrees | src/wave/model/wave-net-device.cc:527-541 | without an over-report the written and the corrected update agree |
| Device.UpdateStepAdditive | src/wave/model/wave-net-device.cc:527-541 | two reports have the effect of one report of their sum |
| Device.DuplicationStepBounded | src/wave/model/wave-net-device.cc:543-563 | the repeat count stays below 3; the answer is false iff this is the third repetition, and then the schedule is cleared |
| Device.StalledScheduleDropped | src/wave/model/wave-net-device.cc:543-563 | a schedule that never progresses is dropped on the fourth poll |
| Device.WaveNetDevice.constructor | src/wave/model/wave-net-device.cc:64-83 | the device starts without a profile, without IP on the CCH, with a cleared schedule and default CCH access |
| Device.WaveNetDevice.SetIpOnCchSupported | src/wave/model/wave-net-device.cc:351-354 | only the IP-on-CCH flag changes |
| Device.WaveNetDevice.StartSch | src/wave/model/wave-net-device.cc:204-218 | non-service channels, the CCH included, are refused with no change; for a service channel `ok` and the scheduler's new state are exactly the outcome of the access mode the extension selects |
| Device.WaveNetDevice.StopSch | src/wave/model/wave-net-device.cc:221-233 | a non-service channel or one without access is ignored; otherwise the scheduler's whole release applies: the channel becomes Dead, the CCH Active and tuned, continuous/extended timers are cancelled with extend 0, and the access mode stays |
| Device.WaveNetDevice.StartVsa | src/wave/model/wave-net-device.cc:128-166 | a VSA is accepted iff it has content, a WAVE channel, a valid management id or an OI, assigned access and not any-interval with alternating access; an accepted one is dispatched by the corrected interval check, and for a group peer with a non-zero rate exactly one repeat entry is appended, holding the peer, the effective OI, the content, the channel, the period 5000/rate, the interval and the next repeat one period on |
| Device.WaveNetDevice.StopVsa | src/wave/model/wave-net-device.cc:192-196 | exactly the repeat entries on that channel go |
| Device.WaveNetDevice.RegisterTxProfile | src/wave/model/wave-net-device.cc:236-267 | registration fails for a non-WAVE channel, an existing profile, the CCH without IP on the CCH, or power above 8; otherwise the profile is stored |
| Device.WaveNetDevice.UnregisterTxProfile | src/wave/model/wave-net-device.cc:270-278 | the profile is cleared exactly when it is for that channel |
| Device.WaveNetDevice.SendX | src/wave/model/wave-net-device.cc:281-335 | a frame is handed on iff its channel is a live WAVE channel, the priority is at most 7, and it is not IP on the CCH without support; it carries the channel, the priority and the fixed vector exactly when the upper layer names one |
| Device.WaveNetDevice.Send | src/wave/model/wave-net-device.cc:418-447 | a frame is handed on iff a profile exists and its channel is not Dead |
| Device.WaveNetDevice.IsScheduled | src/wave/model/wave-net-device.cc:496-504 | the answer is the scheduled test on the current schedule |
| Device.WaveNetDevice.SetSchedule | src/wave/model/wave-net-device.cc:506-510 | only the scheduled channel and size change |
| Device.WaveNetDevice.SetSent | src/wave/model/wave-net-device.cc:512-515 | the sent flag is set, so the node is scheduled |
| Device.WaveNetDevice.GetScheduleChannel | src/wave/model/wave-net-device.cc:517-520 | the scheduled channel, as `SetSchedule` leaves it |
| Device.WaveNetDevice.GetScheduleSize | src/wave/model/wave-net-device.cc:522-525 | the remaining service size, as `SetSchedule` and `UpdateSchedule` leave it |
| Device.WaveNetDevice.UpdateSchedule | src/wave/model/wave-net-device.cc:527-541 | the schedule takes the corrected update step: a report no larger than what remains lowers the remaining size by exactly that amount and clears the schedule at zero, and a larger report is ignored (the source wraps it, `UpdateStepAsWritten`) |
| Device.WaveNetDevice.DuplicationCounts | src/wave/model/wave-net-device.cc:543-563 | the schedule and the answer are one step of the duplication detector |
| Sjf.EncodeStats | src/wave/examples/wave-multiple-channel.cc:111-123 | the tag is 20 bytes |
| Sjf.DecodeStats | src/wave/examples/wave-multiple-channel.cc:124-131 | a decoded send time is a whole number of microseconds |
| Sjf.StatsRoundTrip | src/wave/examples/wave-multiple-channel.cc:111-131 | id, channel and size survive serialisation, and the send time is cut to whole microseconds |
| Sjf.MicrosOfWhole | src/wave/examples/wave-multiple-channel.cc:116-131 | a send time of whole microseconds keeps its value |
| Sjf.StatsBytesRoundTrip | src/wave/examples/wave-multiple-channel.cc:116-131 | decoding then encoding 20 bytes gives them back |
| Sjf.SjfChannelsAreServiceChannels | src/wave/examples/wave-multiple-channel.cc:424-461 | the allocator's channels are the service channels other than SCH1 and SCH6 |
| Sjf.Slot | src/wave/examples/wave-multiple-channel.cc:191-213 | each SJF channel has its own list among the four |
| Sjf.CalcServiceTime | src/wave/examples/wave-multiple-channel.cc:167 | the service time is at least 1 and counts the started 6001-byte units |
| Sjf.FirstIndexOf | src/wave/examples/wave-multiple-channel.cc:332-366 | the position is that of the node's first entry |
| Sjf.DropFirstOf | src/wave/examples/wave-multiple-channel.cc:332-366 | the node's first entry, and only it, is removed |
| Sjf.DropFirstOfKeepsOthers | src/wave/examples/wave-multiple-channel.cc:332-366 | the others keep their order around the removed entry |
| Sjf.DropServiceAsWrittenDropsWrongEntry | src/wave/examples/wave-multiple-channel.cc:332-366 | dropping C from [A, B, C] as written removes B |
| Sjf.DropServiceAsWritten | src/wave/examples/wave-multiple-channel.cc:332-366 | as written, the drop removes exactly one entry (which one: `DropServiceAsWrittenDropsWrongEntry` and `DropServiceAsWrittenAgrees`) |
| Sjf.DropServiceAsWrittenAgrees | src/wave/examples/wave-multiple-channel.cc:332-366 | the written drop is correct iff the node's entry is first or second |
| Sjf.FirstMinimumUnique | src/wave/examples/wave-multiple-channel.cc:429-449 | the SJF choice, the first minimum of `Sums`, is unique |
| Sjf.RoundRobinPick | src/wave/examples/wave-multiple-channel.cc:450-458 | round robin always picks an SJF channel, never the CCH |
| Sjf.RoundRobinFair | src/wave/examples/wave-multiple-channel.cc:450-458 | four picks in a row visit SCH2, SCH3, SCH4 and SCH5 once each and return to the start |
| Sjf.Insert | src/wave/examples/wave-multiple-channel.cc:191-213 | an item joins the front or back of its channel's list, adding to its count and sum; other lists stay; other channels change nothing |
| Sjf.InsertKeepsCounts | src/wave/examples/wave-multiple-channel.cc:191-213 | adding one item keeps each count equal to its list's length modulo 2^32 |
| Sjf.SameLengthsKeepCounts | src/wave/examples/wave-multiple-channel.cc:332-366 | lists of unchanged length keep the counts matching |
| Sjf.ApplyBackups | src/wave/examples/wave-multiple-channel.cc:319-330 | pushing backups keeps four lists |
| Sjf.ApplyBackupsOrder | src/wave/examples/wave-multiple-channel.cc:319-330 | each list gets its channel's backups in front, the last backup first |
| Sjf.ApplyBackupsConserves | src/wave/examples/wave-multiple-channel.cc:319-330 | pushing backups loses no item and keeps the counts matching |
| Sjf.StatsTag.constructor | src/wave/examples/wave-multiple-channel.cc:49-55 | a default tag holds zeros |
| Sjf.StatsTag.With | src/wave/examples/wave-multiple-channel.cc:56-62 | a built tag holds the given fields |
| Sjf.StatsTag.GetSerializedSize | src/wave/examples/wave-multiple-channel.cc:111-115 | the size is that of the encoding, 20 bytes |
| Sjf.StatsTag.Serialize | src/wave/examples/wave-multiple-channel.cc:116-123 | appends id, send time in microseconds, channel and size |
| Sjf.StatsTag.Deserialize | src/wave/examples/wave-multiple-channel.cc:124-131 | consumes 20 bytes and takes the fields they encode |
| Sjf.ChannelQueues.constructor | src/wave/examples/wave-multiple-channel.cc:182-189 | four empty lists, zero counts and sums, no backups, round robin at SCH2 |
| Sjf.ChannelQueues.EnqueueSwitch | src/wave/examples/wave-multiple-channel.cc:191-213 | the arrays and lists change exactly as the insertion says |
| Sjf.ChannelQueues.IsEmpty | src/wave/examples/wave-multiple-channel.cc:215-226 | only an SJF channel can be empty, and it is iff its list is |
| Sjf.ChannelQueues.Peek | src/wave/examples/wave-multiple-channel.cc:393-407 | the head of the channel's list, or a default item for other channels |
| Sjf.ChannelQueues.Dequeue | src/wave/examples/wave-multiple-channel.cc:409-422 | returns the head of the channel's list and removes it from that list alone; other channels change nothing |
| Sjf.ChannelQueues.CheckNodes | src/wave/examples/wave-multiple-channel.cc:368-391 | true iff the node has an entry on that SJF channel |
| Sjf.ChannelQueues.AllocServiceChannel | src/wave/examples/wave-multiple-channel.cc:424-461 | SJF picks the first channel with the least `Sums`; round robin picks the next channel in turn and moves on |
| Sjf.ChannelQueues.Enqueue | src/wave/examples/wave-multiple-channel.cc:228-258 | no tag does nothing; a sender already queued gets 2^32 − 1 and nothing changes; otherwise its request joins the back of the allocated channel and that channel is returned |
| Sjf.ChannelQueues.EnqueueRemains | src/wave/examples/wave-multiple-channel.cc:260-317 | on an empty channel the rest of a service goes to the front with count 1 and its service time; otherwise it is handled by whether the head is the sender's; in every case the sender ends up in the list or in the backups |
| Sjf.ChannelQueues.RemainsBehindOther | src/wave/examples/wave-multiple-channel.cc:273-298 | when the head is another node's: a sender already listed changes nothing; if the head has started sending, the rest goes to the backups; otherwise it goes to the front with count 1 and its service time |
| Sjf.ChannelQueues.RemainsOfHead | src/wave/examples/wave-multiple-channel.cc:300-316 | the sender's head entry stays at the front; an unchanged size only resets its sent count; otherwise it takes the remaining size and the sum grows by the service time of the 32-bit difference; counts never change |
| Sjf.ChannelQueues.PushBackups | src/wave/examples/wave-multiple-channel.cc:319-330 | the backups go to the fronts of their lists in order and the backup list is empty |
| Sjf.ChannelQueues.DropService | src/wave/examples/wave-multiple-channel.cc:332-366 | an absent node changes nothing; otherwise the node's own first entry is removed (the corrected drop; the source's is `DropServiceAsWritten`), its count lowered and its time taken off the channel's sum |
| Sjf.ChannelQueues.Update | src/wave/examples/wave-multiple-channel.cc:463-506 | the head's remaining size drops and its sent count rises by the delivered size; at zero it leaves with its count; the sum drops by one |

## Left out

- Receive paths (`DoReceiveVsc`, `WaveForwardUp`), `ChangeAddress` and `SendFrom` are callback and address plumbing around the modelled logic.
- The device helper, the data-tx-vector tag (raw copying of a foreign vector type) and the XML configuration store are not part of this model.
- The ns-3 tag buffer is not part of this model; `TagBuffers.TagBuffer` is a little-endian byte stream standing in for it.
- The internals of the MAC's frame queue are replaced by a sequence of frame identifiers. Packets are identified by natural numbers and addresses by natural numbers or octet sequences.
- Time is whole milliseconds; sub-millisecond instants and negative times are not modelled. The `StatsTag` send time is a natural number of nanoseconds below 2^63.
- Coordination.GetIntervalTime: the 32-bit truncation of the cycle count is not modelled, because it only differs after 2^32 sync intervals (about 13 years at 100 ms).
- Listener callbacks, PHY channel changes, MAC busy notices, queue switches and upper-layer hand-offs are recorded in ghost logs rather than executed.
- Simulator timers are pending fields and lists. The model never fires them on its own, so deferred VSAs, retries and automatic releases are only shown to be armed at the right time.
- `VsaRepeater::DoSendVsa`'s transmit vector and the MAC's `SendVsc` are a log entry; only the channel, the peer, the OI and the content are kept.
- Device.WaveNetDevice.Send: the profile's `adaptable` flag is not used, because the source always builds a non-adaptable tag there.
- Sjf.ChannelQueues.RemainsOfHead: the 32-bit difference `RemainSize − item.first` is modelled with wrap-around as the source computes it, and nothing further is claimed about its meaning.
- Sjf.ChannelQueues.Dequeue: `Counts` is not lowered, because the source does not lower it.
- Sjf.ChannelQueues.Peek: a non-empty list is required, because the source reads the head of an empty list there.
- Scheduling.ChannelScheduler.Release: the access mode is kept, as the source keeps it, so its contract does not claim a return to default-CCH access.
- `NS_ASSERT` conditions the source demands of callers become `requires`; `NS_FATAL_ERROR` paths become a failed result with no change. One assertion is not about the caller: the check in `ChannelScheduler::NotifyGuardSlotStart` (src/wave/model/channel-scheduler.cc:419) that a CCH guard starts in a CCH-interval guard is about the coordinator's clock, so it is not a `requires` of Scheduling.ChannelScheduler.NotifyGuardSlotStart; Coordination.OnScheduleIntervals proves it holds whenever the guard event fires on schedule.
- Scheduling.ChannelScheduler.AssignAlternatingAccess: implements the corrected busy time inside a guard (`RemainingGuard`), not the source's gi − offset; at 51 ms with the default intervals the source notifies −47 ms and the model 3 ms (see "## Findings").
- Scheduling.ChannelScheduler.EnterAlternating: implements the corrected busy time, as for `AssignAlternatingAccess` above.
- Scheduling.ChannelScheduler.StartSch: inherits the corrected busy time of `AssignAlternatingAccess` for alternating requests.
- Vsa.VsaRepeater.DoSendVsa: implements the corrected interval check (`SendDecision`), not the inverted one the source runs; with the default intervals a CCH VSA at 10 ms is sent by the model and rescheduled at 10 ms by the source (see "## Findings").
- Vsa.VsaRepeater.SendVsa: dispatches its first frame through `DoSendVsa`, so by the corrected interval check.
- Vsa.VsaRepeater.DoRepeat: dispatches through `DoSendVsa`, so by the corrected interval check.
- Device.WaveNetDevice.StartVsa: dispatches through `SendVsa`, so by the corrected interval check.
- Device.WaveNetDevice.StartSch: passes alternating requests to `ChannelScheduler.StartSch`, so it inherits the corrected busy time.
- Coordination.ChannelCoordinator.RegisterListener: listener ids are plain numbers with no null value, so the source's non-null assertion has no counterpart.
- The MAC's dequeue of a frame into `WaveEdcaTxopN`'s pending slot (`currentPacket`) is not modelled; the pending-frame branch of `NotifyChannelSwitching` and `SwitchPreservingFrames` is reached only from a state in which that slot is already filled.
- Device.WaveNetDevice.UpdateSchedule: implements the corrected update step (`UpdateStep`), which ignores an over-report; with 100 bytes left and 200 reported the source leaves 4294967196 bytes and the model 100 (see "## Findings").
- Sjf.ChannelQueues.DropService: implements the corrected drop (`DropFirstOf`), which removes the node's own entry and its time; dropping C from [A, B, C] the source removes B and B's time, the model C and C's (see "## Findings").
- Coordination.ChannelCoordinator.StartChannelCoordination: a start while an event is pending replaces it, whereas the source reassigns `m_coordination` without cancelling the earlier event, so two loops then run; the model keeps one pending event and does not capture the stray loop.
- The simulation harness (`MultipleChannelExperiment`, `RSUSendPacket`, `CheckRemainService`), QoS and LLC/SNAP headers, and the other transmit-vector fields are out of scope.

## Findings

| source | as written | input that shows it | evidently intended | confidence | as-written member | corrected member |
|---|---|---|---|---|---|---|
| src/wave/model/wave-net-device.cc:527-541 | `m_Size - receiveSize < 0` is an unsigned comparison that is never true, so an over-report wraps the remaining size | 100 bytes scheduled, 200 reported: 4294967196 bytes remain and the node stays scheduled | ignore a report larger than what remains | not executed | Device.UpdateStepAsWrittenWraps | Device.UpdateStep |
| src/wave/examples/wave-multiple-channel.cc:332-366 | when the node's entry is not the head, the second entry is removed whoever it belongs to | list [A, B, C], drop C: B is removed and C stays | remove the node's own entry | not executed | Sjf.DropServiceAsWrittenDropsWrongEntry | Sjf.DropFirstOf |
| src/wave/model/channel-scheduler.cc:215-221 | the busy time is the guard length less the offset in the whole sync interval | default intervals at 51 ms, an SCH guard: −47 ms | the guard time left in the current half (3 ms) | not executed | Scheduling.AlternatingBusyNegativeInSchGuard | Scheduling.RemainingGuardEndsGuard |
| src/wave/model/vsa-repeater.cc:164-187 | the VSA is rescheduled when the wait is zero and sent at once otherwise | default intervals, a CCH VSA at 10 ms is rescheduled at 10 ms without end; at 60 ms it is sent in the SCH interval | send at once inside the interval, otherwise wait for it | not executed | Vsa.SendDecisionAsWrittenExamples | Vsa.SendDecisionLands |
