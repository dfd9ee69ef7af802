/**
 * The WAVE device: the gates through which the upper layers request SCH
 * access, VSAs and data transmission (transmit restrictions of
 * IEEE 1609.4-2010, section 5.2.3), and the bookkeeping the shortest-job-
 * first service allocator keeps per node in the device.
 */
module Device {
  import opened Common
  import opened ChannelManagement
  import opened Coordination
  import opened Scheduling
  import opened Vsa

  /** A transmit priority is a user priority 0..7. */
  const MAX_PRIORITY: uint32 := 7
  /** Power level 8 means "left to the MAC". */
  const MAC_CHOSEN_POWER: uint32 := 8
  const ETHERTYPE_IPV4: uint32 := 0x0800
  const ETHERTYPE_IPV6: uint32 := 0x86DD

  /** Per-message transmit parameters of a WSMP frame. */
  datatype TxInfo = TxInfo(channelNumber: uint32, priority: uint32, dataRate: WaveDataRate, txPowerLevel: uint32)

  function DefaultTxInfo(): TxInfo
  {
    TxInfo(CCH, 0, UnknownDataRate, MAC_CHOSEN_POWER)
  }

  /** Transmit parameters registered for IP traffic. */
  datatype TxProfile = TxProfile(channelNumber: uint32, adaptable: bool, txPowerLevel: uint32, dataRate: WaveDataRate)

  function DefaultTxProfile(): TxProfile
  {
    TxProfile(SCH1, false, MAC_CHOSEN_POWER, UnknownDataRate)
  }

  /** A transmit vector fixed by the upper layer (a non-adaptable data tag). */
  datatype FixedTxVector = FixedTxVector(dataRate: WaveDataRate, txPowerLevel: uint32)

  /** The vector the upper layer imposes, if it chose both a power below 8 and a known rate. */
  function HigherLayerVector(dataRate: WaveDataRate, txPowerLevel: uint32): (v: Option<FixedTxVector>)
    ensures v.Some? <==> txPowerLevel < MAC_CHOSEN_POWER && dataRate != UnknownDataRate
    ensures v.Some? ==> v.value == FixedTxVector(dataRate, txPowerLevel)
  {
    if txPowerLevel < MAC_CHOSEN_POWER && dataRate != UnknownDataRate then
      Some(FixedTxVector(dataRate, txPowerLevel))
    else
      None
  }

  /** With the default parameters the MAC chooses rate and power. */
  lemma DefaultsLeaveVectorToMac()
    ensures HigherLayerVector(DefaultTxInfo().dataRate, DefaultTxInfo().txPowerLevel).None?
    ensures HigherLayerVector(DefaultTxProfile().dataRate, DefaultTxProfile().txPowerLevel).None?
    ensures DefaultTxInfo().channelNumber == CCH && DefaultTxProfile().channelNumber == SCH1
  {
  }

  /** A frame handed to the MAC with the tags it carries. */
  datatype Handoff = Handoff(
    packet: nat,
    dest: Mac48Address,
    protocol: uint32,
    channelTag: uint32,
    qos: Option<uint32>,
    vector: Option<FixedTxVector>)

  /** An IP protocol that may not be sent on CCH unless enabled. */
  predicate IsIpProtocol(protocol: uint32)
  {
    protocol == ETHERTYPE_IPV4 || protocol == ETHERTYPE_IPV6
  }

  // ---------------------------------------------------------------------
  // Shortest-job-first schedule bookkeeping
  // ---------------------------------------------------------------------

  /**
   * The service a node was allocated (channel and remaining size), whether it
   * has sent, and the last (channel, size) seen with its repetition count.
   */
  datatype ScheduleState = ScheduleState(
    scheduled: uint32,
    size: uint32,
    sent: bool,
    prevChannel: uint32,
    prevSize: uint32,
    prevCount: uint32)

  function ClearedSchedule(): ScheduleState
  {
    ScheduleState(0, 0, false, 0, 0, 0)
  }

  /** Whether a service channel is allocated or the node already sent. */
  predicate IsScheduledIn(s: ScheduleState)
  {
    s.scheduled == SCH2 || s.scheduled == SCH3 || s.scheduled == SCH4 || s.scheduled == SCH5 || s.sent
  }

  /** The cleared state is not scheduled, and only the four SJF channels or `sent` make a state scheduled. */
  lemma ScheduledMeaning(s: ScheduleState)
    ensures !IsScheduledIn(ClearedSchedule())
    ensures IsScheduledIn(s) <==> s.sent || (IsSch(s.scheduled) && s.scheduled != SCH1 && s.scheduled != SCH6)
  {
  }

  /** The update as written: the unsigned difference is never negative, so an over-report wraps around. */
  function UpdateStepAsWritten(s: ScheduleState, receiveSize: uint32): (r: ScheduleState)
    ensures receiveSize > s.size ==> r.size > s.size && r.scheduled == s.scheduled && r.sent == s.sent
  {
    var size := Wrap32(s.size - receiveSize);
    if size == 0 then ClearedSchedule() else s.(size := size)
  }

  /**
   * `receiveSize` more bytes of the allocated service were delivered. A
   * report larger than what remains is ignored; when nothing remains the
   * schedule is cleared.
   */
  function UpdateStep(s: ScheduleState, receiveSize: uint32): (r: ScheduleState)
    ensures r.size <= s.size
    ensures receiveSize > s.size ==> r == s
    ensures receiveSize <= s.size ==> r.size == s.size - receiveSize
    ensures r.size == 0 <==> r == ClearedSchedule() || (receiveSize > s.size && s.size == 0)
  {
    if receiveSize > s.size then s
    else
      var size := s.size - receiveSize;
      if size == 0 then ClearedSchedule() else s.(size := size)
  }

  /** A node that is told of 200 bytes while 100 remain keeps a schedule of almost 2^32 bytes. */
  lemma UpdateStepAsWrittenWraps()
    ensures var s := ScheduleState(SCH2, 100, true, 0, 0, 0);
      UpdateStepAsWritten(s, 200).size == 4294967196 && IsScheduledIn(UpdateStepAsWritten(s, 200)) &&
      UpdateStep(s, 200) == s
  {
  }

  /** Without an over-report the two updates agree. */
  lemma UpdateStepAgrees(s: ScheduleState, receiveSize: uint32)
    requires receiveSize <= s.size
    ensures UpdateStepAsWritten(s, receiveSize) == UpdateStep(s, receiveSize)
  {
  }

  /** Reporting a delivery in two parts has the effect of reporting it at once. */
  lemma UpdateStepAdditive(s: ScheduleState, a: uint32, b: uint32)
    requires a + b <= s.size
    ensures UpdateStep(UpdateStep(s, a), b) == UpdateStep(s, a + b)
  {
  }

  /**
   * One poll of the duplication detector: the count rises when the schedule
   * is the same as at the last poll; the third repetition clears everything
   * and answers false.
   */
  function DuplicationStep(s: ScheduleState): (ScheduleState, bool)
  {
    var count := if s.prevChannel == s.scheduled && s.prevSize == s.size then Wrap32(s.prevCount + 1) else s.prevCount;
    if count < 3 then (s.(prevChannel := s.scheduled, prevSize := s.size, prevCount := count), true)
    else (ClearedSchedule(), false)
  }

  /** The detector keeps its count below 3 and only ever clears on a false answer. */
  lemma DuplicationStepBounded(s: ScheduleState)
    requires s.prevCount < 3
    ensures DuplicationStep(s).0.prevCount < 3
    ensures !DuplicationStep(s).1 <==> s.prevCount == 2 && s.prevChannel == s.scheduled && s.prevSize == s.size
    ensures !DuplicationStep(s).1 ==> DuplicationStep(s).0 == ClearedSchedule()
    ensures DuplicationStep(s).1 ==>
      DuplicationStep(s).0.scheduled == s.scheduled && DuplicationStep(s).0.size == s.size &&
      DuplicationStep(s).0.sent == s.sent
  {
  }

  /**
   * A fresh schedule that never progresses is dropped on the fourth poll:
   * the first poll records it and three repetitions follow.
   */
  lemma {:induction false} StalledScheduleDropped(channelNumber: uint32, size: uint32)
    requires size != 0
    ensures var s0 := ClearedSchedule().(scheduled := channelNumber, size := size);
      var p1 := DuplicationStep(s0);
      var p2 := DuplicationStep(p1.0);
      var p3 := DuplicationStep(p2.0);
      var p4 := DuplicationStep(p3.0);
      p1.1 && p2.1 && p3.1 && !p4.1 && p4.0 == ClearedSchedule()
  {
    var s0 := ClearedSchedule().(scheduled := channelNumber, size := size);
    var p1 := DuplicationStep(s0);
    assert p1.0.prevCount == 0 && p1.1;
    var p2 := DuplicationStep(p1.0);
    assert p2.0.prevCount == 1 && p2.1;
    var p3 := DuplicationStep(p2.0);
    assert p3.0.prevCount == 2 && p3.1;
  }

  // ---------------------------------------------------------------------
  // The device
  // ---------------------------------------------------------------------

  class WaveNetDevice {
    const coordinator: ChannelCoordinator
    const manager: ChannelManager
    const scheduler: ChannelScheduler
    const repeater: VsaRepeater
    var txProfile: Option<TxProfile>
    var ipOnCch: bool
    var scheduled: uint32
    var size: uint32
    var sent: bool
    var prevChannel: uint32
    var prevSize: uint32
    var prevCount: uint32
    /** Every frame handed to the MAC, in order. */
    ghost var handoffs: seq<Handoff>

    function Schedule(): ScheduleState
      reads this
    {
      ScheduleState(scheduled, size, sent, prevChannel, prevSize, prevCount)
    }

    ghost predicate Valid()
      reads this, coordinator, manager, scheduler, repeater
    {
      scheduler.manager == manager && scheduler.coordinator == coordinator && repeater.manager == manager && repeater.coordinator == coordinator &&
      scheduler.Valid() && repeater.Valid() &&
      (txProfile.Some? ==> IsWaveChannel(txProfile.value.channelNumber) && txProfile.value.txPowerLevel <= MAC_CHOSEN_POWER) &&
      prevCount < 3
    }

    /** A device with its coordinator, channel table, initialised scheduler and VSA repeater. */
    constructor ()
      ensures Valid()
      ensures fresh(coordinator) && fresh(manager) && fresh(scheduler) && fresh(repeater)
      ensures txProfile == None && !ipOnCch && Schedule() == ClearedSchedule() && handoffs == []
      ensures scheduler.channelNumber == CCH && scheduler.channelAccess == DefaultCchAccess
      ensures repeater.vsas == []
    {
      var c := new ChannelCoordinator();
      var m := new ChannelManager();
      var s := new ChannelScheduler(m, c);
      var r := new VsaRepeater(m, c);
      coordinator := c;
      manager := m;
      scheduler := s;
      repeater := r;
      txProfile := None;
      ipOnCch := false;
      scheduled := 0;
      size := 0;
      sent := false;
      prevChannel := 0;
      prevSize := 0;
      prevCount := 0;
      handoffs := [];
    }

    method SetIpOnCchSupported(enable: bool)
      modifies this
      ensures ipOnCch == enable
      ensures txProfile == old(txProfile) && Schedule() == old(Schedule()) && handoffs == old(handoffs)
    {
      ipOnCch := enable;
    }

    /**
     * Requests SCH access. Only service channels are passed on to the
     * scheduler; CCH and non-WAVE channels are refused.
     */
    method StartSch(info: SchInfo, now: nat) returns (ok: bool)
      requires Valid()
      modifies scheduler, manager
      ensures Valid()
      ensures !IsSch(info.channelNumber) ==> !ok && unchanged(scheduler, manager)
      ensures !ok ==> unchanged(scheduler, manager)
      ensures scheduler.channelNumber == old(scheduler.channelNumber) ||
        (ok && IsSch(scheduler.channelNumber) && scheduler.channelNumber == info.channelNumber &&
         scheduler.channelAccess == RequestedAccess(info.extendedAccess))
      ensures IsSch(info.channelNumber) && RequestedAccess(info.extendedAccess) == ContinuousAccess ==>
        scheduler.ContinuousOutcome(info.channelNumber, info.immediateAccess, now, ok)
      ensures IsSch(info.channelNumber) && RequestedAccess(info.extendedAccess) == AlternatingAccess ==>
        scheduler.AlternatingOutcome(info.channelNumber, info.immediateAccess, now, ok)
      ensures IsSch(info.channelNumber) && RequestedAccess(info.extendedAccess) == ExtendedAccess ==>
        scheduler.ExtendedOutcome(info.channelNumber, info.extendedAccess as uint32, info.immediateAccess, now, ok)
    {
      if !IsWaveChannel(info.channelNumber) {
        return false;
      }
      if IsCch(info.channelNumber) {
        return false;
      }
      ok := scheduler.StartSch(info, now);
    }

    /** Gives up the access to a service channel; CCH and non-WAVE channels are ignored. */
    method StopSch(channelNumber: uint32)
      requires Valid()
      modifies scheduler, manager
      ensures Valid()
      ensures !IsSch(channelNumber) || !old(scheduler.IsAccessAssigned(channelNumber)) ==> unchanged(scheduler, manager)
      ensures IsSch(channelNumber) && old(scheduler.IsAccessAssigned(channelNumber)) ==>
        scheduler.channelNumber == CCH && manager.GetState(channelNumber) == Dead &&
        manager.GetState(CCH) == Active && !scheduler.IsAccessAssigned(channelNumber)
      ensures IsSch(channelNumber) ==> scheduler.Released(channelNumber)
    {
      if !IsWaveChannel(channelNumber) {
        return;
      }
      if IsCch(channelNumber) {
        return;
      }
      scheduler.Release(channelNumber);
    }

    /** The reasons StartVsa refuses a request, in the order they are checked. */
    predicate VsaRefused(info: VsaInfo)
      reads this, scheduler
    {
      info.vsc == 0 ||
      !IsWaveChannel(info.channelNumber) ||
      (info.oi.NullOi? && info.managementId >= 16) ||
      !scheduler.IsAccessAssigned(info.channelNumber) ||
      (scheduler.channelAccess == AlternatingAccess && info.sendInterval == VsaInAnyi)
    }

    /**
     * Starts sending a VSA (packet 0 stands for no content). An accepted
     * VSA is never dropped, because a channel with access assigned is never
     * Dead: it goes out at once inside its interval and waits for it otherwise.
     */
    method StartVsa(info: VsaInfo, now: nat) returns (ok: bool)
      requires Valid()
      modifies repeater
      ensures Valid()
      ensures ok <==> !VsaRefused(info)
      ensures !ok ==> unchanged(repeater)
      ensures ok && !(IsGroup(info.peer) && info.repeatRate != 0) ==> repeater.vsas == old(repeater.vsas)
      ensures ok && IsGroup(info.peer) && info.repeatRate != 0 ==>
        repeater.vsas == old(repeater.vsas) + [VsaWork(info.peer, EffectiveOi(info.oi, info.managementId), info.vsc,
                                                       info.channelNumber, RepeatPeriod(info.repeatRate),
                                                       info.sendInterval, now + RepeatPeriod(info.repeatRate))]
      ensures ok ==> !manager.IsChannelDead(info.channelNumber)
      ensures ok ==> repeater.Dispatched(old(repeater.sent), old(repeater.deferred), info.sendInterval, info.channelNumber,
                                         info.vsc, EffectiveOi(info.oi, info.managementId), info.peer, now)
    {
      if info.vsc == 0 {
        return false;
      }
      if !IsWaveChannel(info.channelNumber) {
        return false;
      }
      if info.oi.NullOi? && info.managementId >= 16 {
        return false;
      }
      if !scheduler.IsAccessAssigned(info.channelNumber) {
        return false;
      }
      if scheduler.channelAccess == AlternatingAccess && info.sendInterval == VsaInAnyi {
        return false;
      }
      scheduler.AssignedChannelAlive(info.channelNumber);
      repeater.SendVsa(info, now);
      ok := true;
    }

    /** Stops repeating the VSAs on `channelNumber`. */
    method StopVsa(channelNumber: uint32)
      requires Valid()
      modifies repeater
      ensures Valid()
      ensures repeater.vsas == Filter(old(repeater.vsas), OffChannel(channelNumber))
      ensures repeater.sent == old(repeater.sent) && repeater.deferred == old(repeater.deferred)
    {
      repeater.RemoveByChannel(channelNumber);
    }

    /**
     * Registers the transmit profile for IP traffic. Refused for a non-WAVE
     * channel, while another profile is registered, for CCH unless IP on CCH
     * is enabled, and for a power level above 8.
     */
    method RegisterTxProfile(profile: TxProfile) returns (ok: bool)
      requires Valid()
      modifies this
      ensures Valid()
      ensures ok <==>
        IsWaveChannel(profile.channelNumber) && old(txProfile).None? &&
        (profile.channelNumber == CCH ==> ipOnCch) && profile.txPowerLevel <= MAC_CHOSEN_POWER
      ensures ok ==> txProfile == Some(profile)
      ensures !ok ==> txProfile == old(txProfile)
      ensures ipOnCch == old(ipOnCch) && Schedule() == old(Schedule()) && handoffs == old(handoffs)
    {
      if !IsWaveChannel(profile.channelNumber) {
        return false;
      }
      if txProfile.Some? {
        return false;
      }
      if profile.channelNumber == CCH && !ipOnCch {
        return false;
      }
      if profile.txPowerLevel > MAC_CHOSEN_POWER {
        return false;
      }
      txProfile := Some(profile);
      ok := true;
    }

    /** Removes the registered profile if it is the one for `channelNumber`. */
    method UnregisterTxProfile(channelNumber: uint32)
      requires Valid()
      modifies this
      ensures Valid()
      ensures old(txProfile).Some? && old(txProfile).value.channelNumber == channelNumber ==> txProfile == None
      ensures !(old(txProfile).Some? && old(txProfile).value.channelNumber == channelNumber) ==> txProfile == old(txProfile)
      ensures ipOnCch == old(ipOnCch) && Schedule() == old(Schedule()) && handoffs == old(handoffs)
    {
      if txProfile.Some? && txProfile.value.channelNumber == channelNumber {
        txProfile := None;
      }
    }

    /**
     * MA-UNITDATAX.request: sends a WSMP (or other) frame with per-message
     * parameters. Refused for a non-WAVE or Dead channel, a priority above 7,
     * and IP on CCH unless enabled; otherwise the frame goes to the MAC with
     * its priority, channel and, if the upper layer fixed them, rate and power.
     */
    method SendX(packet: nat, dest: Mac48Address, protocol: uint32, txInfo: TxInfo) returns (ok: bool)
      requires Valid()
      modifies this
      ensures Valid()
      ensures ok <==>
        IsWaveChannel(txInfo.channelNumber) && !manager.IsChannelDead(txInfo.channelNumber) &&
        txInfo.priority <= MAX_PRIORITY &&
        !(txInfo.channelNumber == CCH && IsIpProtocol(protocol) && !ipOnCch)
      ensures !ok ==> handoffs == old(handoffs)
      ensures ok ==> (handoffs == old(handoffs) +
        [Handoff(packet, dest, protocol, txInfo.channelNumber, Some(txInfo.priority),
                 HigherLayerVector(txInfo.dataRate, txInfo.txPowerLevel))])
      ensures txProfile == old(txProfile) && ipOnCch == old(ipOnCch) && Schedule() == old(Schedule())
    {
      var cn := txInfo.channelNumber;
      if !IsWaveChannel(cn) {
        return false;
      }
      if manager.IsChannelDead(cn) {
        return false;
      }
      if txInfo.priority > MAX_PRIORITY {
        return false;
      }
      if cn == CCH && IsIpProtocol(protocol) {
        if !ipOnCch {
          return false;
        }
      }
      handoffs := handoffs + [Handoff(packet, dest, protocol, cn, Some(txInfo.priority),
                                      HigherLayerVector(txInfo.dataRate, txInfo.txPowerLevel))];
      ok := true;
    }

    /**
     * Sends an IP frame with the registered profile. Refused without a
     * profile or when the profile's channel is Dead.
     */
    method Send(packet: nat, dest: Mac48Address, protocol: uint32) returns (ok: bool)
      requires Valid()
      modifies this
      ensures Valid()
      ensures ok <==> txProfile.Some? && !manager.IsChannelDead(txProfile.value.channelNumber)
      ensures !ok ==> handoffs == old(handoffs)
      ensures ok ==> (handoffs == old(handoffs) +
        [Handoff(packet, dest, protocol, txProfile.value.channelNumber, None,
                 HigherLayerVector(txProfile.value.dataRate, txProfile.value.txPowerLevel))])
      ensures txProfile == old(txProfile) && ipOnCch == old(ipOnCch) && Schedule() == old(Schedule())
    {
      if txProfile.None? {
        return false;
      }
      var profile := txProfile.value;
      if manager.IsChannelDead(profile.channelNumber) {
        return false;
      }
      handoffs := handoffs + [Handoff(packet, dest, protocol, profile.channelNumber, None,
                                      HigherLayerVector(profile.dataRate, profile.txPowerLevel))];
      ok := true;
    }

    function IsScheduled(): (r: bool)
      reads this
      ensures r <==> IsScheduledIn(Schedule())
    {
      if scheduled == SCH2 || scheduled == SCH3 || scheduled == SCH4 || scheduled == SCH5 then true
      else sent
    }

    method SetSchedule(channelNumber: uint32, serviceSize: uint32)
      requires Valid()
      modifies this
      ensures Valid()
      ensures Schedule() == old(Schedule()).(scheduled := channelNumber, size := serviceSize)
      ensures txProfile == old(txProfile) && ipOnCch == old(ipOnCch) && handoffs == old(handoffs)
    {
      scheduled := channelNumber;
      size := serviceSize;
    }

    method SetSent()
      requires Valid()
      modifies this
      ensures Valid() && IsScheduled()
      ensures Schedule() == old(Schedule()).(sent := true)
      ensures txProfile == old(txProfile) && ipOnCch == old(ipOnCch) && handoffs == old(handoffs)
    {
      sent := true;
    }

    function GetScheduleChannel(): uint32
      reads this
    {
      scheduled
    }

    function GetScheduleSize(): uint32
      reads this
    {
      size
    }

    /** Records `receiveSize` delivered bytes (an over-report is ignored). */
    method UpdateSchedule(receiveSize: uint32)
      requires Valid()
      modifies this
      ensures Valid()
      ensures Schedule() == UpdateStep(old(Schedule()), receiveSize)
      ensures txProfile == old(txProfile) && ipOnCch == old(ipOnCch) && handoffs == old(handoffs)
    {
      if receiveSize > size {
        return;
      }
      size := size - receiveSize;
      if size == 0 {
        scheduled := 0;
        sent := false;
        prevChannel := 0;
        prevSize := 0;
        prevCount := 0;
      }
    }

    /** Polls the duplication detector; false means the stalled schedule was dropped. */
    method DuplicationCounts() returns (r: bool)
      requires Valid()
      modifies this
      ensures Valid()
      ensures (Schedule(), r) == DuplicationStep(old(Schedule()))
      ensures txProfile == old(txProfile) && ipOnCch == old(ipOnCch) && handoffs == old(handoffs)
    {
      if prevChannel == scheduled && prevSize == size {
        prevCount := Wrap32(prevCount + 1);
      }
      if prevCount < 3 {
        prevChannel := scheduled;
        prevSize := size;
        return true;
      }
      prevCount := 0;
      prevChannel := 0;
      prevSize := 0;
      scheduled := 0;
      size := 0;
      sent := false;
      r := false;
    }
  }
}
