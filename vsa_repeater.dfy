/**
 * Vendor Specific Action frames (IEEE 1609.4-2010, section 6.4): the
 * organization identifier a frame carries, and the work list of frames
 * that are repeated a given number of times per 5 s on a channel.
 */
module Vsa {
  import opened Common
  import opened ChannelManagement
  import opened Coordination

  /** The interval a VSA is meant for; the enumerators are 1, 2 and 3. */
  datatype VsaSentInterval = VsaInCchi | VsaInSchi | VsaInAnyi

  function IntervalCode(interval: VsaSentInterval): (code: uint32)
    ensures 1 <= code <= 3
  {
    match interval
    case VsaInCchi => 1
    case VsaInSchi => 2
    case VsaInAnyi => 3
  }

  /** The three intervals have distinct codes. */
  lemma IntervalCodesDistinct(a: VsaSentInterval, b: VsaSentInterval)
    ensures IntervalCode(a) == IntervalCode(b) <==> a == b
  {
  }

  /** What a send request does now: hand the frame to the MAC, or try again at `at`. */
  datatype Dispatch = SendNow | RetryAt(at: nat)

  /**
   * The interval check as written: the retry is armed when the wait is zero,
   * that is when the requested interval is already current, and the frame
   * goes out at once when the interval is still ahead.
   */
  function SendDecisionAsWritten(cfg: IntervalConfig, interval: VsaSentInterval, now: nat): (d: Dispatch)
    requires cfg.Sync() > 0
    ensures d.RetryAt? ==> d.at == now && InRequestedInterval(cfg, interval, now)
  {
    match interval
    case VsaInSchi =>
      var wait := NeedTimeToSchInterval(cfg, now);
      if wait == 0 then RetryAt(now + wait) else SendNow
    case VsaInCchi =>
      var wait := NeedTimeToCchInterval(cfg, now);
      if wait == 0 then RetryAt(now + wait) else SendNow
    case VsaInAnyi => SendNow
  }

  /** Whether `now` lies in the interval a VSA is meant for. */
  predicate InRequestedInterval(cfg: IntervalConfig, interval: VsaSentInterval, now: nat)
    requires cfg.Sync() > 0
  {
    match interval
    case VsaInCchi => IsCchInterval(cfg, now)
    case VsaInSchi => IsSchInterval(cfg, now)
    case VsaInAnyi => true
  }

  /**
   * The interval check: a VSA meant for the CCH or SCH interval goes out at
   * once inside that interval and otherwise waits for its start.
   */
  function SendDecision(cfg: IntervalConfig, interval: VsaSentInterval, now: nat): (d: Dispatch)
    requires cfg.Sync() > 0
    ensures d.SendNow? <==> InRequestedInterval(cfg, interval, now)
    ensures d.RetryAt? ==> d.at > now
  {
    match interval
    case VsaInSchi =>
      var wait := NeedTimeToSchInterval(cfg, now);
      if wait != 0 then RetryAt(now + wait) else SendNow
    case VsaInCchi =>
      var wait := NeedTimeToCchInterval(cfg, now);
      if wait != 0 then RetryAt(now + wait) else SendNow
    case VsaInAnyi => SendNow
  }

  /**
   * A deferred VSA is retried at the start of its interval, where it goes
   * out, and no instant before that lies in the interval.
   */
  lemma SendDecisionLands(cfg: IntervalConfig, interval: VsaSentInterval, now: nat)
    requires cfg.cchi > 0 && cfg.schi > 0
    ensures SendDecision(cfg, interval, now).RetryAt? ==>
      var at := SendDecision(cfg, interval, now).at;
      SendDecision(cfg, interval, at) == SendNow &&
      forall t: nat :: now <= t < at ==> !InRequestedInterval(cfg, interval, t)
  {
    match interval
    case VsaInCchi => NeedTimeToCchLands(cfg, now);
    case VsaInSchi => NeedTimeToSchLands(cfg, now);
    case VsaInAnyi =>
  }

  /**
   * The check as written is the check turned round: it sends at once
   * exactly when the VSA is outside its interval, and every retry it arms
   * is for the same instant, where it decides the same again.
   */
  lemma SendDecisionAsWrittenInverted(cfg: IntervalConfig, interval: VsaSentInterval, now: nat)
    requires cfg.Sync() > 0 && interval != VsaInAnyi
    ensures SendDecisionAsWritten(cfg, interval, now).SendNow? <==> !InRequestedInterval(cfg, interval, now)
    ensures SendDecisionAsWritten(cfg, interval, now).RetryAt? ==>
      SendDecisionAsWritten(cfg, interval, now) == RetryAt(now) &&
      SendDecision(cfg, interval, now) == SendNow
  {
  }

  /**
   * With the default intervals, a VSA for the CCH interval requested 10 ms
   * into a CCH interval is retried at 10 ms forever and never sent, and one
   * requested 60 ms in (SCH interval) is sent at once, outside its interval.
   */
  lemma SendDecisionAsWrittenExamples()
    ensures SendDecisionAsWritten(DefaultConfig(), VsaInCchi, 10) == RetryAt(10)
    ensures SendDecision(DefaultConfig(), VsaInCchi, 10) == SendNow
    ensures SendDecisionAsWritten(DefaultConfig(), VsaInCchi, 60) == SendNow
    ensures !IsCchInterval(DefaultConfig(), 60)
    ensures SendDecision(DefaultConfig(), VsaInCchi, 60) == RetryAt(100)
  {
    DivModUnique(10, 100, 0, 10);
    DivModUnique(60, 100, 0, 60);
  }

  /** Repeats are spread over a period of this many seconds. */
  const VSA_REPEAT_PERIOD: nat := 5

  /** A MAC address; bit 0 of the first octet marks a group address. */
  datatype Mac48Address = Mac48Address(octets: seq<uint8>)

  predicate IsGroup(address: Mac48Address)
  {
    |address.octets| > 0 && address.octets[0] % 2 == 1
  }

  /** An organization identifier: unset, or the octets of an OUI-36 or OUI-24. */
  datatype OrganizationIdentifier = NullOi | Oi(octets: seq<uint8>)

  /** Fixed part of the IEEE 1609 OUI-36 (section 6.4.1.1 of IEEE 1609.4-2010). */
  const OI_PREFIX: seq<uint8> := [0x00, 0x50, 0xC2, 0x4A]
  /** High nibble of the last octet of the 1609 identifier; the low nibble is the management id. */
  const OI_LAST_BASE: uint8 := 0x40

  /**
   * The identifier a VSA is sent with: the given one, or when none is given
   * the 1609 identifier whose last octet is 0x40 with the low nibble of the
   * management id or-ed in (as 0x40 has a zero low nibble, that is an addition).
   */
  function EffectiveOi(oi: OrganizationIdentifier, managementId: uint8): (r: OrganizationIdentifier)
    ensures oi.Oi? ==> r == oi
    ensures oi.NullOi? ==> r.Oi? && |r.octets| == 5 && r.octets[..4] == OI_PREFIX
    ensures oi.NullOi? ==> r.octets[4] / 16 == 4 && r.octets[4] % 16 == managementId % 16
  {
    if oi.NullOi? then
      Oi(OI_PREFIX + [OI_LAST_BASE + managementId % 16])
    else
      oi
  }

  /**
   * Only the low nibble of the management id matters, and the sixteen valid
   * ids give sixteen different identifiers.
   */
  lemma ManagementIdNibble(m1: uint8, m2: uint8)
    ensures EffectiveOi(NullOi, m1) == EffectiveOi(NullOi, m1 % 16)
    ensures m1 < 16 && m2 < 16 ==> (EffectiveOi(NullOi, m1) == EffectiveOi(NullOi, m2) <==> m1 == m2)
  {
    if m1 < 16 && m2 < 16 && EffectiveOi(NullOi, m1) == EffectiveOi(NullOi, m2) {
      assert EffectiveOi(NullOi, m1).octets[4] % 16 == EffectiveOi(NullOi, m2).octets[4] % 16;
    }
  }

  /** Time between repeats, in ms, for `repeatRate` frames per 5 s. */
  function RepeatPeriod(repeatRate: uint8): (period: nat)
    requires repeatRate != 0
    ensures period * repeatRate <= VSA_REPEAT_PERIOD * 1000 < (period + 1) * repeatRate
    ensures 19 <= period <= 5000
  {
    VSA_REPEAT_PERIOD * 1000 / repeatRate
  }

  /** A VSA request. `vsc` names the packet with the vendor specific content. */
  datatype VsaInfo = VsaInfo(
    peer: Mac48Address,
    oi: OrganizationIdentifier,
    managementId: uint8,
    vsc: nat,
    channelNumber: uint32,
    repeatRate: uint8,
    sendInterval: VsaSentInterval)

  /** A repeated VSA; `nextRepeat` is the time of its pending repeat event. */
  datatype VsaWork = VsaWork(
    peer: Mac48Address,
    oi: OrganizationIdentifier,
    vsc: nat,
    channelNumber: uint32,
    repeatPeriod: nat,
    sentInterval: VsaSentInterval,
    nextRepeat: nat)

  /** A VSA handed to the MAC, with the transmit parameters of its channel. */
  datatype SentVsa = SentVsa(
    vsc: nat,
    peer: Mac48Address,
    oi: OrganizationIdentifier,
    channelNumber: uint32,
    dataRate: WaveDataRate,
    txPowerLevel: uint32,
    adapter: bool)

  /** The entries a removal by channel keeps. */
  function OffChannel(channelNumber: uint32): VsaWork -> bool
  {
    (w: VsaWork) => w.channelNumber != channelNumber
  }

  /** The entries a removal by identifier keeps. */
  function WithoutOi(oi: OrganizationIdentifier): VsaWork -> bool
  {
    (w: VsaWork) => w.oi != oi
  }

  /** Removing by channel and by identifier can be done in either order, and repeating one changes nothing. */
  lemma RemovalsCommute(vsas: seq<VsaWork>, channelNumber: uint32, oi: OrganizationIdentifier)
    ensures Filter(Filter(vsas, OffChannel(channelNumber)), WithoutOi(oi)) ==
            Filter(Filter(vsas, WithoutOi(oi)), OffChannel(channelNumber))
    ensures Filter(Filter(vsas, OffChannel(channelNumber)), OffChannel(channelNumber)) ==
            Filter(vsas, OffChannel(channelNumber))
  {
    FilterCommutes(vsas, OffChannel(channelNumber), WithoutOi(oi));
    FilterIdempotent(vsas, OffChannel(channelNumber));
  }

  /** A send waiting, as a simulator event, for the start of its interval. */
  datatype DeferredVsa = DeferredVsa(
    at: nat,
    interval: VsaSentInterval,
    channelNumber: uint32,
    vsc: nat,
    oi: OrganizationIdentifier,
    peer: Mac48Address)

  class VsaRepeater {
    const manager: ChannelManager
    const coordinator: ChannelCoordinator
    var vsas: seq<VsaWork>
    /** Every VSA handed to the MAC, in order. */
    ghost var sent: seq<SentVsa>
    /** Sends waiting for their interval; removing work entries does not cancel them. */
    var deferred: seq<DeferredVsa>

    ghost predicate Valid()
      reads this, manager, coordinator
    {
      manager.Valid() && coordinator.Config().Sync() > 0
    }

    /** Creation followed by attachment to the device owning `manager` and `coordinator`. */
    constructor (manager: ChannelManager, coordinator: ChannelCoordinator)
      requires manager.Valid() && coordinator.Config().Sync() > 0
      ensures Valid() && this.manager == manager && this.coordinator == coordinator
      ensures vsas == [] && sent == [] && deferred == []
    {
      this.manager := manager;
      this.coordinator := coordinator;
      vsas := [];
      sent := [];
      deferred := [];
    }

    /** The frame sent on `channelNumber` now. */
    function Outgoing(vsc: nat, peer: Mac48Address, oi: OrganizationIdentifier, channelNumber: uint32): SentVsa
      requires Valid() && IsWaveChannel(channelNumber)
      reads this, manager, coordinator
    {
      SentVsa(vsc, peer, oi, channelNumber, manager.GetDataRate(channelNumber),
              manager.GetTxPowerLevel(channelNumber), manager.IsAdapter(channelNumber))
    }

    /**
     * The effect of one send request at `now` on the sent and deferred logs,
     * from `sentBefore` and `deferredBefore`: nothing on a Dead channel, the
     * frame inside its interval, a retry at the interval's start otherwise.
     */
    ghost predicate Dispatched(sentBefore: seq<SentVsa>, deferredBefore: seq<DeferredVsa>, interval: VsaSentInterval,
                               channelNumber: uint32, vsc: nat, oi: OrganizationIdentifier, peer: Mac48Address, now: nat)
      requires Valid() && IsWaveChannel(channelNumber)
      reads this, manager, coordinator
    {
      if manager.IsChannelDead(channelNumber) then
        sent == sentBefore && deferred == deferredBefore
      else
        match SendDecision(coordinator.Config(), interval, now)
        case SendNow =>
          sent == sentBefore + [Outgoing(vsc, peer, oi, channelNumber)] && deferred == deferredBefore
        case RetryAt(at) =>
          sent == sentBefore && deferred == deferredBefore + [DeferredVsa(at, interval, channelNumber, vsc, oi, peer)]
    }

    /**
     * Hands one VSA to the MAC when its channel has access and its interval
     * is current; a VSA outside its interval is retried at the interval's start.
     */
    method DoSendVsa(interval: VsaSentInterval, channelNumber: uint32, vsc: nat,
                     oi: OrganizationIdentifier, peer: Mac48Address, now: nat)
      requires Valid() && IsWaveChannel(channelNumber)
      modifies this
      ensures Valid() && vsas == old(vsas)
      ensures Dispatched(old(sent), old(deferred), interval, channelNumber, vsc, oi, peer, now)
    {
      if manager.IsChannelDead(channelNumber) {
        return;
      }
      var decision := SendDecision(coordinator.Config(), interval, now);
      if decision.RetryAt? {
        deferred := deferred + [DeferredVsa(decision.at, interval, channelNumber, vsc, oi, peer)];
        return;
      }
      sent := sent + [Outgoing(vsc, peer, oi, channelNumber)];
    }

    /**
     * Sends a VSA once and, for a group peer with a non-zero repeat rate,
     * adds a work entry whose first repeat is one period from `now`.
     */
    method SendVsa(info: VsaInfo, now: nat)
      requires Valid() && IsWaveChannel(info.channelNumber)
      modifies this
      ensures Valid()
      ensures !(IsGroup(info.peer) && info.repeatRate != 0) ==> vsas == old(vsas)
      ensures IsGroup(info.peer) && info.repeatRate != 0 ==>
        vsas == old(vsas) + [VsaWork(info.peer, EffectiveOi(info.oi, info.managementId), info.vsc,
                                     info.channelNumber, RepeatPeriod(info.repeatRate),
                                     info.sendInterval, now + RepeatPeriod(info.repeatRate))]
      ensures Dispatched(old(sent), old(deferred), info.sendInterval, info.channelNumber, info.vsc,
                         EffectiveOi(info.oi, info.managementId), info.peer, now)
    {
      var oi := EffectiveOi(info.oi, info.managementId);
      if IsGroup(info.peer) && info.repeatRate != 0 {
        var period := RepeatPeriod(info.repeatRate);
        var vsa := VsaWork(info.peer, oi, info.vsc, info.channelNumber, period, info.sendInterval, now + period);
        vsas := vsas + [vsa];
      }
      DoSendVsa(info.sendInterval, info.channelNumber, info.vsc, oi, info.peer, now);
    }

    /** The repeat event of entry `index` fires at `now`: the next one is armed and the frame sent again. */
    method DoRepeat(index: nat, now: nat)
      requires Valid() && index < |vsas| && IsWaveChannel(vsas[index].channelNumber)
      modifies this
      ensures Valid()
      ensures vsas == old(vsas)[index := old(vsas)[index].(nextRepeat := now + old(vsas)[index].repeatPeriod)]
      ensures var w := old(vsas)[index];
        Dispatched(old(sent), old(deferred), w.sentInterval, w.channelNumber, w.vsc, w.oi, w.peer, now)
    {
      var vsa := vsas[index];
      vsas := vsas[index := vsa.(nextRepeat := now + vsa.repeatPeriod)];
      DoSendVsa(vsa.sentInterval, vsa.channelNumber, vsa.vsc, vsa.oi, vsa.peer, now);
    }

    /** Cancels every repeat. */
    method RemoveAll()
      modifies this
      ensures vsas == [] && sent == old(sent) && deferred == old(deferred)
    {
      vsas := [];
    }

    /** Cancels the repeats on `channelNumber`; the others stay, in order. */
    method RemoveByChannel(channelNumber: uint32)
      modifies this
      ensures vsas == Filter(old(vsas), OffChannel(channelNumber))
      ensures sent == old(sent) && deferred == old(deferred)
    {
      RemoveWhere(OffChannel(channelNumber));
    }

    /** Cancels the repeats carrying `oi`; the others stay, in order. */
    method RemoveByOrganizationIdentifier(oi: OrganizationIdentifier)
      modifies this
      ensures vsas == Filter(old(vsas), WithoutOi(oi))
      ensures sent == old(sent) && deferred == old(deferred)
    {
      RemoveWhere(WithoutOi(oi));
    }

    /** The erase-while-iterating loop shared by the two removals. */
    method RemoveWhere(keep: VsaWork -> bool)
      modifies this
      ensures vsas == Filter(old(vsas), keep)
      ensures sent == old(sent) && deferred == old(deferred)
    {
      ghost var original := vsas;
      var i := 0;
      ghost var j := 0;
      while i < |vsas|
        invariant 0 <= i <= |vsas| && 0 <= j <= |original|
        invariant vsas[..i] == Filter(original[..j], keep)
        invariant vsas[i..] == original[j..]
        invariant sent == old(sent) && deferred == old(deferred)
        decreases |vsas| - i
      {
        assert original[..j + 1][..j] == original[..j];
        assert vsas[i] == original[j];
        if !keep(vsas[i]) {
          vsas := vsas[..i] + vsas[i + 1..];
        } else {
          i := i + 1;
        }
        j := j + 1;
      }
      assert original[..j] == original;
    }
  }
}
