/**
 * Channel access assignment of IEEE 1609.4-2010: a single-radio device holds
 * at most one service channel at a time, either alternating with the control
 * channel, continuously, or for a number of sync intervals (extended access),
 * and otherwise stays on the control channel.
 */
module Scheduling {
  import opened Common
  import opened ChannelManagement
  import opened Coordination

  /** `SchInfo.extendedAccess` value asking for alternating access. */
  const EXTENDS_ALTERNATING: uint8 := 0
  /** `SchInfo.extendedAccess` value asking for continuous (indefinite) access. */
  const EXTENDS_CONTINUOUS: uint8 := 0xff

  /** A request for service-channel access. */
  datatype SchInfo = SchInfo(channelNumber: uint32, immediateAccess: bool, extendedAccess: uint8)

  function DefaultSchInfo(): SchInfo
  {
    SchInfo(SCH1, false, EXTENDS_ALTERNATING)
  }

  datatype ChannelAccess = ContinuousAccess | AlternatingAccess | ExtendedAccess | DefaultCchAccess

  /** The access mode a request selects through its `extendedAccess` value. */
  function RequestedAccess(extendedAccess: uint8): (access: ChannelAccess)
    ensures access != DefaultCchAccess
    ensures access == ContinuousAccess <==> extendedAccess == EXTENDS_CONTINUOUS
    ensures access == AlternatingAccess <==> extendedAccess == EXTENDS_ALTERNATING
  {
    if extendedAccess == EXTENDS_CONTINUOUS then ContinuousAccess
    else if extendedAccess == EXTENDS_ALTERNATING then AlternatingAccess
    else ExtendedAccess
  }

  /** What a timer handed to the simulator will call when it expires. */
  datatype TimerAction =
    | RetryContinuous(channelNumber: uint32)
    | RetryExtended(channelNumber: uint32, extension: uint32)
    | AutoRelease(channelNumber: uint32)

  datatype Timer = Timer(uid: nat, at: nat, action: TimerAction)

  /** Calls made on the radio (PHY) and the MAC, which are not part of this model. */
  datatype RadioCall =
    | PhySetChannel(channelNumber: uint32)
    | MacSwitchQueue(channelNumber: uint32)
    | MacNotifyBusy(duration: int)
    | MacQueueStartAccess

  /** `timers` without the one with identifier `uid`: cancelling an event. */
  function Cancel(timers: seq<Timer>, uid: nat): (r: seq<Timer>)
    ensures forall t :: t in r <==> t in timers && t.uid != uid
  {
    Filter(timers, (t: Timer) => t.uid != uid)
  }

  // ---------------------------------------------------------------------
  // Busy time when alternating access starts inside a guard
  // ---------------------------------------------------------------------

  /** The busy time as the source computes it: the guard length less the offset in the sync interval. */
  function AlternatingBusyAsWritten(cfg: IntervalConfig, at: nat): (busy: int)
    requires cfg.Sync() > 0
    ensures busy <= cfg.gi
    ensures IsSchInterval(cfg, at) && cfg.gi < cfg.cchi ==> busy < 0
  {
    cfg.gi - GetIntervalTime(cfg, at)
  }

  /** The time left in the current guard: the guard length less the offset in the current half. */
  function RemainingGuard(cfg: IntervalConfig, at: nat): (remain: int)
    requires cfg.Sync() > 0
    ensures IsGuardInterval(cfg, at) ==> 0 < remain <= cfg.gi
  {
    var offset := GetIntervalTime(cfg, at);
    cfg.gi - (if offset < cfg.cchi then offset else offset - cfg.cchi)
  }

  /** In an SCH guard of the default configuration the source declares a negative busy time. */
  lemma AlternatingBusyNegativeInSchGuard()
    ensures IsGuardInterval(DefaultConfig(), 51) && IsSchInterval(DefaultConfig(), 51)
    ensures AlternatingBusyAsWritten(DefaultConfig(), 51) == -47
    ensures RemainingGuard(DefaultConfig(), 51) == 3
  {
  }

  /** In a CCH guard both computations agree. */
  lemma AlternatingBusyAgreesInCchGuard(cfg: IntervalConfig, at: nat)
    requires cfg.Sync() > 0 && IsCchInterval(cfg, at)
    ensures AlternatingBusyAsWritten(cfg, at) == RemainingGuard(cfg, at)
  {
  }

  /** Busy for RemainingGuard covers the rest of the guard and ends exactly where the guard ends. */
  lemma RemainingGuardEndsGuard(cfg: IntervalConfig, at: nat)
    requires cfg.Sync() > 0 && IsValidConfig(cfg) && IsGuardInterval(cfg, at)
    ensures forall t: nat :: at <= t < at + RemainingGuard(cfg, at) ==> IsGuardInterval(cfg, t)
    ensures !IsGuardInterval(cfg, at + RemainingGuard(cfg, at))
  {
    var remain := RemainingGuard(cfg, at);
    IntervalTimeShift(cfg, at, remain);
    forall t: nat | at <= t < at + remain
      ensures IsGuardInterval(cfg, t)
    {
      IntervalTimeShift(cfg, at, t - at);
    }
  }

  // ---------------------------------------------------------------------
  // The scheduler
  // ---------------------------------------------------------------------

  class ChannelScheduler {
    const manager: ChannelManager
    const coordinator: ChannelCoordinator
    /** The held channel: the continuous/extended channel, or the SCH alternating with CCH. */
    var channelNumber: uint32
    /** The number of extended sync intervals last granted. */
    var extend: uint32
    var channelAccess: ChannelAccess
    /** Identifier of the last retry timer armed (0: none yet). */
    var waitEvent: nat
    /** Identifier of the last auto-release timer armed (0: none yet). */
    var extendEvent: nat
    /** Timers handed to the simulator and not cancelled. */
    var pending: seq<Timer>
    var nextUid: nat
    ghost var radio: seq<RadioCall>

    function Config(): IntervalConfig
      reads coordinator
    {
      coordinator.Config()
    }

    /** Single-radio exclusivity and the channel states each access mode sets up. */
    ghost predicate Valid()
      reads this, manager, coordinator
    {
      manager.Valid() && Config().Sync() > 0 && nextUid > 0 &&
      IsWaveChannel(channelNumber) &&
      (forall c :: IsSch(c) && c != channelNumber ==> manager.GetState(c) == Dead) &&
      (channelAccess == DefaultCchAccess ==> channelNumber == CCH) &&
      (channelNumber == CCH ==> manager.GetState(CCH) != Dead) &&
      (channelNumber != CCH && channelAccess == AlternatingAccess ==>
        (manager.GetState(channelNumber) == Active && manager.GetState(CCH) == Inactive) ||
        (manager.GetState(channelNumber) == Inactive && manager.GetState(CCH) == Active)) &&
      (channelNumber != CCH && channelAccess in {ContinuousAccess, ExtendedAccess} ==>
        manager.GetState(channelNumber) == Active && manager.GetState(CCH) == Dead)
    }

    /**
     * A scheduler wired to a fresh channel table and initialised: default
     * CCH access with the radio and the queue on CCH.
     */
    constructor (manager: ChannelManager, coordinator: ChannelCoordinator)
      requires manager.Valid() && coordinator.Config().Sync() > 0
      requires forall c :: IsWaveChannel(c) ==> manager.GetState(c) == Dead
      modifies manager
      ensures this.manager == manager && this.coordinator == coordinator
      ensures Valid()
      ensures channelNumber == CCH && extend == 255 && channelAccess == DefaultCchAccess
      ensures manager.channels == WithState(old(manager.channels), CCH, Active)
      ensures pending == [] && radio == [PhySetChannel(CCH), MacSwitchQueue(CCH)]
    {
      this.manager := manager;
      this.coordinator := coordinator;
      channelNumber := CCH;
      extend := 255;
      channelAccess := DefaultCchAccess;
      waitEvent := 0;
      extendEvent := 0;
      pending := [];
      nextUid := 1;
      radio := [];
      new;
      AssignDefaultCchAccess();
    }

    /** Whether `cn` has access assigned other than the default CCH access. */
    predicate IsAccessAssigned(cn: uint32)
      reads this
    {
      match channelAccess
      case ContinuousAccess => channelNumber == cn
      case ExtendedAccess => channelNumber == cn
      case AlternatingAccess => cn == CCH || channelNumber == cn
      case DefaultCchAccess => false
    }

    predicate IsAnyAccessAssigned()
      reads this
    {
      channelAccess != DefaultCchAccess
    }

    /** At most one WAVE channel is active at any time: the device has one radio. */
    lemma AtMostOneActive(c1: uint32, c2: uint32)
      requires Valid() && IsWaveChannel(c1) && IsWaveChannel(c2)
      requires manager.GetState(c1) == Active && manager.GetState(c2) == Active
      ensures c1 == c2
    {
      SchPartition(c1);
      SchPartition(c2);
    }

    /** A channel with access assigned is never Dead, so traffic for it is accepted. */
    lemma AssignedChannelAlive(cn: uint32)
      requires Valid() && IsWaveChannel(cn) && IsAccessAssigned(cn)
      ensures manager.GetState(cn) != Dead
    {
    }

    /** Switches to CCH: CCH Active, radio and queue on CCH. The access mode is left as it is. */
    method AssignDefaultCchAccess()
      requires manager.Valid() && IsWaveChannel(channelNumber)
      requires forall c :: IsSch(c) ==> manager.GetState(c) == Dead
      requires Config().Sync() > 0 && nextUid > 0
      modifies this, manager
      ensures Valid()
      ensures manager.channels == WithState(old(manager.channels), CCH, Active)
      ensures channelNumber == CCH
      ensures radio == old(radio) + [PhySetChannel(CCH), MacSwitchQueue(CCH)]
      ensures channelAccess == old(channelAccess) && extend == old(extend)
      ensures pending == old(pending) && waitEvent == old(waitEvent) && extendEvent == old(extendEvent)
      ensures nextUid == old(nextUid)
    {
      manager.SetState(CCH, Active);
      radio := radio + [PhySetChannel(CCH), MacSwitchQueue(CCH)];
      channelNumber := CCH;
    }

    /** Arms a timer and returns its identifier. */
    method Schedule(at: nat, action: TimerAction) returns (uid: nat)
      modifies this
      ensures uid == old(nextUid) && nextUid == old(nextUid) + 1
      ensures pending == old(pending) + [Timer(uid, at, action)]
      ensures channelNumber == old(channelNumber) && extend == old(extend) && channelAccess == old(channelAccess)
      ensures waitEvent == old(waitEvent) && extendEvent == old(extendEvent) && radio == old(radio)
    {
      uid := nextUid;
      nextUid := nextUid + 1;
      pending := pending + [Timer(uid, at, action)];
    }

    /**
     * The outcome of an alternating request for `cn` made at `now`, as the
     * state before it and the state after it show.
     */
    twostate predicate AlternatingOutcome(cn: uint32, immediate: bool, now: nat, ok: bool)
      requires old(Valid()) && IsWaveChannel(cn) && Config().Sync() > 0
      reads this, manager, coordinator
    {
      (cn == CCH ==> !ok && unchanged(this, manager)) &&
      (cn != CCH && old(channelAccess) == AlternatingAccess && cn == old(channelNumber) ==>
        ok && unchanged(this, manager)) &&
      ((cn != CCH && !(old(channelAccess) == AlternatingAccess && cn == old(channelNumber)) &&
        old(channelNumber) != CCH) ==> !ok && unchanged(this, manager)) &&
      ((cn != CCH && !(old(channelAccess) == AlternatingAccess && cn == old(channelNumber)) &&
        old(channelNumber) == CCH) ==> ok && AlternatingEntered(cn, immediate, now))
    }

    /** The grant of alternating access to the SCH `cn` at `now`, from CCH. */
    twostate predicate AlternatingEntered(cn: uint32, immediate: bool, now: nat)
      requires old(Valid()) && IsWaveChannel(cn) && Config().Sync() > 0
      reads this, manager, coordinator
    {
      channelNumber == cn && channelAccess == AlternatingAccess &&
      extend == old(extend) && pending == old(pending) && nextUid == old(nextUid) &&
      waitEvent == old(waitEvent) && extendEvent == old(extendEvent) &&
      manager.channels == (
        if immediate || IsSchInterval(Config(), now)
        then WithState(WithState(old(manager.channels), cn, Active), CCH, Inactive)
        else WithState(WithState(old(manager.channels), CCH, Active), cn, Inactive)) &&
      radio == old(radio)
        + (if immediate || IsSchInterval(Config(), now) then [PhySetChannel(cn), MacSwitchQueue(cn)] else [])
        + (if IsGuardInterval(Config(), now) then [MacNotifyBusy(RemainingGuard(Config(), now))] else [])
    }

    /**
     * Alternating access to the SCH `cn`. Refused for CCH and while another
     * channel is held. Granted at once: the SCH becomes Active when the
     * request is immediate or it is SCH interval now, otherwise CCH stays
     * Active and the SCH waits Inactive. Inside a guard the medium is
     * declared busy for the rest of the guard.
     */
    method AssignAlternatingAccess(cn: uint32, immediate: bool, now: nat) returns (ok: bool)
      requires Valid() && IsWaveChannel(cn)
      modifies this, manager
      ensures Valid()
      ensures AlternatingOutcome(cn, immediate, now, ok)
    {
      if cn == CCH {
        return false;
      }
      if channelAccess == AlternatingAccess && cn == channelNumber {
        return true;
      }
      if channelNumber != CCH {
        return false;
      }
      EnterAlternating(cn, immediate, now);
      ok := true;
    }

    /** The grant of `AssignAlternatingAccess`, from CCH to the SCH `cn`. */
    method EnterAlternating(cn: uint32, immediate: bool, now: nat)
      requires Valid() && IsWaveChannel(cn) && cn != CCH && channelNumber == CCH
      modifies this, manager
      ensures Valid()
      ensures AlternatingEntered(cn, immediate, now)
    {
      if immediate || IsSchInterval(Config(), now) {
        manager.SetStates(cn, Active, CCH, Inactive);
        radio := radio + [PhySetChannel(cn), MacSwitchQueue(cn)];
      } else {
        manager.SetStates(CCH, Active, cn, Inactive);
      }
      if IsGuardInterval(Config(), now) {
        radio := radio + [MacNotifyBusy(RemainingGuard(Config(), now))];
      }
      channelNumber := cn;
      channelAccess := AlternatingAccess;
    }

    /**
     * The outcome of a continuous request for `cn` made at `now`, as the
     * state before it and the state after it show.
     */
    twostate predicate ContinuousOutcome(cn: uint32, immediate: bool, now: nat, ok: bool)
      requires old(Valid()) && IsWaveChannel(cn) && Config().Sync() > 0
      reads this, manager, coordinator
    {
      (old(channelAccess) == ContinuousAccess && cn == old(channelNumber) ==>
        ok && unchanged(this, manager)) &&
      ((!(old(channelAccess) == ContinuousAccess && cn == old(channelNumber)) &&
        old(channelNumber) != CCH) ==> !ok && unchanged(this, manager)) &&
      ((!(old(channelAccess) == ContinuousAccess && cn == old(channelNumber)) &&
        old(channelNumber) == CCH) ==> ok) &&
      ((!(old(channelAccess) == ContinuousAccess && cn == old(channelNumber)) &&
        old(channelNumber) == CCH && SwitchNow(cn, immediate, now)) ==>
        channelNumber == cn && channelAccess == ContinuousAccess &&
        manager.channels == WithState(WithState(old(manager.channels), CCH, Dead), cn, Active) &&
        radio == old(radio) + [PhySetChannel(cn), MacSwitchQueue(cn)] &&
        extend == old(extend) && pending == old(pending) && nextUid == old(nextUid) &&
        waitEvent == old(waitEvent) && extendEvent == old(extendEvent)) &&
      ((!(old(channelAccess) == ContinuousAccess && cn == old(channelNumber)) &&
        old(channelNumber) == CCH && !SwitchNow(cn, immediate, now)) ==>
        unchanged(manager) && channelNumber == old(channelNumber) &&
        channelAccess == old(channelAccess) && extend == old(extend) && radio == old(radio) &&
        pending == old(pending) + [Timer(old(nextUid), now + WaitForRole(cn, now), RetryContinuous(cn))] &&
        waitEvent == old(nextUid) && nextUid == old(nextUid) + 1 && extendEvent == old(extendEvent))
    }

    /**
     * Continuous access to `cn`. Refused while another channel is held.
     * Switches now when immediate or when `cn`'s role (CCH or SCH) matches
     * the current interval: radio and queue move to `cn`, CCH becomes Dead
     * and `cn` Active. Otherwise nothing changes but a retry is armed for
     * the start of the matching interval.
     */
    method AssignContinuousAccess(cn: uint32, immediate: bool, now: nat) returns (ok: bool)
      requires Valid() && IsWaveChannel(cn)
      modifies this, manager
      ensures Valid()
      ensures ContinuousOutcome(cn, immediate, now, ok)
    {
      if channelAccess == ContinuousAccess && cn == channelNumber {
        return true;
      }
      if channelNumber != CCH {
        return false;
      }
      if SwitchNow(cn, immediate, now) {
        SwitchExclusively(cn, ContinuousAccess);
      } else {
        var wait := WaitForRole(cn, now);
        waitEvent := Schedule(now + wait, RetryContinuous(cn));
      }
      ok := true;
    }

    /** The switch of continuous and extended access: radio and queue move to `cn`, CCH dies, `cn` becomes Active. */
    method SwitchExclusively(cn: uint32, access: ChannelAccess)
      requires Valid() && IsWaveChannel(cn) && channelNumber == CCH
      requires access == ContinuousAccess || access == ExtendedAccess
      modifies this, manager
      ensures Valid()
      ensures channelNumber == cn && channelAccess == access
      ensures manager.channels == WithState(WithState(old(manager.channels), CCH, Dead), cn, Active)
      ensures radio == old(radio) + [PhySetChannel(cn), MacSwitchQueue(cn)]
      ensures extend == old(extend) && pending == old(pending) && nextUid == old(nextUid)
      ensures waitEvent == old(waitEvent) && extendEvent == old(extendEvent)
    {
      radio := radio + [PhySetChannel(cn), MacSwitchQueue(cn)];
      manager.SetState(CCH, Dead);
      manager.SetState(cn, Active);
      channelNumber := cn;
      channelAccess := access;
    }

    /** Whether a continuous or extended request switches at once. */
    predicate SwitchNow(cn: uint32, immediate: bool, now: nat)
      requires Config().Sync() > 0
      reads coordinator
    {
      immediate ||
      (IsCch(cn) && IsCchInterval(Config(), now)) ||
      (IsSch(cn) && IsSchInterval(Config(), now))
    }

    /** Time until the interval matching `cn`'s role starts. */
    function WaitForRole(cn: uint32, now: nat): nat
      requires Config().Sync() > 0
      reads coordinator
    {
      if IsCch(cn) then NeedTimeToCchInterval(Config(), now) else NeedTimeToSchInterval(Config(), now)
    }

    /** A request that is neither immediate nor in its interval is retried exactly when that interval starts. */
    lemma RetryLandsInRole(cn: uint32, now: nat)
      requires Config().Sync() > 0 && Config().cchi > 0 && Config().schi > 0 && IsWaveChannel(cn)
      ensures SwitchNow(cn, false, now + WaitForRole(cn, now))
      ensures !SwitchNow(cn, false, now) ==> WaitForRole(cn, now) > 0
    {
      SchPartition(cn);
      if IsCch(cn) {
        NeedTimeToCchLands(Config(), now);
      } else {
        NeedTimeToSchLands(Config(), now);
      }
    }

    /**
     * The outcome of an extended request for `cn` over `extension` sync
     * intervals made at `now`, as the state before it and the state after it
     * show.
     */
    twostate predicate ExtendedOutcome(cn: uint32, extension: uint32, immediate: bool, now: nat, ok: bool)
      requires old(Valid()) && IsWaveChannel(cn) && Config().Sync() > 0
      reads this, manager, coordinator
    {
      (old(channelAccess) == ExtendedAccess && old(channelNumber) == cn && extension <= old(extend) ==>
        ok && unchanged(this, manager)) &&
      ((!(old(channelAccess) == ExtendedAccess && old(channelNumber) == cn && extension <= old(extend)) &&
        old(channelNumber) != CCH) ==> !ok && unchanged(this, manager)) &&
      ((!(old(channelAccess) == ExtendedAccess && old(channelNumber) == cn && extension <= old(extend)) &&
        old(channelNumber) == CCH) ==> ok) &&
      ((!(old(channelAccess) == ExtendedAccess && old(channelNumber) == cn && extension <= old(extend)) &&
        old(channelNumber) == CCH && SwitchNow(cn, immediate, now)) ==>
        extend == extension && channelNumber == cn && channelAccess == ExtendedAccess &&
        manager.channels == WithState(WithState(old(manager.channels), CCH, Dead), cn, Active) &&
        radio == old(radio) + [PhySetChannel(cn), MacSwitchQueue(cn)] &&
        pending == old(pending) +
          [Timer(old(nextUid), now + WaitForRole(cn, now) + extension * Config().Sync(), AutoRelease(cn))] &&
        extendEvent == old(nextUid) && nextUid == old(nextUid) + 1 && waitEvent == old(waitEvent)) &&
      ((!(old(channelAccess) == ExtendedAccess && old(channelNumber) == cn && extension <= old(extend)) &&
        old(channelNumber) == CCH && !SwitchNow(cn, immediate, now)) ==>
        unchanged(manager) && channelNumber == old(channelNumber) &&
        channelAccess == old(channelAccess) && extend == old(extend) && radio == old(radio) &&
        pending == old(pending) + [Timer(old(nextUid), now + WaitForRole(cn, now), RetryExtended(cn, extension))] &&
        waitEvent == old(nextUid) && nextUid == old(nextUid) + 1 && extendEvent == old(extendEvent))
    }

    /**
     * Extended access to `cn` for `extension` sync intervals. Re-requesting the
     * held channel for no more intervals than granted succeeds unchanged;
     * asking for more is refused like any request while a channel is held.
     * On a switch the auto-release is armed `extension` sync intervals after
     * the start of the interval the request was meant for.
     */
    method AssignExtendedAccess(cn: uint32, extension: uint32, immediate: bool, now: nat) returns (ok: bool)
      requires Valid() && IsWaveChannel(cn)
      requires 0 < extension < 0xff
      modifies this, manager
      ensures Valid()
      ensures ExtendedOutcome(cn, extension, immediate, now, ok)
    {
      if channelAccess == ExtendedAccess && channelNumber == cn && extension <= extend {
        return true;
      }
      if channelNumber != CCH {
        return false;
      }
      var wait := WaitForRole(cn, now);
      if SwitchNow(cn, immediate, now) {
        extend := extension;
        SwitchExclusively(cn, ExtendedAccess);
        var extendedDuration := wait + extension * Config().Sync();
        extendEvent := Schedule(now + extendedDuration, AutoRelease(cn));
      } else {
        waitEvent := Schedule(now + wait, RetryExtended(cn, extension));
      }
      ok := true;
    }

    /** Dispatches a request on its `extendedAccess` value: 255 continuous, 0 alternating, else extended. */
    method StartSch(info: SchInfo, now: nat) returns (ok: bool)
      requires Valid() && IsWaveChannel(info.channelNumber)
      modifies this, manager
      ensures Valid()
      ensures !ok ==> unchanged(this, manager)
      ensures !ok ==>
        old(channelNumber) != CCH ||
        (info.channelNumber == CCH && RequestedAccess(info.extendedAccess) == AlternatingAccess)
      ensures channelNumber != old(channelNumber) ==>
        ok && old(channelNumber) == CCH &&
        channelNumber == info.channelNumber && channelAccess == RequestedAccess(info.extendedAccess)
      ensures RequestedAccess(info.extendedAccess) == ContinuousAccess ==>
        ContinuousOutcome(info.channelNumber, info.immediateAccess, now, ok)
      ensures RequestedAccess(info.extendedAccess) == AlternatingAccess ==>
        AlternatingOutcome(info.channelNumber, info.immediateAccess, now, ok)
      ensures RequestedAccess(info.extendedAccess) == ExtendedAccess ==>
        ExtendedOutcome(info.channelNumber, info.extendedAccess as uint32, info.immediateAccess, now, ok)
    {
      if info.extendedAccess == EXTENDS_CONTINUOUS {
        ok := AssignContinuousAccess(info.channelNumber, info.immediateAccess, now);
      } else if info.extendedAccess == EXTENDS_ALTERNATING {
        ok := AssignAlternatingAccess(info.channelNumber, info.immediateAccess, now);
      } else {
        ok := AssignExtendedAccess(info.channelNumber, info.extendedAccess, info.immediateAccess, now);
      }
    }

    /** The release of `cn`, as the state before it and the state after it show. */
    twostate predicate Released(cn: uint32)
      requires old(Valid())
      requires old(IsAccessAssigned(cn)) ==> old(channelNumber) != CCH
      reads this, manager, coordinator
    {
      (!old(IsAccessAssigned(cn)) ==> unchanged(this, manager)) &&
      (old(IsAccessAssigned(cn)) ==>
        channelNumber == CCH && channelAccess == old(channelAccess) &&
        manager.channels == WithState(WithState(old(manager.channels), old(channelNumber), Dead), CCH, Active) &&
        radio == old(radio) + [PhySetChannel(CCH), MacSwitchQueue(CCH)] &&
        waitEvent == old(waitEvent) && extendEvent == old(extendEvent) && nextUid == old(nextUid) &&
        (old(channelAccess) in {ContinuousAccess, ExtendedAccess} ==>
          extend == 0 && pending == Cancel(Cancel(old(pending), old(waitEvent)), old(extendEvent))) &&
        (old(channelAccess) == AlternatingAccess ==> extend == old(extend) && pending == old(pending)))
    }

    /**
     * Gives up the access to `cn`. Nothing happens when `cn` has no access.
     * Otherwise the held channel becomes Dead (continuous and extended
     * access also forget the extension and cancel both timers) and the
     * device returns to CCH. The access mode is not reset.
     */
    method Release(cn: uint32)
      requires Valid()
      requires IsAccessAssigned(cn) ==> channelNumber != CCH
      modifies this, manager
      ensures Valid()
      ensures Released(cn)
      ensures old(IsAccessAssigned(cn)) && old(channelAccess) == AlternatingAccess ==> IsAccessAssigned(CCH)
    {
      if !IsAccessAssigned(cn) {
        return;
      }
      match channelAccess {
        case ContinuousAccess | ExtendedAccess =>
          manager.SetState(channelNumber, Dead);
          extend := 0;
          pending := Cancel(pending, waitEvent);
          pending := Cancel(pending, extendEvent);
        case AlternatingAccess =>
          manager.SetState(channelNumber, Dead);
        case DefaultCchAccess =>
      }
      AssignDefaultCchAccess();
    }

    /** Start of a CCH slot: in alternating access the SCH pauses and CCH resumes. */
    method NotifyCchSlotStart(duration: int)
      requires Valid()
      modifies this, manager
      ensures Valid()
      ensures old(channelAccess) != AlternatingAccess ==> unchanged(this, manager)
      ensures old(channelAccess) == AlternatingAccess ==>
        manager.channels == WithState(WithState(old(manager.channels), channelNumber, Inactive), CCH, Active) &&
        radio == old(radio) + [MacQueueStartAccess] &&
        channelNumber == old(channelNumber) && channelAccess == old(channelAccess) && extend == old(extend) &&
        pending == old(pending) && waitEvent == old(waitEvent) && extendEvent == old(extendEvent) &&
        nextUid == old(nextUid)
    {
      if channelAccess != AlternatingAccess {
        return;
      }
      manager.SetState(channelNumber, Inactive);
      manager.SetState(CCH, Active);
      radio := radio + [MacQueueStartAccess];
    }

    /** Start of an SCH slot: in alternating access CCH pauses and the SCH resumes. */
    method NotifySchSlotStart(duration: int)
      requires Valid()
      modifies this, manager
      ensures Valid()
      ensures old(channelAccess) != AlternatingAccess ==> unchanged(this, manager)
      ensures old(channelAccess) == AlternatingAccess ==>
        manager.channels == WithState(WithState(old(manager.channels), channelNumber, Active), CCH, Inactive) &&
        radio == old(radio) + [MacQueueStartAccess] &&
        channelNumber == old(channelNumber) && channelAccess == old(channelAccess) && extend == old(extend) &&
        pending == old(pending) && waitEvent == old(waitEvent) && extendEvent == old(extendEvent) &&
        nextUid == old(nextUid)
    {
      if channelAccess != AlternatingAccess {
        return;
      }
      manager.SetState(channelNumber, Active);
      manager.SetState(CCH, Inactive);
      radio := radio + [MacQueueStartAccess];
    }

    /**
     * Start of a guard: in alternating access the radio and the queue move to
     * CCH (CCH guard) or to the held channel (SCH guard), and the medium is
     * declared busy for the guard (IEEE 1609.4-2010 section 6.2.5, sync tolerance).
     */
    method NotifyGuardSlotStart(duration: int, cchi: bool)
      requires Valid()
      modifies this
      ensures Valid()
      ensures old(channelAccess) != AlternatingAccess ==> unchanged(this)
      ensures old(channelAccess) == AlternatingAccess ==>
        radio == old(radio) +
          (if cchi then [PhySetChannel(CCH), MacSwitchQueue(CCH)]
           else [PhySetChannel(channelNumber), MacSwitchQueue(channelNumber)]) +
          [MacNotifyBusy(duration)]
      ensures channelNumber == old(channelNumber) && channelAccess == old(channelAccess) && extend == old(extend)
      ensures pending == old(pending) && waitEvent == old(waitEvent) && extendEvent == old(extendEvent)
      ensures nextUid == old(nextUid)
    {
      if channelAccess != AlternatingAccess {
        return;
      }
      if cchi {
        radio := radio + [PhySetChannel(CCH), MacSwitchQueue(CCH)];
      } else {
        radio := radio + [PhySetChannel(channelNumber), MacSwitchQueue(channelNumber)];
      }
      radio := radio + [MacNotifyBusy(duration)];
    }
  }
}
