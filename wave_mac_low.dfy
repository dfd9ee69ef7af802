/**
 * The two decisions the WAVE MAC adds to the lower MAC: which transmit
 * vector a data frame uses when the upper layer attached its own, and
 * whether a frame may start in alternating access without running into
 * the next guard interval.
 */
module MacLow {
  import opened Common
  import opened Coordination
  import opened Scheduling

  /** A transmission mode; two modes may share a data rate and still differ. */
  datatype WifiMode = WifiMode(name: nat, dataRate: nat)

  datatype TxVector = TxVector(mode: WifiMode, txPowerLevel: uint8)

  /**
   * The per-packet tag set by the upper layer. With `adapter` set, its rate
   * is a lower bound and its power an upper bound for the MAC's own choice;
   * without it, its values are used as given.
   */
  datatype DataTxVectorTag = DataTxVectorTag(vector: TxVector, adapter: bool)

  function Min(a: uint8, b: uint8): uint8
  {
    if a <= b then a else b
  }

  /** The vector a data frame is sent with, given its tag (if any) and the MAC's own vector. */
  function GetDataTxVector(tag: Option<DataTxVectorTag>, mac: TxVector): (v: TxVector)
    ensures tag.None? ==> v == mac
    ensures tag.Some? && !tag.value.adapter ==> v == tag.value.vector
    // adaptable: the rate is at least both rates, taken from one of the two modes
    ensures tag.Some? && tag.value.adapter ==>
      v.mode.dataRate >= tag.value.vector.mode.dataRate && v.mode.dataRate >= mac.mode.dataRate
    ensures tag.Some? && tag.value.adapter ==> v.mode == tag.value.vector.mode || v.mode == mac.mode
    // on equal rates the MAC's mode is kept
    ensures tag.Some? && tag.value.adapter && tag.value.vector.mode.dataRate == mac.mode.dataRate ==>
      v.mode == mac.mode
    // adaptable: the power is at most both powers, taken from one of the two
    ensures tag.Some? && tag.value.adapter ==>
      v.txPowerLevel <= tag.value.vector.txPowerLevel && v.txPowerLevel <= mac.txPowerLevel
    ensures tag.Some? && tag.value.adapter ==>
      v.txPowerLevel == tag.value.vector.txPowerLevel || v.txPowerLevel == mac.txPowerLevel
  {
    match tag
    case None => mac
    case Some(t) =>
      if !t.adapter then t.vector
      else
        var higher := t.vector;
        var mode := if higher.mode.dataRate > mac.mode.dataRate then higher.mode else mac.mode;
        TxVector(mode, Min(higher.txPowerLevel, mac.txPowerLevel))
  }

  /** An adaptable tag whose bounds the MAC's vector already meets leaves that vector unchanged. */
  lemma AdaptableTagWithinBounds(tag: TxVector, mac: TxVector)
    requires tag.mode.dataRate <= mac.mode.dataRate && mac.txPowerLevel <= tag.txPowerLevel
    ensures GetDataTxVector(Some(DataTxVectorTag(tag, true)), mac) == mac
  {
  }

  /**
   * Whether a frame taking `transmissionTime` ms is handed to the lower MAC
   * at `now`; a refused frame is requeued by the EDCA layer.
   */
  predicate StartTransmission(access: ChannelAccess, cfg: IntervalConfig, now: nat, transmissionTime: nat)
    requires cfg.Sync() > 0
  {
    access != AlternatingAccess || transmissionTime <= NeedTimeToGuardInterval(cfg, now)
  }

  /**
   * In alternating access a frame that is passed on never overlaps a guard
   * interval, and a frame that is refused would have run into one.
   */
  lemma StartTransmissionAvoidsGuard(cfg: IntervalConfig, now: nat, transmissionTime: nat)
    requires cfg.cchi > 0 && cfg.schi > 0 && cfg.gi > 0 && transmissionTime > 0
    ensures StartTransmission(AlternatingAccess, cfg, now, transmissionTime) ==>
      forall t: nat :: now <= t < now + transmissionTime ==> !IsGuardInterval(cfg, t)
    ensures !StartTransmission(AlternatingAccess, cfg, now, transmissionTime) ==>
      exists t: nat :: now <= t < now + transmissionTime && IsGuardInterval(cfg, t)
  {
    NeedTimeToGuardLands(cfg, now);
    var wait := NeedTimeToGuardInterval(cfg, now);
    if !StartTransmission(AlternatingAccess, cfg, now, transmissionTime) {
      assert IsGuardInterval(cfg, now + wait);
    }
  }

  /** Outside alternating access every frame is passed on. */
  lemma StartTransmissionOtherModes(access: ChannelAccess, cfg: IntervalConfig, now: nat, transmissionTime: nat)
    requires cfg.Sync() > 0 && access != AlternatingAccess
    ensures StartTransmission(access, cfg, now, transmissionTime)
  {
  }
}
