/**
 * Channel coordination of IEEE 1609.4-2010 (section 5.2): time is cut into
 * sync intervals, each a control-channel interval (CCHI) followed by a
 * service-channel interval (SCHI), and each of those starts with a guard
 * interval (GI) during which the radio switches and the device is busy.
 *
 *     <-----------SYNCI----------->
 *         CCHI          SCHI
 *     |..************|..************|
 *      GI             GI
 *
 * All times are whole milliseconds; `at` stands for the instant
 * Now + duration that the original methods evaluate.
 */
module Coordination {
  import opened Common

  // Default characteristics from Annex H of IEEE 1609.4-2010.
  const DEFAULT_CCH_INTERVAL: nat := 50
  const DEFAULT_SCH_INTERVAL: nat := 50
  const SYNC_TOLERANCE: nat := 2
  const MAX_CH_SWITCH_TIME: nat := 2
  const DEFAULT_GUARD_INTERVAL: nat := SYNC_TOLERANCE + MAX_CH_SWITCH_TIME

  /** One UTC second, in milliseconds. */
  const UTC_SECOND: nat := 1000

  datatype IntervalConfig = IntervalConfig(cchi: nat, schi: nat, gi: nat)
  {
    function Sync(): nat { cchi + schi }
    /** The time a CCH slot lasts after its guard. */
    function CchSlot(): int { cchi - gi }
    /** The time an SCH slot lasts after its guard. */
    function SchSlot(): int { schi - gi }
  }

  function DefaultConfig(): IntervalConfig
  {
    IntervalConfig(DEFAULT_CCH_INTERVAL, DEFAULT_SCH_INTERVAL, DEFAULT_GUARD_INTERVAL)
  }

  // ---------------------------------------------------------------------
  // Interval arithmetic
  // ---------------------------------------------------------------------

  /**
   * Offset of `at` inside its sync interval: `at` less the whole sync
   * intervals before it.
   */
  function GetIntervalTime(cfg: IntervalConfig, at: nat): (offset: nat)
    requires cfg.Sync() > 0
    ensures offset < cfg.Sync()
    ensures at == (at / cfg.Sync()) * cfg.Sync() + offset
  {
    at % cfg.Sync()
  }

  /** Time from `at` to the end of its sync interval. */
  function GetRemainTime(cfg: IntervalConfig, at: nat): (remain: nat)
    requires cfg.Sync() > 0
    ensures 0 < remain <= cfg.Sync()
    ensures at + remain == (at / cfg.Sync() + 1) * cfg.Sync()
  {
    cfg.Sync() - GetIntervalTime(cfg, at)
  }

  predicate IsCchInterval(cfg: IntervalConfig, at: nat)
    requires cfg.Sync() > 0
  {
    GetIntervalTime(cfg, at) < cfg.cchi
  }

  predicate IsSchInterval(cfg: IntervalConfig, at: nat)
    requires cfg.Sync() > 0
  {
    !IsCchInterval(cfg, at)
  }

  /** Whether `at` falls in the guard at the start of its CCH or SCH interval. */
  predicate IsGuardInterval(cfg: IntervalConfig, at: nat)
    requires cfg.Sync() > 0
  {
    var future := GetIntervalTime(cfg, at);
    var interval := if future < cfg.cchi then future else future - cfg.cchi;
    interval < cfg.gi
  }

  /**
   * Every UTC second must hold a whole number of sync intervals and each
   * half must be longer than the guard.
   */
  function IsValidConfig(cfg: IntervalConfig): bool
    requires cfg.Sync() > 0
  {
    if UTC_SECOND % cfg.Sync() != 0 then false
    else if cfg.cchi <= cfg.gi then false
    else if cfg.schi <= cfg.gi then false
    else true
  }

  /** Wait until the next CCH interval starts; 0 inside one. */
  function NeedTimeToCchInterval(cfg: IntervalConfig, at: nat): (wait: nat)
    requires cfg.Sync() > 0
    ensures wait == 0 <==> IsCchInterval(cfg, at)
    ensures wait <= cfg.schi
  {
    if IsCchInterval(cfg, at) then 0
    else cfg.Sync() - GetIntervalTime(cfg, at)
  }

  /** Wait until the next SCH interval starts; 0 inside one. */
  function NeedTimeToSchInterval(cfg: IntervalConfig, at: nat): (wait: nat)
    requires cfg.Sync() > 0
    ensures wait == 0 <==> IsSchInterval(cfg, at)
    ensures wait <= cfg.cchi
  {
    if IsSchInterval(cfg, at) then 0
    else cfg.cchi - GetIntervalTime(cfg, at)
  }

  /** Wait until the next guard interval starts; 0 inside one. */
  function NeedTimeToGuardInterval(cfg: IntervalConfig, at: nat): (wait: nat)
    requires cfg.Sync() > 0
    ensures wait == 0 <==> IsGuardInterval(cfg, at)
    ensures wait <= cfg.Sync()
  {
    if IsGuardInterval(cfg, at) then 0
    else if IsCchInterval(cfg, at) then cfg.cchi - GetIntervalTime(cfg, at)
    else cfg.Sync() - GetIntervalTime(cfg, at)
  }

  // ---------------------------------------------------------------------
  // Arithmetic facts behind the interval lemmas
  // ---------------------------------------------------------------------

  lemma DivModUnique(x: int, m: int, q: int, r: int)
    requires m > 0 && 0 <= r < m && x == q * m + r
    ensures x / m == q && x % m == r
  {
    var q', r' := x / m, x % m;
    assert x == q' * m + r';
    if q' > q {
      assert (q' - q) * m >= m by { MulAtLeast(q' - q, m); }
      assert false;
    } else if q' < q {
      assert (q - q') * m >= m by { MulAtLeast(q - q', m); }
      assert false;
    }
  }

  lemma MulAtLeast(a: int, m: int)
    requires a >= 1 && m > 0
    ensures a * m >= m
  {
  }

  /** Moving forward inside one sync interval moves the offset by the same amount. */
  lemma IntervalTimeShift(cfg: IntervalConfig, at: nat, d: nat)
    requires cfg.Sync() > 0
    ensures GetIntervalTime(cfg, at) + d < cfg.Sync() ==>
      GetIntervalTime(cfg, at + d) == GetIntervalTime(cfg, at) + d
    ensures GetIntervalTime(cfg, at) + d == cfg.Sync() ==> GetIntervalTime(cfg, at + d) == 0
  {
    var s, t, q := cfg.Sync(), GetIntervalTime(cfg, at), at / cfg.Sync();
    assert at == q * s + t;
    if t + d < s {
      DivModUnique(at + d, s, q, t + d);
    } else if t + d == s {
      DivModUnique(at + d, s, q + 1, 0);
    }
  }

  /** The offset inside the sync interval repeats every sync interval. */
  lemma IntervalTimePeriodic(cfg: IntervalConfig, at: nat, k: nat)
    requires cfg.Sync() > 0
    ensures GetIntervalTime(cfg, at + k * cfg.Sync()) == GetIntervalTime(cfg, at)
  {
    var s, t, q := cfg.Sync(), GetIntervalTime(cfg, at), at / cfg.Sync();
    assert at + k * s == (q + k) * s + t;
    DivModUnique(at + k * s, s, q + k, t);
  }

  /** So do the CCH, SCH and guard predicates. */
  lemma IntervalsPeriodic(cfg: IntervalConfig, at: nat, k: nat)
    requires cfg.Sync() > 0
    ensures IsCchInterval(cfg, at + k * cfg.Sync()) == IsCchInterval(cfg, at)
    ensures IsSchInterval(cfg, at + k * cfg.Sync()) == IsSchInterval(cfg, at)
    ensures IsGuardInterval(cfg, at + k * cfg.Sync()) == IsGuardInterval(cfg, at)
  {
    IntervalTimePeriodic(cfg, at, k);
  }

  // ---------------------------------------------------------------------
  // What the interval functions promise
  // ---------------------------------------------------------------------

  /** The default intervals: 50 + 50 ms with a 4 ms guard, a valid configuration. */
  lemma DefaultConfigValues()
    ensures DefaultConfig().Sync() == 100
    ensures DefaultConfig().gi == 4
    ensures DefaultConfig().CchSlot() == 46 && DefaultConfig().SchSlot() == 46
    ensures IsValidConfig(DefaultConfig())
  {
  }

  /** The documented example: 100 ms sync, now 5 s 20 ms, 50 ms ahead: 70 ms in, 30 ms left. */
  lemma IntervalTimeExample()
    ensures GetIntervalTime(DefaultConfig(), 5020 + 50) == 70
    ensures GetRemainTime(DefaultConfig(), 5020 + 50) == 30
  {
    DivModUnique(5070, 100, 50, 70);
  }

  /** The expected interval truth table of the default configuration over its first sync interval. */
  lemma DefaultTruthTable()
    ensures IsCchInterval(DefaultConfig(), 0) && IsGuardInterval(DefaultConfig(), 0)
    ensures IsCchInterval(DefaultConfig(), 1) && IsGuardInterval(DefaultConfig(), 1)
    ensures IsCchInterval(DefaultConfig(), 3) && IsGuardInterval(DefaultConfig(), 3)
    ensures IsCchInterval(DefaultConfig(), 4) && !IsGuardInterval(DefaultConfig(), 4)
    ensures IsSchInterval(DefaultConfig(), 50) && IsGuardInterval(DefaultConfig(), 50)
    ensures IsSchInterval(DefaultConfig(), 51) && IsGuardInterval(DefaultConfig(), 51)
    ensures IsSchInterval(DefaultConfig(), 53) && IsGuardInterval(DefaultConfig(), 53)
    ensures IsSchInterval(DefaultConfig(), 54) && !IsGuardInterval(DefaultConfig(), 54)
    ensures IsCchInterval(DefaultConfig(), 100) && IsGuardInterval(DefaultConfig(), 100)
  {
    DivModUnique(100, 100, 1, 0);
  }

  /**
   * A configuration is valid exactly when the start of the next UTC second is
   * the start of a sync interval and both slots last a positive time; then
   * every UTC second starts a sync interval.
   */
  lemma ValidConfigMeaning(cfg: IntervalConfig, seconds: nat)
    requires cfg.Sync() > 0
    ensures IsValidConfig(cfg) <==>
      GetIntervalTime(cfg, UTC_SECOND) == 0 && cfg.CchSlot() > 0 && cfg.SchSlot() > 0
    ensures IsValidConfig(cfg) ==> GetIntervalTime(cfg, seconds * UTC_SECOND) == 0
  {
    var s := cfg.Sync();
    assert GetIntervalTime(cfg, UTC_SECOND) == UTC_SECOND % s by {
      DivModUnique(UTC_SECOND, s, UTC_SECOND / s, UTC_SECOND % s);
    }
    if IsValidConfig(cfg) {
      var per := UTC_SECOND / s;
      assert UTC_SECOND == per * s;
      assert seconds * UTC_SECOND == 0 + (seconds * per) * s;
      IntervalTimePeriodic(cfg, 0, seconds * per);
      DivModUnique(0, s, 0, 0);
    }
  }

  /** Waiting NeedTimeToCchInterval lands on the first instant of CCH interval, and no earlier instant is one. */
  lemma NeedTimeToCchLands(cfg: IntervalConfig, at: nat)
    requires cfg.Sync() > 0 && cfg.cchi > 0
    ensures IsCchInterval(cfg, at + NeedTimeToCchInterval(cfg, at))
    ensures NeedTimeToCchInterval(cfg, at) > 0 ==>
      GetIntervalTime(cfg, at + NeedTimeToCchInterval(cfg, at)) == 0
    ensures forall t: nat :: at <= t < at + NeedTimeToCchInterval(cfg, at) ==> !IsCchInterval(cfg, t)
  {
    var t, w := GetIntervalTime(cfg, at), NeedTimeToCchInterval(cfg, at);
    IntervalTimeShift(cfg, at, w);
    forall t: nat | at <= t < at + w
      ensures !IsCchInterval(cfg, t)
    {
      IntervalTimeShift(cfg, at, t - at);
    }
  }

  /** Waiting NeedTimeToSchInterval lands on the first instant of SCH interval, and no earlier instant is one. */
  lemma NeedTimeToSchLands(cfg: IntervalConfig, at: nat)
    requires cfg.Sync() > 0 && cfg.schi > 0
    ensures IsSchInterval(cfg, at + NeedTimeToSchInterval(cfg, at))
    ensures NeedTimeToSchInterval(cfg, at) > 0 ==>
      GetIntervalTime(cfg, at + NeedTimeToSchInterval(cfg, at)) == cfg.cchi
    ensures forall t: nat :: at <= t < at + NeedTimeToSchInterval(cfg, at) ==> !IsSchInterval(cfg, t)
  {
    var t, w := GetIntervalTime(cfg, at), NeedTimeToSchInterval(cfg, at);
    IntervalTimeShift(cfg, at, w);
    forall t: nat | at <= t < at + w
      ensures !IsSchInterval(cfg, t)
    {
      IntervalTimeShift(cfg, at, t - at);
    }
  }

  /** Waiting NeedTimeToGuardInterval lands inside a guard, and no earlier instant is in one. */
  lemma NeedTimeToGuardLands(cfg: IntervalConfig, at: nat)
    requires cfg.cchi > 0 && cfg.schi > 0 && cfg.gi > 0
    ensures IsGuardInterval(cfg, at + NeedTimeToGuardInterval(cfg, at))
    ensures forall t: nat :: at <= t < at + NeedTimeToGuardInterval(cfg, at) ==> !IsGuardInterval(cfg, t)
  {
    var t, w := GetIntervalTime(cfg, at), NeedTimeToGuardInterval(cfg, at);
    IntervalTimeShift(cfg, at, w);
    forall t: nat | at <= t < at + w
      ensures !IsGuardInterval(cfg, t)
    {
      IntervalTimeShift(cfg, at, t - at);
    }
  }

  // ---------------------------------------------------------------------
  // The guard / CCH slot / guard / SCH slot loop
  // ---------------------------------------------------------------------

  type ListenerId = nat

  datatype SlotKind = GuardSlot | CchSlot | SchSlot

  /** The one pending coordination event: which handler runs, and when. */
  datatype CoordinationEvent = CoordinationEvent(at: int, kind: SlotKind)

  /** What a listener is told, with the length of the slot that starts. */
  datatype SlotStart =
    | CchSlotStart(duration: int)
    | SchSlotStart(duration: int)
    | GuardSlotStart(duration: int, cchi: bool)

  datatype Notification = Notification(listener: ListenerId, start: SlotStart)

  /** The same notification delivered to each listener, in registration order. */
  function Broadcast(listeners: seq<ListenerId>, start: SlotStart): seq<Notification>
  {
    seq(|listeners|, i requires 0 <= i < |listeners| => Notification(listeners[i], start))
  }

  /**
   * The event armed when `ev` is handled with guard counter `count`, and the
   * counter afterwards. A guard announces the CCH slot when the counter is
   * even and the SCH slot otherwise; a slot arms the next guard.
   */
  function Successor(cfg: IntervalConfig, ev: CoordinationEvent, count: uint32): (CoordinationEvent, uint32)
  {
    match ev.kind
    case GuardSlot =>
      (CoordinationEvent(ev.at + cfg.gi, if count % 2 == 0 then CchSlot else SchSlot), Wrap32(count + 1))
    case CchSlot => (CoordinationEvent(ev.at + cfg.CchSlot(), GuardSlot), count)
    case SchSlot => (CoordinationEvent(ev.at + cfg.SchSlot(), GuardSlot), count)
  }

  /** The state after `k` handled events. */
  function Run(cfg: IntervalConfig, ev: CoordinationEvent, count: uint32, k: nat): (CoordinationEvent, uint32)
    decreases k
  {
    if k == 0 then (ev, count)
    else
      var next := Successor(cfg, ev, count);
      Run(cfg, next.0, next.1, k - 1)
  }

  /**
   * The pending event sits where the standard puts it: the CCH guard at the
   * start of a sync interval, the CCH slot GI later, the SCH guard at CCHI,
   * the SCH slot at CCHI + GI; and the counter parity says which guard is next.
   */
  predicate OnSchedule(cfg: IntervalConfig, ev: CoordinationEvent, count: uint32)
    requires cfg.Sync() > 0
  {
    ev.at >= 0 &&
    match ev.kind
    case GuardSlot => GetIntervalTime(cfg, ev.at) == (if count % 2 == 0 then 0 else cfg.cchi)
    case CchSlot => count % 2 == 1 && GetIntervalTime(cfg, ev.at) == cfg.gi
    case SchSlot => count % 2 == 0 && GetIntervalTime(cfg, ev.at) == cfg.cchi + cfg.gi
  }

  /** The counter changes parity on every guard, also when it wraps. */
  lemma Wrap32FlipsParity(count: uint32)
    ensures Wrap32(count + 1) % 2 != count % 2
  {
  }

  /** Handling the pending event keeps the loop on schedule in a valid configuration. */
  lemma SuccessorOnSchedule(cfg: IntervalConfig, ev: CoordinationEvent, count: uint32)
    requires cfg.Sync() > 0 && IsValidConfig(cfg) && OnSchedule(cfg, ev, count)
    ensures OnSchedule(cfg, Successor(cfg, ev, count).0, Successor(cfg, ev, count).1)
  {
    Wrap32FlipsParity(count);
    var t := GetIntervalTime(cfg, ev.at);
    match ev.kind
    case GuardSlot => IntervalTimeShift(cfg, ev.at, cfg.gi);
    case CchSlot => IntervalTimeShift(cfg, ev.at, cfg.CchSlot());
    case SchSlot => IntervalTimeShift(cfg, ev.at, cfg.SchSlot());
  }

  /** Every event of a started loop is on schedule. */
  lemma {:induction false} RunOnSchedule(cfg: IntervalConfig, ev: CoordinationEvent, count: uint32, k: nat)
    requires cfg.Sync() > 0 && IsValidConfig(cfg) && OnSchedule(cfg, ev, count)
    ensures OnSchedule(cfg, Run(cfg, ev, count, k).0, Run(cfg, ev, count, k).1)
    decreases k
  {
    if k > 0 {
      var next := Successor(cfg, ev, count);
      SuccessorOnSchedule(cfg, ev, count);
      RunOnSchedule(cfg, next.0, next.1, k - 1);
    }
  }

  /**
   * An event on schedule fires in the interval it stands for: a guard inside
   * a guard interval (of the CCHI exactly when the counter is even), a CCH
   * slot inside the CCH interval after its guard, an SCH slot likewise.
   */
  lemma OnScheduleIntervals(cfg: IntervalConfig, ev: CoordinationEvent, count: uint32)
    requires cfg.Sync() > 0 && IsValidConfig(cfg) && cfg.gi > 0 && OnSchedule(cfg, ev, count)
    ensures ev.kind == GuardSlot ==>
      IsGuardInterval(cfg, ev.at) && (IsCchInterval(cfg, ev.at) <==> count % 2 == 0)
    ensures ev.kind == CchSlot ==> IsCchInterval(cfg, ev.at) && !IsGuardInterval(cfg, ev.at)
    ensures ev.kind == SchSlot ==> IsSchInterval(cfg, ev.at) && !IsGuardInterval(cfg, ev.at)
  {
  }

  /** Four handled events bring a guard back one sync interval later, with the counter two further on. */
  lemma PhaseLoopPeriod(cfg: IntervalConfig, at: int, count: uint32)
    ensures Run(cfg, CoordinationEvent(at, GuardSlot), count, 4) ==
      (CoordinationEvent(at + cfg.Sync(), GuardSlot), Wrap32(count + 2))
  {
    Wrap32FlipsParity(count);
    Wrap32FlipsParity(Wrap32(count + 1));
    var s1 := Successor(cfg, CoordinationEvent(at, GuardSlot), count);
    var s2 := Successor(cfg, s1.0, s1.1);
    var s3 := Successor(cfg, s2.0, s2.1);
    var s4 := Successor(cfg, s3.0, s3.1);
    assert Run(cfg, s3.0, s3.1, 1) == Run(cfg, s4.0, s4.1, 0) == s4;
    assert Run(cfg, s2.0, s2.1, 2) == s4;
    assert Run(cfg, s1.0, s1.1, 3) == s4;
    assert Wrap32(Wrap32(count + 1) + 1) == Wrap32(count + 2);
  }

  /**
   * The coordinator: interval lengths, the registered listeners, the guard
   * counter and the pending event. Listener callbacks are recorded in
   * `notified` in the order they are made.
   */
  class ChannelCoordinator {
    var cchi: nat
    var schi: nat
    var gi: nat
    var listeners: seq<ListenerId>
    var guardCount: uint32
    var coordination: Option<CoordinationEvent>
    ghost var notified: seq<Notification>

    function Config(): IntervalConfig
      reads this
    {
      IntervalConfig(cchi, schi, gi)
    }

    constructor ()
      ensures Config() == DefaultConfig()
      ensures listeners == [] && guardCount == 0 && coordination == None && notified == []
    {
      cchi := DEFAULT_CCH_INTERVAL;
      schi := DEFAULT_SCH_INTERVAL;
      gi := DEFAULT_GUARD_INTERVAL;
      listeners := [];
      guardCount := 0;
      coordination := None;
      notified := [];
    }

    method SetCchInterval(cchInterval: nat)
      modifies this
      ensures Config() == old(Config()).(cchi := cchInterval)
      ensures listeners == old(listeners) && guardCount == old(guardCount)
      ensures coordination == old(coordination) && notified == old(notified)
    {
      cchi := cchInterval;
    }

    method SetSchInterval(schInterval: nat)
      modifies this
      ensures Config() == old(Config()).(schi := schInterval)
      ensures listeners == old(listeners) && guardCount == old(guardCount)
      ensures coordination == old(coordination) && notified == old(notified)
    {
      schi := schInterval;
    }

    method SetGuardInterval(guard: nat)
      modifies this
      ensures Config() == old(Config()).(gi := guard)
      ensures listeners == old(listeners) && guardCount == old(guardCount)
      ensures coordination == old(coordination) && notified == old(notified)
    {
      gi := guard;
    }

    method RegisterListener(listener: ListenerId)
      modifies this
      ensures listeners == old(listeners) + [listener]
      ensures Config() == old(Config()) && guardCount == old(guardCount)
      ensures coordination == old(coordination) && notified == old(notified)
    {
      listeners := listeners + [listener];
    }

    /** Removes the first registration of `listener`, if any. */
    method UnregisterListener(listener: ListenerId)
      modifies this
      ensures listeners == RemoveFirst(old(listeners), listener)
      ensures Config() == old(Config()) && guardCount == old(guardCount)
      ensures coordination == old(coordination) && notified == old(notified)
    {
      var all := listeners;
      var i := 0;
      while i < |all|
        invariant 0 <= i <= |all|
        invariant listener !in all[..i]
      {
        if all[i] == listener {
          RemoveFirstAt(all, listener, i);
          listeners := all[..i] + all[i + 1..];
          return;
        }
        assert all[..i + 1] == all[..i] + [all[i]];
        i := i + 1;
      }
      assert all[..i] == all;
    }

    method UnregisterAllListeners()
      modifies this
      ensures listeners == []
      ensures Config() == old(Config()) && guardCount == old(guardCount)
      ensures coordination == old(coordination) && notified == old(notified)
    {
      listeners := [];
    }

    /**
     * Starts the loop at `now` with the CCH guard. Starting anywhere but at
     * the start of a sync interval is a fatal error: `ok` is false and
     * nothing changes.
     */
    method StartChannelCoordination(now: nat) returns (ok: bool)
      requires Config().Sync() > 0
      modifies this
      ensures Config() == old(Config()) && listeners == old(listeners)
      ensures ok <==> GetIntervalTime(Config(), now) == 0
      ensures !ok ==> guardCount == old(guardCount) && coordination == old(coordination) && notified == old(notified)
      ensures ok ==> coordination.Some?
      ensures ok ==> (coordination.value, guardCount) == Successor(Config(), CoordinationEvent(now, GuardSlot), 0)
      ensures ok && IsValidConfig(Config()) ==> OnSchedule(Config(), coordination.value, guardCount)
      ensures ok ==> notified == old(notified) + Broadcast(listeners, GuardSlotStart(gi, true))
    {
      if GetIntervalTime(Config(), now) != 0 {
        return false;
      }
      guardCount := 0;
      NotifyGuardSlot(now);
      ok := true;
      if IsValidConfig(Config()) {
        SuccessorOnSchedule(Config(), CoordinationEvent(now, GuardSlot), 0);
      }
    }

    method StopChannelCoordination()
      modifies this
      ensures coordination == None && guardCount == 0
      ensures Config() == old(Config()) && listeners == old(listeners) && notified == old(notified)
    {
      coordination := None;
      guardCount := 0;
    }

    /** Cancels the loop and forgets every listener. */
    method DoDispose()
      modifies this
      ensures coordination == None && guardCount == 0 && listeners == []
      ensures Config() == old(Config()) && notified == old(notified)
    {
      StopChannelCoordination();
      UnregisterAllListeners();
    }

    /** Appends one notification per listener, in registration order. */
    method NotifyAll(start: SlotStart)
      modifies this
      ensures notified == old(notified) + Broadcast(listeners, start)
      ensures Config() == old(Config()) && listeners == old(listeners)
      ensures guardCount == old(guardCount) && coordination == old(coordination)
    {
      var i := 0;
      while i < |listeners|
        invariant 0 <= i <= |listeners|
        invariant notified == old(notified) + Broadcast(listeners[..i], start)
        invariant Config() == old(Config()) && listeners == old(listeners)
        invariant guardCount == old(guardCount) && coordination == old(coordination)
      {
        assert Broadcast(listeners[..i + 1], start) == Broadcast(listeners[..i], start) + [Notification(listeners[i], start)];
        notified := notified + [Notification(listeners[i], start)];
        i := i + 1;
      }
      assert listeners[..i] == listeners;
    }

    method NotifySchSlot(now: nat)
      modifies this
      ensures coordination.Some?
      ensures (coordination.value, guardCount) == Successor(Config(), CoordinationEvent(now, SchSlot), old(guardCount))
      ensures notified == old(notified) + Broadcast(listeners, SchSlotStart(Config().SchSlot()))
      ensures Config() == old(Config()) && listeners == old(listeners)
    {
      coordination := Some(CoordinationEvent(now + Config().SchSlot(), GuardSlot));
      NotifyAll(SchSlotStart(Config().SchSlot()));
    }

    method NotifyCchSlot(now: nat)
      modifies this
      ensures coordination.Some?
      ensures (coordination.value, guardCount) == Successor(Config(), CoordinationEvent(now, CchSlot), old(guardCount))
      ensures notified == old(notified) + Broadcast(listeners, CchSlotStart(Config().CchSlot()))
      ensures Config() == old(Config()) && listeners == old(listeners)
    {
      coordination := Some(CoordinationEvent(now + Config().CchSlot(), GuardSlot));
      NotifyAll(CchSlotStart(Config().CchSlot()));
    }

    method NotifyGuardSlot(now: nat)
      modifies this
      ensures coordination.Some?
      ensures (coordination.value, guardCount) == Successor(Config(), CoordinationEvent(now, GuardSlot), old(guardCount))
      ensures notified == old(notified) + Broadcast(listeners, GuardSlotStart(gi, old(guardCount) % 2 == 0))
      ensures Config() == old(Config()) && listeners == old(listeners)
    {
      var inCchi := guardCount % 2 == 0;
      if inCchi {
        coordination := Some(CoordinationEvent(now + gi, CchSlot));
      } else {
        coordination := Some(CoordinationEvent(now + gi, SchSlot));
      }
      NotifyAll(GuardSlotStart(gi, inCchi));
      guardCount := Wrap32(guardCount + 1);
    }
  }
}
