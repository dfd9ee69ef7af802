/**
 * The road-side unit's service scheduler of the multi-channel experiment:
 * a stats tag carried by every request, and one queue of pending services
 * per service channel SCH2, SCH3, SCH4 and SCH5. A new service goes to the
 * channel whose queued service time is least (shortest job first) or to the
 * next channel in turn (round robin); a node's report of what it still
 * misses updates, requeues or defers its entry.
 */
module Sjf {
  import opened Common
  import opened TagBuffers
  import opened ChannelManagement

  // ---------------------------------------------------------------------
  // StatsTag
  // ---------------------------------------------------------------------

  /** 4 + 8 + 4 + 4 bytes: packet id, send time in microseconds, channel, size. */
  const STATS_TAG_SIZE: nat := 20
  /** An ns-3 time is a signed 64-bit count of nanoseconds; simulated time is never negative. */
  const MAX_TIME: nat := 0x8000_0000_0000_0000

  /** The contents of a stats tag; `sendTime` is in nanoseconds. */
  datatype StatsFields = StatsFields(packetId: uint32, sendTime: nat, serviceChannel: uint32, serviceSize: uint32)

  /** A send time in whole microseconds, as the tag carries it. */
  function Micros(sendTime: nat): (micros: uint64)
    requires sendTime < MAX_TIME
  {
    sendTime / 1000
  }

  /** The wire form: four little-endian words, the time cut down to whole microseconds. */
  function EncodeStats(f: StatsFields): (bytes: seq<uint8>)
    requires f.sendTime < MAX_TIME
    ensures |bytes| == STATS_TAG_SIZE
  {
    Pow256Values();
    EncodeLE(f.packetId, 4) + EncodeLE(Micros(f.sendTime), 8) +
    EncodeLE(f.serviceChannel, 4) + EncodeLE(f.serviceSize, 4)
  }

  /** The tag read back from its 20 bytes; the time word counts microseconds. */
  function DecodeStats(bytes: seq<uint8>): (f: StatsFields)
    requires |bytes| == STATS_TAG_SIZE
    ensures f.sendTime % 1000 == 0
  {
    Pow256Values();
    StatsFields(DecodeLE(bytes[..4]), DecodeLE(bytes[4..12]) * 1000,
                DecodeLE(bytes[12..16]), DecodeLE(bytes[16..20]))
  }

  /** The four fields of a 20-byte tag sit at offsets 0, 4, 12 and 16. */
  lemma FourFields(e1: seq<uint8>, e2: seq<uint8>, e3: seq<uint8>, e4: seq<uint8>)
    requires |e1| == 4 && |e2| == 8 && |e3| == 4 && |e4| == 4
    ensures var e := e1 + e2 + e3 + e4;
      e[..4] == e1 && e[4..12] == e2 && e[12..16] == e3 && e[16..20] == e4
  {
  }

  /** A tag read back equals the one written except that its send time lost the sub-microsecond part. */
  lemma StatsRoundTrip(f: StatsFields)
    requires f.sendTime < MAX_TIME
    ensures DecodeStats(EncodeStats(f)) == f.(sendTime := f.sendTime / 1000 * 1000)
  {
    Pow256Values();
    var e1, e2 := EncodeLE(f.packetId, 4), EncodeLE(Micros(f.sendTime), 8);
    var e3, e4 := EncodeLE(f.serviceChannel, 4), EncodeLE(f.serviceSize, 4);
    FourFields(e1, e2, e3, e4);
    DecodeEncode(f.packetId, 4);
    DecodeEncode(Micros(f.sendTime), 8);
    DecodeEncode(f.serviceChannel, 4);
    DecodeEncode(f.serviceSize, 4);
  }

  /** A whole number of microseconds converts back without loss. */
  lemma MicrosOfWhole(micros: nat)
    requires micros * 1000 < MAX_TIME
    ensures Micros(micros * 1000) == micros
  {
  }

  /** Bytes whose time fits an ns-3 time are written back exactly as they were read. */
  lemma StatsBytesRoundTrip(bytes: seq<uint8>)
    requires |bytes| == STATS_TAG_SIZE
    requires DecodeStats(bytes).sendTime < MAX_TIME
    ensures EncodeStats(DecodeStats(bytes)) == bytes
  {
    Pow256Values();
    var b1, b2, b3, b4 := bytes[..4], bytes[4..12], bytes[12..16], bytes[16..20];
    var f := DecodeStats(bytes);
    MicrosOfWhole(DecodeLE(b2));
    EncodeDecode(b1);
    EncodeDecode(b2);
    EncodeDecode(b3);
    EncodeDecode(b4);
    assert EncodeStats(f) == b1 + b2 + b3 + b4;
    assert bytes == b1 + b2 + b3 + b4;
  }

  /** Appending four pieces one after the other appends their concatenation. */
  lemma AppendFour(start: seq<uint8>, e1: seq<uint8>, e2: seq<uint8>, e3: seq<uint8>, e4: seq<uint8>)
    ensures start + e1 + e2 + e3 + e4 == start + (e1 + e2 + e3 + e4)
  {
  }

  class StatsTag {
    var packetId: uint32
    var sendTime: nat
    /** The channel the service was allocated to. */
    var serviceChannel: uint32
    /** Total size of the requested service. */
    var serviceSize: uint32

    function Fields(): StatsFields
      reads this
    {
      StatsFields(packetId, sendTime, serviceChannel, serviceSize)
    }

    constructor ()
      ensures Fields() == StatsFields(0, 0, 0, 0)
    {
      packetId, sendTime, serviceChannel, serviceSize := 0, 0, 0, 0;
    }

    constructor With(packetId: uint32, sendTime: nat, channel: uint32, size: uint32)
      ensures Fields() == StatsFields(packetId, sendTime, channel, size)
    {
      this.packetId, this.sendTime, this.serviceChannel, this.serviceSize := packetId, sendTime, channel, size;
    }

    function GetSerializedSize(): (size: nat)
      ensures size == |EncodeStats(StatsFields(0, 0, 0, 0))|
    {
      4 + 8 + 4 + 4
    }

    method Serialize(buffer: TagBuffer)
      requires sendTime < MAX_TIME
      modifies buffer
      ensures buffer.data == old(buffer.data) + EncodeStats(Fields())
    {
      Pow256Values();
      ghost var start := buffer.data;
      buffer.WriteU32(packetId);
      buffer.WriteU64(Micros(sendTime));
      buffer.WriteU32(serviceChannel);
      buffer.WriteU32(serviceSize);
      AppendFour(start, EncodeLE(packetId, 4), EncodeLE(Micros(sendTime), 8),
                 EncodeLE(serviceChannel, 4), EncodeLE(serviceSize, 4));
    }

    method Deserialize(buffer: TagBuffer)
      requires |buffer.data| >= STATS_TAG_SIZE
      modifies this, buffer
      ensures Fields() == DecodeStats(old(buffer.data)[..STATS_TAG_SIZE])
      ensures buffer.data == old(buffer.data)[STATS_TAG_SIZE..]
    {
      ghost var bytes := buffer.data;
      packetId := buffer.ReadU32();
      var micros: nat := buffer.ReadU64();
      sendTime := micros * 1000;
      serviceChannel := buffer.ReadU32();
      serviceSize := buffer.ReadU32();
      assert bytes[4..][..8] == bytes[4..12];
      assert bytes[12..][..4] == bytes[12..16];
      assert bytes[16..][..4] == bytes[16..20];
      assert bytes[..STATS_TAG_SIZE][..4] == bytes[..4];
      assert bytes[..STATS_TAG_SIZE][4..12] == bytes[4..12];
      assert bytes[..STATS_TAG_SIZE][12..16] == bytes[12..16];
      assert bytes[..STATS_TAG_SIZE][16..20] == bytes[16..20];
    }
  }

  // ---------------------------------------------------------------------
  // Queue entries
  // ---------------------------------------------------------------------

  /** A node's address; 0 is the unset (default-constructed) address. */
  type Address = nat
  const NO_ADDRESS: Address := 0

  /** A pending service: bytes still to send, the requesting node, bytes sent since its last report. */
  datatype Item = Item(size: uint32, sender: Address, sent: uint32)

  /** The value-initialised entry a lookup on a channel without a queue yields. */
  function DefaultItem(): Item
  {
    Item(0, NO_ADDRESS, 0)
  }

  /** An entry deferred until the next report round, with its channel. */
  datatype Backup = Backup(channel: uint32, item: Item)

  /** The value `Enqueue` returns when the node already has a pending service (-1 as uint32_t). */
  const NOT_ALLOCATED: uint32 := 0xFFFF_FFFF

  /** The channels with a queue. */
  const SJF_CHANNELS: seq<uint32> := [SCH2, SCH3, SCH4, SCH5]

  predicate IsSjfChannel(channel: uint32)
  {
    channel == SCH2 || channel == SCH3 || channel == SCH4 || channel == SCH5
  }

  /** The queues serve the service channels other than SCH1 and SCH6. */
  lemma SjfChannelsAreServiceChannels(channel: uint32)
    ensures IsSjfChannel(channel) <==> IsSch(channel) && channel != SCH1 && channel != SCH6
    ensures IsSjfChannel(channel) <==> channel in SJF_CHANNELS
  {
  }

  /** Which of the four queues, counters and sums belongs to `channel`. */
  function Slot(channel: uint32): (k: nat)
    requires IsSjfChannel(channel)
    ensures k < 4 && SJF_CHANNELS[k] == channel
  {
    if channel == SCH2 then 0
    else if channel == SCH3 then 1
    else if channel == SCH4 then 2
    else 3
  }

  /** Service time, in scheduling units, of `size` bytes: one unit per started 6001 bytes. */
  function CalcServiceTime(size: uint32): (time: uint32)
    ensures time >= 1
    ensures (time - 1) * 6001 <= size < time * 6001
  {
    size / 6001 + 1
  }

  /** Whether `node` has an entry in `list`. */
  predicate HasSender(list: seq<Item>, node: Address)
  {
    exists i :: 0 <= i < |list| && list[i].sender == node
  }

  /** Whether `node` has an entry in any of the four queues. */
  predicate Queued(lists: seq<seq<Item>>, node: Address)
    requires |lists| == 4
  {
    exists k :: 0 <= k < 4 && HasSender(lists[k], node)
  }

  /** The position of the first entry of `node`. */
  function FirstIndexOf(list: seq<Item>, node: Address): (i: nat)
    requires HasSender(list, node)
    ensures i < |list| && list[i].sender == node
    ensures forall j :: 0 <= j < i ==> list[j].sender != node
  {
    if list[0].sender == node then 0
    else
      assert HasSender(list[1..], node) by {
        var i :| 0 <= i < |list| && list[i].sender == node;
        assert list[1..][i - 1] == list[i];
      }
      1 + FirstIndexOf(list[1..], node)
  }

  /** `list` without the first entry of `node`. */
  function DropFirstOf(list: seq<Item>, node: Address): (r: seq<Item>)
    requires HasSender(list, node)
    ensures |r| == |list| - 1
    ensures multiset(r) == multiset(list) - multiset{list[FirstIndexOf(list, node)]}
  {
    var i := FirstIndexOf(list, node);
    assert list == list[..i] + [list[i]] + list[i + 1..];
    list[..i] + list[i + 1..]
  }

  /**
   * The entry a drop removes is the node's own; every entry before it stays
   * in place, and every entry after it moves up by one.
   */
  lemma DropFirstOfKeepsOthers(list: seq<Item>, node: Address)
    requires HasSender(list, node)
    ensures var i := FirstIndexOf(list, node);
      (forall j :: 0 <= j < i ==> DropFirstOf(list, node)[j] == list[j]) &&
      (forall j :: i <= j < |list| - 1 ==> DropFirstOf(list, node)[j] == list[j + 1])
  {
  }

  /**
   * What the drop of a stalled node's service does to its channel's list
   * as written: the head goes if it is the node's, and otherwise the
   * second entry goes, whoever it belongs to.
   */
  function DropServiceAsWritten(list: seq<Item>, node: Address): (r: seq<Item>)
    requires HasSender(list, node)
    ensures |r| == |list| - 1
  {
    if list[0].sender == node then list[1..]
    else
      assert |list| >= 2 by {
        var i :| 0 <= i < |list| && list[i].sender == node;
      }
      [list[0]] + list[2..]
  }

  /** The list [A, B, C] of three nodes loses B, not C, when C's service is dropped. */
  lemma DropServiceAsWrittenDropsWrongEntry()
    ensures var list := [Item(100, 1, 0), Item(200, 2, 0), Item(300, 3, 0)];
      HasSender(list, 3) &&
      DropServiceAsWritten(list, 3) == [Item(100, 1, 0), Item(300, 3, 0)] &&
      DropFirstOf(list, 3) == [Item(100, 1, 0), Item(200, 2, 0)]
  {
    var list := [Item(100, 1, 0), Item(200, 2, 0), Item(300, 3, 0)];
    assert list[2].sender == 3;
    assert FirstIndexOf(list, 3) == 2 by {
      assert list[1..][1..] == [Item(300, 3, 0)];
    }
  }

  /** The written drop agrees with dropping the node's first entry exactly when that entry is first or second. */
  lemma DropServiceAsWrittenAgrees(list: seq<Item>, node: Address)
    requires HasSender(list, node)
    ensures FirstIndexOf(list, node) <= 1 ==> DropServiceAsWritten(list, node) == DropFirstOf(list, node)
    ensures FirstIndexOf(list, node) >= 2 ==> DropServiceAsWritten(list, node) != DropFirstOf(list, node)
  {
    var i := FirstIndexOf(list, node);
    var written, corrected := DropServiceAsWritten(list, node), DropFirstOf(list, node);
    if i == 0 {
      assert corrected == list[..0] + list[1..];
      assert list[..0] + list[1..] == list[1..];
    } else if i == 1 {
      assert corrected == list[..1] + list[2..];
      assert list[..1] == [list[0]];
    } else {
      assert written == [list[0]] + list[2..];
      assert written[i - 1] == list[i];
      assert corrected == list[..i] + list[i + 1..];
      assert corrected[i - 1] == list[i - 1];
      assert written[i - 1].sender != corrected[i - 1].sender;
    }
  }

  // ---------------------------------------------------------------------
  // Channel selection
  // ---------------------------------------------------------------------

  /** `k` holds the least sum, and no earlier slot holds it too. */
  predicate IsFirstMinimum(sums: seq<uint32>, k: nat)
  {
    k < |sums| &&
    (forall i :: 0 <= i < |sums| ==> sums[k] <= sums[i]) &&
    (forall i :: 0 <= i < k ==> sums[i] > sums[k])
  }

  /** Shortest-job-first choice is determined by the sums. */
  lemma FirstMinimumUnique(sums: seq<uint32>, k1: nat, k2: nat)
    requires IsFirstMinimum(sums, k1) && IsFirstMinimum(sums, k2)
    ensures k1 == k2
  {
    assert sums[k1] <= sums[k2] && sums[k2] <= sums[k1];
  }

  /** The values the round-robin cursor takes: SCH2 up to one step past SCH5. */
  const ROUND_ROBIN_STATES: set<uint32> := {SCH2, SCH3, CCH, SCH4, SCH5, SCH6}

  /** The channel the round-robin cursor `current` yields; the cursor then moves two past it. */
  function RoundRobinPick(current: uint32): (selected: uint32)
    requires current in ROUND_ROBIN_STATES
    ensures IsSjfChannel(selected) && selected + 2 in ROUND_ROBIN_STATES
  {
    var c := if current > SCH5 then SCH2 else current;
    if c == CCH then c + 2 else c
  }

  /** Four allocations in turn use each of the four channels once, and the fifth starts over. */
  lemma RoundRobinFair(current: uint32)
    requires current in ROUND_ROBIN_STATES
    ensures var p1 := RoundRobinPick(current);
      var p2 := RoundRobinPick(p1 + 2);
      var p3 := RoundRobinPick(p2 + 2);
      var p4 := RoundRobinPick(p3 + 2);
      {p1, p2, p3, p4} == {SCH2, SCH3, SCH4, SCH5} && RoundRobinPick(p4 + 2) == p1
  {
  }

  // ---------------------------------------------------------------------
  // The queue tables
  // ---------------------------------------------------------------------

  /** The four lists with their entry counters and service-time sums, by slot. */
  datatype Tables = Tables(lists: seq<seq<Item>>, counts: seq<uint32>, sums: seq<uint32>)

  predicate WellFormed(t: Tables)
  {
    |t.lists| == 4 && |t.counts| == 4 && |t.sums| == 4
  }

  /** Every counter holds its list's length, as a 32-bit counter would. */
  predicate CountsMatch(t: Tables)
  {
    WellFormed(t) && forall k :: 0 <= k < 4 ==> t.counts[k] == |t.lists[k]| % TWO_TO_THE_32
  }

  /**
   * One insertion: `item` at the back or the front of `channel`'s list,
   * `count` added to its counter and `time` to its sum; a channel without a
   * queue is ignored.
   */
  function Insert(t: Tables, channel: uint32, item: Item, count: uint32, time: uint32, back: bool): (r: Tables)
    requires WellFormed(t)
    ensures WellFormed(r)
    ensures !IsSjfChannel(channel) ==> r == t
    ensures IsSjfChannel(channel) ==>
      multiset(r.lists[Slot(channel)]) == multiset(t.lists[Slot(channel)]) + multiset{item}
    ensures forall k :: 0 <= k < 4 && (!IsSjfChannel(channel) || k != Slot(channel)) ==>
      r.lists[k] == t.lists[k] && r.counts[k] == t.counts[k] && r.sums[k] == t.sums[k]
  {
    if !IsSjfChannel(channel) then t
    else
      var k := Slot(channel);
      Tables(t.lists[k := if back then t.lists[k] + [item] else [item] + t.lists[k]],
             t.counts[k := Wrap32(t.counts[k] + count)],
             t.sums[k := Wrap32(t.sums[k] + time)])
  }

  /** Counting a 32-bit counter up or down by one tracks the length it counts. */
  lemma CounterStep(n: nat)
    ensures Wrap32(n % TWO_TO_THE_32 + 1) == (n + 1) % TWO_TO_THE_32
    ensures n >= 1 ==> Wrap32(n % TWO_TO_THE_32 - 1) == (n - 1) % TWO_TO_THE_32
  {
  }

  /** Inserting one entry with a count of one keeps every counter in step with its list. */
  lemma InsertKeepsCounts(t: Tables, channel: uint32, item: Item, time: uint32, back: bool)
    requires CountsMatch(t)
    ensures CountsMatch(Insert(t, channel, item, 1, time, back))
  {
    if IsSjfChannel(channel) {
      CounterStep(|t.lists[Slot(channel)]|);
    }
  }

  /** Lists that keep their lengths under unchanged counters keep the counters right. */
  lemma SameLengthsKeepCounts(t: Tables, u: Tables)
    requires CountsMatch(t) && WellFormed(u) && u.counts == t.counts
    requires forall k :: 0 <= k < 4 ==> |u.lists[k]| == |t.lists[k]|
    ensures CountsMatch(u)
  {
  }

  /** Every entry in the four lists. */
  function AllItems(t: Tables): multiset<Item>
    requires WellFormed(t)
  {
    multiset(t.lists[0]) + multiset(t.lists[1]) + multiset(t.lists[2]) + multiset(t.lists[3])
  }

  function BackupItems(backups: seq<Backup>): multiset<Item>
  {
    if backups == [] then multiset{} else multiset{backups[0].item} + BackupItems(backups[1..])
  }

  /** The deferred entries re-inserted in order, each at the front of its channel's list. */
  function ApplyBackups(t: Tables, backups: seq<Backup>): (r: Tables)
    requires WellFormed(t)
    ensures WellFormed(r)
    decreases |backups|
  {
    if backups == [] then t
    else
      var b := backups[0];
      ApplyBackups(Insert(t, b.channel, b.item, 1, CalcServiceTime(b.item.size), false), backups[1..])
  }

  /** The entries of `backups` for `channel`, last deferred first. */
  function Pushed(backups: seq<Backup>, channel: uint32): seq<Item>
  {
    if backups == [] then []
    else Pushed(backups[1..], channel) + (if backups[0].channel == channel then [backups[0].item] else [])
  }

  /** After the re-insertion each list starts with its channel's deferred entries, newest first, before its old contents. */
  lemma {:induction false} ApplyBackupsOrder(t: Tables, backups: seq<Backup>, k: nat)
    requires WellFormed(t) && k < 4
    ensures ApplyBackups(t, backups).lists[k] == Pushed(backups, SJF_CHANNELS[k]) + t.lists[k]
    decreases |backups|
  {
    if backups != [] {
      var b := backups[0];
      var t' := Insert(t, b.channel, b.item, 1, CalcServiceTime(b.item.size), false);
      ApplyBackupsOrder(t', backups[1..], k);
      assert t'.lists[k] == (if b.channel == SJF_CHANNELS[k] then [b.item] else []) + t.lists[k];
    }
  }

  /** Re-inserting entries deferred on queued channels loses none and keeps the counters right. */
  lemma {:induction false} ApplyBackupsConserves(t: Tables, backups: seq<Backup>)
    requires CountsMatch(t)
    requires forall b :: b in backups ==> IsSjfChannel(b.channel)
    ensures CountsMatch(ApplyBackups(t, backups))
    ensures AllItems(ApplyBackups(t, backups)) == AllItems(t) + BackupItems(backups)
    decreases |backups|
  {
    if backups != [] {
      var b := backups[0];
      var t' := Insert(t, b.channel, b.item, 1, CalcServiceTime(b.item.size), false);
      InsertKeepsCounts(t, b.channel, b.item, CalcServiceTime(b.item.size), false);
      assert backups[1..] == backups[1..] && forall c :: c in backups[1..] ==> c in backups;
      ApplyBackupsConserves(t', backups[1..]);
      assert AllItems(t') == AllItems(t) + multiset{b.item};
    }
  }

  // ---------------------------------------------------------------------
  // ChannelQueues
  // ---------------------------------------------------------------------

  class ChannelQueues {
    /** The lists of SCH2, SCH3, SCH4 and SCH5, by slot. */
    var lists: seq<seq<Item>>
    /** Entries deferred until the next report round, oldest first. */
    var backups: seq<Backup>
    /** Entries per list, as 32-bit counters. */
    const Counts: array<uint32>
    /** Queued service time per list, as 32-bit counters. */
    const Sums: array<uint32>
    /** The round-robin cursor. */
    var current: uint32

    ghost function State(): Tables
      reads this, Counts, Sums
    {
      Tables(lists, Counts[..], Sums[..])
    }

    ghost predicate Shape()
      reads this
    {
      |lists| == 4 && Counts.Length == 4 && Sums.Length == 4 && Counts != Sums
    }

    ghost predicate Valid()
      reads this, Counts, Sums
    {
      Shape() && CountsMatch(State()) && current in ROUND_ROBIN_STATES &&
      forall b :: b in backups ==> IsSjfChannel(b.channel)
    }

    constructor ()
      ensures Valid() && fresh(Counts) && fresh(Sums)
      ensures lists == [[], [], [], []] && backups == [] && current == SCH2
      ensures Counts[..] == [0, 0, 0, 0] && Sums[..] == [0, 0, 0, 0]
    {
      lists := [[], [], [], []];
      backups := [];
      current := SCH2;
      var counts := new uint32[4];
      var sums := new uint32[4];
      var i := 0;
      while i < 4
        invariant 0 <= i <= 4
        invariant forall j :: 0 <= j < i ==> counts[j] == 0 && sums[j] == 0
      {
        counts[i] := 0;
        sums[i] := 0;
        i := i + 1;
      }
      Counts := counts;
      Sums := sums;
    }

    /** Adds `item` at one end of `channel`'s list and `count`, `time` to its counters; other channels are ignored. */
    method EnqueueSwitch(channel: uint32, item: Item, count: uint32, time: uint32, back: bool)
      requires Shape()
      modifies this, Counts, Sums
      ensures Shape() && backups == old(backups) && current == old(current)
      ensures State() == Insert(old(State()), channel, item, count, time, back)
    {
      if IsSjfChannel(channel) {
        var k := Slot(channel);
        if back {
          lists := lists[k := lists[k] + [item]];
        } else {
          lists := lists[k := [item] + lists[k]];
        }
        Counts[k] := Wrap32(Counts[k] + count);
        Sums[k] := Wrap32(Sums[k] + time);
      }
    }

    /** A channel is empty when its counter is zero; a channel without a queue never is. */
    function IsEmpty(channel: uint32): (r: bool)
      requires Valid()
      reads this, Counts, Sums
      ensures r ==> IsSjfChannel(channel)
      ensures IsSjfChannel(channel) && |lists[Slot(channel)]| < TWO_TO_THE_32 ==>
        (r <==> lists[Slot(channel)] == [])
    {
      IsSjfChannel(channel) && Counts[Slot(channel)] == 0
    }

    /** The head of `channel`'s list, or the default entry for a channel without a queue. */
    function Peek(channel: uint32): (item: Item)
      requires Shape()
      requires IsSjfChannel(channel) ==> lists[Slot(channel)] != []
      reads this
      ensures IsSjfChannel(channel) ==> item in lists[Slot(channel)]
      ensures !IsSjfChannel(channel) ==> item == DefaultItem()
    {
      if IsSjfChannel(channel) then lists[Slot(channel)][0] else DefaultItem()
    }

    /** Takes the head off `channel`'s list; the counters are left to the caller. */
    method Dequeue(channel: uint32) returns (item: Item)
      requires Shape()
      requires IsSjfChannel(channel) ==> lists[Slot(channel)] != []
      modifies this
      ensures Shape() && backups == old(backups) && current == old(current)
      ensures item == old(Peek(channel))
      ensures !IsSjfChannel(channel) ==> lists == old(lists)
      ensures IsSjfChannel(channel) ==>
        lists == old(lists)[Slot(channel) := old(lists)[Slot(channel)][1..]] &&
        old(lists)[Slot(channel)] == [item] + lists[Slot(channel)]
    {
      if IsSjfChannel(channel) {
        var k := Slot(channel);
        item := lists[k][0];
        lists := lists[k := lists[k][1..]];
      } else {
        item := DefaultItem();
      }
    }

    /** Whether `node` has an entry on `channel`, scanning a copy of its list from the front. */
    method CheckNodes(channel: uint32, node: Address) returns (found: bool)
      requires Shape()
      ensures found <==> IsSjfChannel(channel) && HasSender(lists[Slot(channel)], node)
    {
      var list := if IsSjfChannel(channel) then lists[Slot(channel)] else [];
      var rest := list;
      while rest != []
        invariant |rest| <= |list| && rest == list[|list| - |rest|..]
        invariant forall j :: 0 <= j < |list| - |rest| ==> list[j].sender != node
        decreases |rest|
      {
        var item := rest[0];
        rest := rest[1..];
        if item.sender == node {
          return true;
        }
      }
      return false;
    }

    /**
     * The channel a new service goes to: with `scheduling`, the first
     * channel with the least queued time; otherwise the round-robin
     * cursor's channel, after which the cursor moves on.
     */
    method AllocServiceChannel(remainTime: uint32, scheduling: bool) returns (selected: uint32)
      requires Valid()
      modifies this
      ensures Valid() && lists == old(lists) && backups == old(backups)
      ensures IsSjfChannel(selected)
      ensures scheduling ==> IsFirstMinimum(Sums[..], Slot(selected)) && current == old(current)
      ensures !scheduling ==> selected == RoundRobinPick(old(current)) && current == selected + 2
    {
      if scheduling {
        var min := Sums[0];
        selected := SCH2;
        if min > Sums[1] {
          min := Sums[1];
          selected := SCH3;
        }
        if min > Sums[2] {
          min := Sums[2];
          selected := SCH4;
        }
        if min > Sums[3] {
          min := Sums[3];
          selected := SCH5;
        }
      } else {
        if current > SCH5 {
          current := SCH2;
        }
        if current == CCH {
          current := current + 2;
        }
        selected := current;
        current := current + 2;
      }
    }

    /**
     * Files a new service request carrying `tag`. A request without a tag
     * is a fatal error (None). A node that already has an entry on any
     * channel gets NOT_ALLOCATED and nothing changes; otherwise its entry
     * goes to the back of the chosen channel's list.
     */
    method Enqueue(tag: Option<StatsTag>, scheduling: bool, sender: Address) returns (r: Option<uint32>)
      requires Valid()
      modifies this, Counts, Sums
      ensures Valid() && backups == old(backups)
      ensures tag.None? ==> r.None? && State() == old(State()) && current == old(current)
      ensures tag.Some? && Queued(old(lists), sender) ==>
        r == Some(NOT_ALLOCATED) && State() == old(State()) && current == old(current)
      ensures tag.Some? && !Queued(old(lists), sender) ==>
        r.Some? && IsSjfChannel(r.value) &&
        State() == Insert(old(State()), r.value, Item(tag.value.serviceSize, sender, 0), 1,
                          CalcServiceTime(tag.value.serviceSize), true)
      ensures tag.Some? && !Queued(old(lists), sender) && scheduling ==>
        r.Some? && IsSjfChannel(r.value) && IsFirstMinimum(old(Sums[..]), Slot(r.value)) && current == old(current)
      ensures tag.Some? && !Queued(old(lists), sender) && !scheduling ==>
        r.Some? && r.value == RoundRobinPick(old(current)) && current == r.value + 2
    {
      if tag.None? {
        return None;
      }
      var serviceSize := tag.value.serviceSize;
      var channel: uint32 := SCH2;
      while channel <= SCH5
        invariant Shape() && SCH2 <= channel <= SCH5 + 2 && channel % 2 == 0
        invariant forall k :: 0 <= k < 4 && SJF_CHANNELS[k] < channel ==> !HasSender(lists[k], sender)
        invariant State() == old(State()) && current == old(current) && backups == old(backups)
      {
        if channel != CCH {
          var found := CheckNodes(channel, sender);
          if found {
            return Some(NOT_ALLOCATED);
          }
        }
        channel := channel + 2;
      }
      var remainTime := CalcServiceTime(serviceSize);
      var selected := AllocServiceChannel(remainTime, scheduling);
      var item := Item(serviceSize, sender, 0);
      InsertKeepsCounts(State(), selected, item, remainTime, true);
      EnqueueSwitch(selected, item, 1, remainTime, true);
      r := Some(selected);
    }

    /**
     * A node reports that `remainSize` bytes of its service on `channel`
     * are still missing. An empty channel takes a new entry at the front.
     * If the head belongs to another node: nothing changes when the node
     * is already queued here; otherwise a new entry for it is deferred when
     * the head is part-way sent, and put at the front when it is not. If
     * the head is the node's own, it is kept at the front with its sent
     * count cleared (all received) or its size set to `remainSize` and the
     * missing part's time added to the channel's sum.
     */
    method EnqueueRemains(channel: uint32, remainSize: uint32, sender: Address)
      requires Valid()
      modifies this, Counts, Sums
      ensures Valid() && current == old(current)
      ensures !IsSjfChannel(channel) ==> State() == old(State()) && backups == old(backups)
      ensures IsSjfChannel(channel) && old(Counts[Slot(channel)]) == 0 ==>
        State() == Insert(old(State()), channel, Item(remainSize, sender, 0), 1, CalcServiceTime(remainSize), false) &&
        backups == old(backups)
      ensures IsSjfChannel(channel) && old(Counts[Slot(channel)]) != 0 ==>
        var k := Slot(channel);
        var list := old(lists)[k];
        list != [] &&
        var head := list[0];
        (head.sender != sender && HasSender(list, sender) ==>
           State() == old(State()) && backups == old(backups)) &&
        (head.sender != sender && !HasSender(list, sender) && head.sent != 0 ==>
           State() == old(State()) && backups == old(backups) + [Backup(channel, Item(remainSize, sender, 0))]) &&
        (head.sender != sender && !HasSender(list, sender) && head.sent == 0 ==>
           State() == Insert(old(State()), channel, Item(remainSize, sender, 0), 1, CalcServiceTime(remainSize), false) &&
           backups == old(backups)) &&
        (head.sender == sender && head.size == remainSize ==>
           lists == old(lists)[k := [head.(sent := 0)] + list[1..]] &&
           Counts[..] == old(Counts[..]) && Sums[..] == old(Sums[..]) && backups == old(backups)) &&
        (head.sender == sender && head.size != remainSize ==>
           lists == old(lists)[k := [head.(size := remainSize)] + list[1..]] &&
           Counts[..] == old(Counts[..]) &&
           Sums[..] == old(Sums[..])[k := Wrap32(old(Sums[k]) + CalcServiceTime(Wrap32(remainSize as int - head.size)))] &&
           backups == old(backups))
      // whatever the case, the node's remaining service is on record afterwards
      ensures IsSjfChannel(channel) ==>
        HasSender(lists[Slot(channel)], sender) || Backup(channel, Item(remainSize, sender, 0)) in backups
    {
      var empty := IsEmpty(channel);
      if empty {
        var item := Item(remainSize, sender, 0);
        var time := CalcServiceTime(remainSize);
        InsertKeepsCounts(State(), channel, item, time, false);
        EnqueueSwitch(channel, item, 1, time, false);
        assert lists[Slot(channel)][0] == item;
        return;
      }
      var head := Peek(channel);
      if sender != head.sender {
        RemainsBehindOther(channel, remainSize, sender, head);
      } else {
        RemainsOfHead(channel, remainSize);
      }
    }

    /** The part of `EnqueueRemains` where the head of the list belongs to another node. */
    method RemainsBehindOther(channel: uint32, remainSize: uint32, sender: Address, head: Item)
      requires Valid() && head.sender != sender
      requires IsSjfChannel(channel) ==> lists[Slot(channel)] != [] && head == lists[Slot(channel)][0]
      requires !IsSjfChannel(channel) ==> head == DefaultItem()
      modifies this, Counts, Sums
      ensures Valid() && current == old(current)
      ensures !IsSjfChannel(channel) ==> State() == old(State()) && backups == old(backups)
      ensures IsSjfChannel(channel) && HasSender(old(lists)[Slot(channel)], sender) ==>
        State() == old(State()) && backups == old(backups)
      ensures IsSjfChannel(channel) && !HasSender(old(lists)[Slot(channel)], sender) && head.sent != 0 ==>
        State() == old(State()) && backups == old(backups) + [Backup(channel, Item(remainSize, sender, 0))]
      ensures IsSjfChannel(channel) && !HasSender(old(lists)[Slot(channel)], sender) && head.sent == 0 ==>
        State() == Insert(old(State()), channel, Item(remainSize, sender, 0), 1, CalcServiceTime(remainSize), false) &&
        backups == old(backups)
      ensures IsSjfChannel(channel) ==>
        HasSender(lists[Slot(channel)], sender) || Backup(channel, Item(remainSize, sender, 0)) in backups
    {
      var found := CheckNodes(channel, sender);
      if found {
        return;
      }
      var item := Item(remainSize, sender, 0);
      if head.sent != 0 {
        backups := backups + [Backup(channel, item)];
      } else {
        var time := CalcServiceTime(remainSize);
        InsertKeepsCounts(State(), channel, item, time, false);
        EnqueueSwitch(channel, item, 1, time, false);
        assert IsSjfChannel(channel) ==> lists[Slot(channel)][0] == item;
      }
    }

    /** The part of `EnqueueRemains` where the head of the list is the reporting node's. */
    method RemainsOfHead(channel: uint32, remainSize: uint32)
      requires Valid()
      requires IsSjfChannel(channel) ==> lists[Slot(channel)] != []
      modifies this, Counts, Sums
      ensures Valid() && current == old(current) && backups == old(backups)
      ensures !IsSjfChannel(channel) ==> State() == old(State())
      ensures IsSjfChannel(channel) && old(lists)[Slot(channel)][0].size == remainSize ==>
        var k := Slot(channel);
        lists == old(lists)[k := [old(lists)[k][0].(sent := 0)] + old(lists)[k][1..]] &&
        Counts[..] == old(Counts[..]) && Sums[..] == old(Sums[..])
      ensures IsSjfChannel(channel) && old(lists)[Slot(channel)][0].size != remainSize ==>
        var k := Slot(channel);
        var head := old(lists)[k][0];
        lists == old(lists)[k := [head.(size := remainSize)] + old(lists)[k][1..]] &&
        Counts[..] == old(Counts[..]) &&
        Sums[..] == old(Sums[..])[k := Wrap32(old(Sums[k]) + CalcServiceTime(Wrap32(remainSize as int - head.size)))]
      ensures IsSjfChannel(channel) ==> lists[Slot(channel)][0].sender == old(lists)[Slot(channel)][0].sender
    {
      ghost var before := State();
      var item := Dequeue(channel);
      if item.size == remainSize {
        item := item.(sent := 0);
        EnqueueSwitch(channel, item, 0, 0, false);
      } else {
        var time := CalcServiceTime(Wrap32(remainSize as int - item.size));
        item := item.(size := remainSize);
        EnqueueSwitch(channel, item, 0, time, false);
      }
      SameLengthsKeepCounts(before, State());
    }

    /** Re-inserts every deferred entry, oldest first, each at the front of its channel's list. */
    method PushBackups()
      requires Valid()
      modifies this, Counts, Sums
      ensures Valid() && backups == [] && current == old(current)
      ensures State() == ApplyBackups(old(State()), old(backups))
    {
      while backups != []
        invariant Valid() && current == old(current)
        invariant ApplyBackups(State(), backups) == ApplyBackups(old(State()), old(backups))
        decreases |backups|
      {
        var b := backups[0];
        var time := CalcServiceTime(b.item.size);
        InsertKeepsCounts(State(), b.channel, b.item, time, false);
        EnqueueSwitch(b.channel, b.item, 1, time, false);
        backups := backups[1..];
      }
    }

    /**
     * Drops the service of a node whose schedule stalled: its first entry on
     * `channel` leaves the list, and the channel's counter and time sum lose
     * that entry's share. Nothing changes when the node has no entry there.
     */
    method DropService(channel: uint32, node: Address)
      requires Valid()
      modifies this, Counts, Sums
      ensures Valid() && backups == old(backups) && current == old(current)
      ensures !(IsSjfChannel(channel) && HasSender(old(lists)[Slot(channel)], node)) ==> State() == old(State())
      ensures IsSjfChannel(channel) && HasSender(old(lists)[Slot(channel)], node) ==>
        var k := Slot(channel);
        var dropped := old(lists)[k][FirstIndexOf(old(lists)[k], node)];
        lists == old(lists)[k := DropFirstOf(old(lists)[k], node)] &&
        Counts[..] == old(Counts[..])[k := Wrap32(old(Counts[k]) as int - 1)] &&
        Sums[..] == old(Sums[..])[k := Wrap32(old(Sums[k]) as int - CalcServiceTime(dropped.size))]
    {
      var found := CheckNodes(channel, node);
      if !found {
        return;
      }
      var k := Slot(channel);
      var dropped := lists[k][FirstIndexOf(lists[k], node)];
      CounterStep(|lists[k]|);
      lists := lists[k := DropFirstOf(lists[k], node)];
      Counts[k] := Wrap32(Counts[k] as int - 1);
      Sums[k] := Wrap32(Sums[k] as int - CalcServiceTime(dropped.size));
    }

    /**
     * `size` bytes of the head service on `channel` were sent: its size
     * shrinks and its sent count grows by `size`, a finished entry leaves
     * the list, and the channel's time sum drops by one unit.
     */
    method Update(channel: uint32, size: uint32)
      requires Valid()
      requires IsSjfChannel(channel) ==> lists[Slot(channel)] != []
      modifies this, Counts, Sums
      ensures Valid() && backups == old(backups) && current == old(current)
      ensures !IsSjfChannel(channel) ==> State() == old(State())
      ensures IsSjfChannel(channel) ==>
        var k := Slot(channel);
        var head := old(lists)[k][0];
        var served := Item(Wrap32(head.size as int - size), head.sender, Wrap32(head.sent + size));
        (served.size == 0 ==>
           lists == old(lists)[k := old(lists)[k][1..]] &&
           Counts[..] == old(Counts[..])[k := Wrap32(old(Counts[k]) as int - 1)]) &&
        (served.size != 0 ==>
           lists == old(lists)[k := [served] + old(lists)[k][1..]] && Counts[..] == old(Counts[..])) &&
        Sums[..] == old(Sums[..])[k := Wrap32(old(Sums[k]) as int - 1)]
      // serving no more than is left: the entry leaves exactly when all of it was served
      ensures IsSjfChannel(channel) && size <= old(lists)[Slot(channel)][0].size ==>
        (|lists[Slot(channel)]| < |old(lists)[Slot(channel)]| <==> size == old(lists)[Slot(channel)][0].size)
      // and what is left plus what was sent is unchanged while the sent count does not wrap
      ensures IsSjfChannel(channel) && size < old(lists)[Slot(channel)][0].size &&
              old(lists)[Slot(channel)][0].sent + size < TWO_TO_THE_32 ==>
        lists[Slot(channel)][0].size + lists[Slot(channel)][0].sent ==
        old(lists)[Slot(channel)][0].size + old(lists)[Slot(channel)][0].sent
    {
      ghost var length := if IsSjfChannel(channel) then |lists[Slot(channel)]| else 0;
      var item := Dequeue(channel);
      item := item.(size := Wrap32(item.size as int - size), sent := Wrap32(item.sent + size));
      var finished := item.size == 0;
      if IsSjfChannel(channel) {
        var k := Slot(channel);
        if finished {
          CounterStep(length);
          Counts[k] := Wrap32(Counts[k] as int - 1);
        } else {
          lists := lists[k := [item] + lists[k]];
        }
        Sums[k] := Wrap32(Sums[k] as int - 1);
      }
    }
  }
}
