/**
 * Channel routing of IEEE 1609.4-2010 (section 5.3.4) inside the MAC: every
 * outgoing frame carries a channel tag, the MAC keeps one FIFO per channel,
 * and a channel switch changes which FIFO is served without flushing any.
 */
module EdcaQueues {
  import opened Common
  import opened TagBuffers
  import opened ChannelManagement

  // ---------------------------------------------------------------------
  // ChannelTag
  // ---------------------------------------------------------------------

  const CHANNEL_TAG_SIZE: nat := 4

  /** The wire form of a channel tag: the channel number as a little-endian 32-bit word. */
  function EncodeChannelTag(channel: uint32): (bytes: seq<uint8>)
    ensures |bytes| == CHANNEL_TAG_SIZE
  {
    Pow256Values();
    EncodeLE(channel, 4)
  }

  function DecodeChannelTag(bytes: seq<uint8>): (channel: uint32)
    requires |bytes| == CHANNEL_TAG_SIZE
  {
    Pow256Values();
    DecodeLE(bytes)
  }

  /** Every channel number survives serialisation, and distinct numbers serialise differently. */
  lemma ChannelTagRoundTrip(channel: uint32, other: uint32)
    ensures DecodeChannelTag(EncodeChannelTag(channel)) == channel
    ensures EncodeChannelTag(channel) == EncodeChannelTag(other) <==> channel == other
  {
    Pow256Values();
    DecodeEncode(channel, 4);
    EncodeInjective(channel, other, 4);
  }

  class ChannelTag {
    var channel: uint32

    constructor ()
      ensures channel == 0
    {
      channel := 0;
    }

    constructor WithChannel(channel: uint32)
      ensures this.channel == channel
    {
      this.channel := channel;
    }

    method SetChannelNumber(channel: uint32)
      modifies this
      ensures GetChannelNumber() == channel
    {
      this.channel := channel;
    }

    function GetChannelNumber(): uint32
      reads this
    {
      channel
    }

    function GetSerializedSize(): (size: nat)
      ensures size == |EncodeChannelTag(0)|
    {
      CHANNEL_TAG_SIZE
    }

    method Serialize(buffer: TagBuffer)
      modifies buffer
      ensures buffer.data == old(buffer.data) + EncodeChannelTag(channel)
    {
      buffer.WriteU32(channel);
    }

    method Deserialize(buffer: TagBuffer)
      requires |buffer.data| >= CHANNEL_TAG_SIZE
      modifies this, buffer
      ensures channel == DecodeChannelTag(old(buffer.data)[..CHANNEL_TAG_SIZE])
      ensures buffer.data == old(buffer.data)[CHANNEL_TAG_SIZE..]
    {
      channel := buffer.ReadU32();
    }
  }

  /** A tag written and read back through the same buffer restores the channel and consumes its bytes. */
  method ChannelTagThroughBuffer(channel: uint32) returns (read: uint32)
    ensures read == channel
  {
    var buffer := new TagBuffer();
    var sent := new ChannelTag.WithChannel(channel);
    sent.Serialize(buffer);
    assert buffer.data == EncodeChannelTag(channel);
    var received := new ChannelTag();
    ghost var bytes := buffer.data;
    received.Deserialize(buffer);
    assert bytes[..CHANNEL_TAG_SIZE] == bytes;
    ChannelTagRoundTrip(channel, channel);
    read := received.GetChannelNumber();
  }

  // ---------------------------------------------------------------------
  // The per-channel queues
  // ---------------------------------------------------------------------

  /** A queued frame (packet and MAC header), identified by value. */
  datatype Frame = Frame(id: nat)

  type Queues = map<uint32, seq<Frame>>

  /** Every frame held in any of the queues. */
  ghost function AllFrames(queues: Queues): multiset<Frame>
    decreases |queues|
  {
    if queues == map[] then multiset{}
    else
      var k :| k in queues;
      multiset(queues[k]) + AllFrames(queues - {k})
  }

  /** The total does not depend on which queue is taken out first. */
  lemma {:induction false} AllFramesSplit(queues: Queues, k: uint32)
    requires k in queues
    ensures AllFrames(queues) == multiset(queues[k]) + AllFrames(queues - {k})
    decreases |queues|
  {
    var j :| j in queues && AllFrames(queues) == multiset(queues[j]) + AllFrames(queues - {j});
    if j != k {
      var rest := queues - {j} - {k};
      assert queues - {k} - {j} == rest;
      AllFramesSplit(queues - {j}, k);
      AllFramesSplit(queues - {k}, j);
    }
  }

  /** Replacing one queue changes the total by exactly the frames removed and added. */
  lemma AllFramesUpdate(queues: Queues, k: uint32, q: seq<Frame>)
    ensures AllFrames(queues[k := q]) == AllFrames(queues - {k}) + multiset(q)
    ensures k in queues ==> AllFrames(queues) == AllFrames(queues - {k}) + multiset(queues[k])
    ensures k !in queues ==> AllFrames(queues) == AllFrames(queues - {k})
  {
    var updated := queues[k := q];
    AllFramesSplit(updated, k);
    assert updated - {k} == queues - {k};
    if k in queues {
      AllFramesSplit(queues, k);
    } else {
      assert queues - {k} == queues;
    }
  }

  /** The MAC's EDCA queue of one access category, one FIFO per channel. */
  class WaveEdcaTxopN {
    var queues: Queues
    /** The channel whose queue is being served. */
    var active: uint32
    /** The frame taken from the active queue for transmission, if any. */
    var currentPacket: Option<Frame>
    /** How many times channel access was requested from the base MAC. */
    ghost var accessRequests: nat

    ghost predicate Valid()
      reads this
    {
      active in queues
    }

    /** Creation followed by initialisation: one empty queue, for CCH, and it is served. */
    constructor ()
      ensures Valid()
      ensures queues == map[CCH := []] && active == CCH
      ensures currentPacket == None && accessRequests == 0
    {
      queues := map[CCH := []];
      active := CCH;
      currentPacket := None;
      accessRequests := 0;
    }

    /** Forgets every queue. */
    method DoDispose()
      modifies this
      ensures queues == map[]
      ensures active == old(active) && currentPacket == old(currentPacket)
      ensures accessRequests == old(accessRequests)
    {
      queues := map[];
    }

    /**
     * Routes `frame` by its channel tag to the tail of that channel's queue,
     * creating the queue if needed. A frame without a tag is a fatal error:
     * `ok` is false and nothing changes. Channel access is requested
     * whenever the served queue is non-empty afterwards.
     */
    method Queue(frame: Frame, tag: Option<uint32>) returns (ok: bool)
      requires Valid()
      modifies this
      ensures Valid()
      ensures ok <==> tag.Some?
      ensures !ok ==> unchanged(this)
      ensures ok ==> queues.Keys == old(queues.Keys) + {tag.value}
      ensures ok ==> (queues[tag.value] ==
        (if tag.value in old(queues) then old(queues)[tag.value] else []) + [frame])
      ensures ok ==> forall c :: c in old(queues) && c != tag.value ==> queues[c] == old(queues)[c]
      ensures ok ==> AllFrames(queues) == old(AllFrames(queues)) + multiset{frame}
      ensures ok ==> active == old(active) && currentPacket == old(currentPacket)
      ensures ok ==> accessRequests == old(accessRequests) + (if |queues[active]| != 0 then 1 else 0)
    {
      if tag.None? {
        return false;
      }
      var channelNumber := tag.value;
      var queue := if channelNumber in queues then queues[channelNumber] else [];
      AllFramesUpdate(queues, channelNumber, queue + [frame]);
      assert multiset(queue + [frame]) == multiset(queue) + multiset{frame};
      queues := queues[channelNumber := queue + [frame]];
      if |queues[active]| != 0 {
        accessRequests := accessRequests + 1;
      }
      ok := true;
    }

    /**
     * Serves the queue of `channelNumber` from now on, creating it if needed.
     * No queued frame moves or is lost; the current frame is dropped.
     */
    method SwitchToChannel(channelNumber: uint32)
      requires Valid()
      modifies this
      ensures Valid()
      ensures active == channelNumber && currentPacket == None
      ensures queues == if channelNumber in old(queues) then old(queues) else old(queues)[channelNumber := []]
      ensures AllFrames(queues) == old(AllFrames(queues))
      ensures accessRequests == old(accessRequests)
    {
      if channelNumber !in queues {
        AllFramesUpdate(queues, channelNumber, []);
        queues := queues[channelNumber := []];
      }
      active := channelNumber;
      currentPacket := None;
    }

    /**
     * A channel switch is starting: the frame being transmitted goes back to
     * the front of the served queue instead of being released.
     */
    method NotifyChannelSwitching()
      requires Valid()
      modifies this
      ensures Valid()
      ensures currentPacket == None && active == old(active)
      ensures old(currentPacket).None? ==> queues == old(queues)
      ensures old(currentPacket).Some? ==>
        queues == old(queues)[active := [old(currentPacket).value] + old(queues)[active]]
      ensures AllFrames(queues) ==
        old(AllFrames(queues)) + (if old(currentPacket).Some? then multiset{old(currentPacket).value} else multiset{})
      ensures accessRequests == old(accessRequests)
    {
      if currentPacket.Some? {
        AllFramesUpdate(queues, active, [currentPacket.value] + queues[active]);
        assert multiset([currentPacket.value] + queues[active]) == multiset{currentPacket.value} + multiset(queues[active]);
        queues := queues[active := [currentPacket.value] + queues[active]];
        currentPacket := None;
      }
    }

    /** A switch announced before it is made keeps every frame, the one in transmission included. */
    method SwitchPreservingFrames(channelNumber: uint32)
      requires Valid()
      modifies this
      ensures Valid() && active == channelNumber && currentPacket == None
      ensures AllFrames(queues) ==
        old(AllFrames(queues)) + (if old(currentPacket).Some? then multiset{old(currentPacket).value} else multiset{})
    {
      NotifyChannelSwitching();
      SwitchToChannel(channelNumber);
    }
  }
}
