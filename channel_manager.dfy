/**
 * The channel table of a WAVE device: the seven 10 MHz channels of the
 * 5.9 GHz band (six service channels around one control channel) and the
 * access state each of them is in.
 */
module ChannelManagement {
  import opened Common

  const DEFAULT_CCH_OPERATING_CLASS: uint32 := 17
  const DEFAULT_CCH_CHANNEL_NUMBER: uint32 := 178
  const DEFAULT_TX_POWER_LEVEL: uint32 := 4

  const SCH1: uint32 := 172
  const SCH2: uint32 := 174
  const SCH3: uint32 := 176
  const CCH: uint32 := 178
  const SCH4: uint32 := 180
  const SCH5: uint32 := 182
  const SCH6: uint32 := 184
  /** Number of WAVE channels; also the out-of-range index. */
  const CHANNELS_OF_WAVE: uint32 := 7

  datatype WaveDataRate =
    | Ofdm3M | Ofdm4_5M | Ofdm6M | Ofdm9M | Ofdm12M | Ofdm18M | Ofdm24M | Ofdm27M
    | UnknownDataRate

  /** The enumerator value of each data rate. */
  function DataRateCode(r: WaveDataRate): (code: uint32)
    ensures code <= 8
    ensures code == 8 <==> r == UnknownDataRate
  {
    match r
    case Ofdm3M => 0
    case Ofdm4_5M => 1
    case Ofdm6M => 2
    case Ofdm9M => 3
    case Ofdm12M => 4
    case Ofdm18M => 5
    case Ofdm24M => 6
    case Ofdm27M => 7
    case UnknownDataRate => 8
  }

  function DataRateOfCode(code: uint32): (r: Option<WaveDataRate>)
    ensures r.None? <==> code > 8
  {
    if code == 0 then Some(Ofdm3M)
    else if code == 1 then Some(Ofdm4_5M)
    else if code == 2 then Some(Ofdm6M)
    else if code == 3 then Some(Ofdm9M)
    else if code == 4 then Some(Ofdm12M)
    else if code == 5 then Some(Ofdm18M)
    else if code == 6 then Some(Ofdm24M)
    else if code == 7 then Some(Ofdm27M)
    else if code == 8 then Some(UnknownDataRate)
    else None
  }

  /** The enumerator values are a bijection between the data rates and 0..8. */
  lemma DataRateCodeRoundTrip(r: WaveDataRate, code: uint32)
    ensures DataRateOfCode(DataRateCode(r)) == Some(r)
    ensures code <= 8 ==> DataRateOfCode(code).Some? && DataRateCode(DataRateOfCode(code).value) == code
  {
  }

  /**
   * Dead: no access assigned, nothing can be sent or received.
   * Active: access assigned, frames are sent whenever the PHY permits.
   * Inactive: access will be assigned in the next interval; frames wait.
   */
  datatype ChannelState = Dead | Active | Inactive

  datatype WaveChannel = WaveChannel(
    channelNumber: uint32,
    operatingClass: uint32,
    adapter: bool,
    dataRate: WaveDataRate,
    txPowerLevel: uint32,
    state: ChannelState)

  /** A channel entry as created: the default characteristics and no access. */
  function NewWaveChannel(channelNumber: uint32): WaveChannel
  {
    WaveChannel(channelNumber, DEFAULT_CCH_OPERATING_CLASS, true, Ofdm6M, DEFAULT_TX_POWER_LEVEL, Dead)
  }

  predicate IsCch(channelNumber: uint32)
  {
    channelNumber == CCH
  }

  /** A service channel is a WAVE channel other than the CCH. */
  predicate IsSch(channelNumber: uint32): (sch: bool)
    ensures sch <==> IsWaveChannel(channelNumber) && !IsCch(channelNumber)
  {
    if channelNumber < SCH1 || channelNumber > SCH6 then false
    else if channelNumber % 2 == 1 then false
    else channelNumber != CCH
  }

  predicate IsWaveChannel(channelNumber: uint32)
  {
    if channelNumber < SCH1 || channelNumber > SCH6 then false
    else if channelNumber % 2 == 1 then false
    else true
  }

  /** The WAVE channels are exactly the seven even numbers 172..184. */
  lemma WaveChannelsAreSeven(channelNumber: uint32)
    ensures IsWaveChannel(channelNumber) <==>
      channelNumber in {SCH1, SCH2, SCH3, CCH, SCH4, SCH5, SCH6}
  {
  }

  /** Every WAVE channel is either the control channel or a service channel, never both. */
  lemma SchPartition(channelNumber: uint32)
    ensures IsSch(channelNumber) <==> IsWaveChannel(channelNumber) && !IsCch(channelNumber)
    ensures IsCch(channelNumber) ==> IsWaveChannel(channelNumber)
  {
  }

  /** Position of a channel in the table, in channel-number order; 7 when it is not a WAVE channel. */
  function GetIndex(channelNumber: uint32): (index: uint32)
    ensures index <= CHANNELS_OF_WAVE
    ensures index < CHANNELS_OF_WAVE <==> IsWaveChannel(channelNumber)
  {
    if channelNumber < SCH1 || channelNumber > SCH6 then CHANNELS_OF_WAVE
    else if channelNumber % 2 == 1 then CHANNELS_OF_WAVE
    else (channelNumber - SCH1) / 2
  }

  /** The channel stored at a table position. */
  function ChannelNumberAt(index: nat): (channelNumber: uint32)
    requires index < CHANNELS_OF_WAVE as nat
    ensures IsWaveChannel(channelNumber)
  {
    SCH1 + 2 * index
  }

  /** GetIndex and ChannelNumberAt are inverse bijections between the WAVE channels and 0..6. */
  lemma IndexRoundTrip(channelNumber: uint32, index: nat)
    ensures IsWaveChannel(channelNumber) ==> ChannelNumberAt(GetIndex(channelNumber) as nat) == channelNumber
    ensures index < CHANNELS_OF_WAVE as nat ==> GetIndex(ChannelNumberAt(index)) as nat == index
  {
  }

  /** The table `channels` with the state of channel `channelNumber` replaced by `state`. */
  function WithState(channels: seq<WaveChannel>, channelNumber: uint32, state: ChannelState): (r: seq<WaveChannel>)
    requires |channels| == CHANNELS_OF_WAVE as nat && IsWaveChannel(channelNumber)
    ensures |r| == |channels|
    ensures r[GetIndex(channelNumber)].state == state
    ensures forall cn :: IsWaveChannel(cn) && cn != channelNumber ==> r[GetIndex(cn)] == channels[GetIndex(cn)]
  {
    IndexRoundTrip(channelNumber, 0);
    forall cn | IsWaveChannel(cn) && cn != channelNumber
      ensures GetIndex(cn) != GetIndex(channelNumber)
    {
      IndexRoundTrip(cn, 0);
    }
    channels[GetIndex(channelNumber) := channels[GetIndex(channelNumber)].(state := state)]
  }

  /** The table as created: one new entry per WAVE channel, in channel-number order. */
  function InitialChannels(): (r: seq<WaveChannel>)
    ensures |r| == CHANNELS_OF_WAVE as nat
    ensures forall i :: 0 <= i < |r| ==> r[i] == NewWaveChannel(ChannelNumberAt(i))
  {
    [NewWaveChannel(SCH1), NewWaveChannel(SCH2), NewWaveChannel(SCH3), NewWaveChannel(CCH),
     NewWaveChannel(SCH4), NewWaveChannel(SCH5), NewWaveChannel(SCH6)]
  }

  /** The seven channel entries; their characteristics never change, only their state does. */
  class ChannelManager {
    var channels: seq<WaveChannel>

    ghost predicate Valid()
      reads this
    {
      |channels| == CHANNELS_OF_WAVE as nat &&
      forall i :: 0 <= i < |channels| ==>
        channels[i] == NewWaveChannel(ChannelNumberAt(i)).(state := channels[i].state)
    }

    constructor ()
      ensures Valid()
      ensures channels == InitialChannels()
      ensures forall cn :: IsWaveChannel(cn) ==> GetState(cn) == Dead
    {
      channels := [];
      channels := channels + [NewWaveChannel(SCH1)];
      channels := channels + [NewWaveChannel(SCH2)];
      channels := channels + [NewWaveChannel(SCH3)];
      channels := channels + [NewWaveChannel(CCH)];
      channels := channels + [NewWaveChannel(SCH4)];
      channels := channels + [NewWaveChannel(SCH5)];
      channels := channels + [NewWaveChannel(SCH6)];
      new;
      assert channels == InitialChannels();
    }

    function GetState(channelNumber: uint32): ChannelState
      requires Valid() && IsWaveChannel(channelNumber)
      reads this
    {
      channels[GetIndex(channelNumber)].state
    }

    method SetState(channelNumber: uint32, state: ChannelState)
      requires Valid() && IsWaveChannel(channelNumber)
      modifies this
      ensures Valid()
      ensures channels == WithState(old(channels), channelNumber, state)
      ensures GetState(channelNumber) == state
      ensures forall cn :: IsWaveChannel(cn) && cn != channelNumber ==> GetState(cn) == old(GetState(cn))
    {
      var index := GetIndex(channelNumber);
      channels := channels[index := channels[index].(state := state)];
    }

    /** Two `SetState` calls in a row, on two different channels. */
    method SetStates(first: uint32, firstState: ChannelState, second: uint32, secondState: ChannelState)
      requires Valid() && IsWaveChannel(first) && IsWaveChannel(second) && first != second
      modifies this
      ensures Valid()
      ensures channels == WithState(WithState(old(channels), first, firstState), second, secondState)
      ensures GetState(first) == firstState && GetState(second) == secondState
      ensures forall cn :: IsWaveChannel(cn) && cn != first && cn != second ==> GetState(cn) == old(GetState(cn))
    {
      SetState(first, firstState);
      SetState(second, secondState);
    }

    predicate IsChannelActive(channelNumber: uint32)
      requires Valid() && IsWaveChannel(channelNumber)
      reads this
    {
      GetState(channelNumber) == Active
    }

    predicate IsChannelInactive(channelNumber: uint32)
      requires Valid() && IsWaveChannel(channelNumber)
      reads this
    {
      GetState(channelNumber) == Inactive
    }

    predicate IsChannelDead(channelNumber: uint32)
      requires Valid() && IsWaveChannel(channelNumber)
      reads this
    {
      GetState(channelNumber) == Dead
    }

    /** Each channel is in exactly one of the three states. */
    lemma StatesExclusive(channelNumber: uint32)
      requires Valid() && IsWaveChannel(channelNumber)
      ensures IsChannelActive(channelNumber) || IsChannelInactive(channelNumber) || IsChannelDead(channelNumber)
      ensures !(IsChannelActive(channelNumber) && IsChannelInactive(channelNumber))
      ensures !(IsChannelActive(channelNumber) && IsChannelDead(channelNumber))
      ensures !(IsChannelInactive(channelNumber) && IsChannelDead(channelNumber))
    {
    }

    function GetOperatingClass(channelNumber: uint32): (operatingClass: uint32)
      requires Valid() && IsWaveChannel(channelNumber)
      reads this
      ensures operatingClass == DEFAULT_CCH_OPERATING_CLASS
    {
      channels[GetIndex(channelNumber)].operatingClass
    }

    function IsAdapter(channelNumber: uint32): (adapter: bool)
      requires Valid() && IsWaveChannel(channelNumber)
      reads this
      ensures adapter
    {
      channels[GetIndex(channelNumber)].adapter
    }

    function GetDataRate(channelNumber: uint32): (dataRate: WaveDataRate)
      requires Valid() && IsWaveChannel(channelNumber)
      reads this
      ensures dataRate == Ofdm6M
    {
      channels[GetIndex(channelNumber)].dataRate
    }

    function GetTxPowerLevel(channelNumber: uint32): (txPowerLevel: uint32)
      requires Valid() && IsWaveChannel(channelNumber)
      reads this
      ensures txPowerLevel == DEFAULT_TX_POWER_LEVEL
    {
      channels[GetIndex(channelNumber)].txPowerLevel
    }
  }
}
