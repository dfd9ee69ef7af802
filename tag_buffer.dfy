/**
 * The byte stream that ns-3 packet tags are serialised into. Writes append
 * little-endian bytes; reads consume them from the front in the same order.
 */
module TagBuffers {
  import opened Common

  class TagBuffer {
    var data: seq<uint8>

    constructor ()
      ensures data == []
    {
      data := [];
    }

    method WriteU32(v: uint32)
      modifies this
      ensures data == old(data) + EncodeLE(v, 4)
    {
      Pow256Values();
      data := data + EncodeLE(v, 4);
    }

    method WriteU64(v: uint64)
      modifies this
      ensures data == old(data) + EncodeLE(v, 8)
    {
      Pow256Values();
      data := data + EncodeLE(v, 8);
    }

    method ReadU32() returns (v: uint32)
      requires |data| >= 4
      modifies this
      ensures v == DecodeLE(old(data)[..4])
      ensures data == old(data)[4..]
    {
      Pow256Values();
      v := DecodeLE(data[..4]);
      data := data[4..];
    }

    method ReadU64() returns (v: uint64)
      requires |data| >= 8
      modifies this
      ensures v == DecodeLE(old(data)[..8])
      ensures data == old(data)[8..]
    {
      Pow256Values();
      v := DecodeLE(data[..8]);
      data := data[8..];
    }
  }
}
