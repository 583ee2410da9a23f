/**
 libpdu's write buffer: a PDU whose payload grows in place, followed by a tail area.
 append_to_pdu knows the 16-bit payload limit but not the buffer's size, so staying inside the
 allocation is an obligation of every caller.
 */
module PduBuffer {
  import opened Base
  import opened Wire

  /** The payload length field has 16 bits. */
  const PDU_MAX_DATA_LENGTH := 0xFFFF

  /** Memory after b has been written at offset off. */
  function Put(mem: seq<byte>, off: nat, b: seq<byte>): (r: seq<byte>)
    requires off + |b| <= |mem|
    ensures |r| == |mem| && r[off..off + |b|] == b
  {
    mem[..off] + b + mem[off + |b|..]
  }

  lemma PutElsewhere(mem: seq<byte>, off: nat, b: seq<byte>, i: nat, j: nat)
    requires off + |b| <= |mem| && i <= j <= |mem|
    requires j <= off || off + |b| <= i
    ensures Put(mem, off, b)[i..j] == mem[i..j]
  {
    var r := Put(mem, off, b);
    assert forall k :: i <= k < j ==> r[k] == mem[k];
  }

  class Wbuf {
    const address: nat       // where the payload starts in memory
    const maxLen: nat        // payload octets allocated
    const tailSize: nat      // tail octets allocated behind them
    const raw: array<byte>
    var service: byte
    var opcode: byte
    var len: nat             // payload octets used

    ghost predicate Valid()
      reads this
    {
      raw.Length == maxLen + tailSize && len <= maxLen && len <= PDU_MAX_DATA_LENGTH
    }

    function Payload(): seq<byte>
      requires Valid()
      reads this, raw
    {
      raw[..len]
    }

    function Tail(): seq<byte>
      requires Valid()
      reads this, raw
    {
      raw[maxLen..]
    }

    /** create_pdu_wbuf, when the allocation succeeds. */
    constructor (address: nat, maxLen: nat, tailSize: nat)
      ensures Valid() && fresh(raw)
      ensures this.address == address && this.maxLen == maxLen && this.tailSize == tailSize
      ensures len == 0
    {
      this.address, this.maxLen, this.tailSize := address, maxLen, tailSize;
      raw := new byte[maxLen + tailSize];
      service, opcode, len := 0, 0, 0;
    }

    method InitPdu(service: byte, opcode: byte)
      requires Valid()
      modifies this`service, this`opcode, this`len
      ensures Valid() && Payload() == []
      ensures this.service == service && this.opcode == opcode
    {
      this.service, this.opcode, len := service, opcode, 0;
    }

    method WriteAt(off: nat, b: seq<byte>)
      requires off + |b| <= raw.Length
      modifies raw
      ensures raw[..] == Put(old(raw[..]), off, b)
    {
      forall k | 0 <= k < |b| {
        raw[off + k] := b[k];
      }
    }

    method Append(fs: seq<Field>) returns (res: int)
      requires Valid()
      requires len + |EncodeFields(fs)| <= PDU_MAX_DATA_LENGTH ==> len + |EncodeFields(fs)| <= maxLen
      modifies this`len, raw
      ensures Valid()
      ensures res < 0 <==> old(len) + |EncodeFields(fs)| > PDU_MAX_DATA_LENGTH
      ensures Payload() == if res < 0 then old(Payload()) else old(Payload()) + EncodeFields(fs)
      ensures Tail() == old(Tail())
    {
      var b := EncodeFields(fs);
      if len + |b| > PDU_MAX_DATA_LENGTH {
        return -1;
      }
      WriteAt(len, b);
      len := len + |b|;
      assert raw[..len] == old(raw[..len]) + b;
      assert raw[maxLen..] == old(raw[maxLen..]);
      return 0;
    }
  }
}
