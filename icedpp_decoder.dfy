/** `iced::Decoder<IcedDebug>` of the earlier C++ header. Its `Instruction`
    constructor ignores the record it is given, so an instruction carries no
    state and the decoder's observable state is its eight scalar fields. Moves
    are memberwise copies. */
module IcedPp {
  import opened CTypes
  import opened IcedX86
  import opened Mergen
  import opened DecoderCommon

  class Decoder {
    /** The `IcedDebug` template argument. */
    const icedDebug: bool

    var data: u64                  // the buffer pointer, 0 for nullptr
    var ip: u64
    var baseAddr: u64
    var size: u64
    var remainingSize: u64
    var offset: u64
    var lastSuccessfulIp: u64
    var lastSuccessfulLength: u16

    function Cursor(): (c: CursorState)
      reads this
    {
      CursorState(data, ip, baseAddr, size, offset, remainingSize, lastSuccessfulIp, lastSuccessfulLength)
    }

    /** Kept by every operation of this revision: the remaining size is the
        distance from the offset to the end of the buffer. */
    ghost predicate Valid()
      reads this
    {
      remainingSize == WrapSub(size, offset)
    }

    /** The offset is the distance of `ip` from the base address. */
    ghost predicate AddressMapped()
      reads this
    {
      offset == WrapSub(ip, baseAddr)
    }

    /** `canDecode()`; on a valid decoder it holds exactly when the offset
        lies inside the buffer. */
    function CanDecode(): (r: bool)
      reads this
      ensures Valid() ==> (r <==> offset < size)
    {
      Decodable(remainingSize, offset, size)
    }

    /** `Decoder(buffer, size, baseAddress)`, with the header's default
        arguments; `IcedDebug` defaults to true, as the template's does. */
    constructor (icedDebug: bool := true, buffer: u64 := 0, size: u64 := 15, baseAddress: u64 := 0)
      ensures this.icedDebug == icedDebug
      ensures Cursor() == CursorState(buffer, baseAddress, baseAddress, size, 0, size, 0, 0)
      ensures Valid() && AddressMapped()
      ensures CanDecode() <==> size > 0
    {
      this.icedDebug := icedDebug;
      data := buffer;
      ip := baseAddress;
      baseAddr := baseAddress;
      this.size := size;
      offset := 0;
      remainingSize := size;
      lastSuccessfulIp := 0;
      lastSuccessfulLength := 0;
    }

    /** The defaulted move constructor: every field is the source's. */
    constructor Moved(other: Decoder)
      ensures icedDebug == other.icedDebug
      ensures Cursor() == other.Cursor()
      ensures Valid() <==> other.Valid()
      ensures CanDecode() == other.CanDecode()
    {
      icedDebug := other.icedDebug;
      data := other.data;
      ip := other.ip;
      baseAddr := other.baseAddr;
      size := other.size;
      offset := other.offset;
      remainingSize := other.remainingSize;
      lastSuccessfulIp := other.lastSuccessfulIp;
      lastSuccessfulLength := other.lastSuccessfulLength;
    }

    /** The defaulted move assignment: every field becomes the source's. */
    method MoveAssign(other: Decoder)
      requires other.icedDebug == icedDebug
      modifies this
      ensures Cursor() == old(other.Cursor())
      ensures old(other.Valid()) ==> Valid()
    {
      data := other.data;
      ip := other.ip;
      baseAddr := other.baseAddr;
      size := other.size;
      offset := other.offset;
      remainingSize := other.remainingSize;
      lastSuccessfulIp := other.lastSuccessfulIp;
      lastSuccessfulLength := other.lastSuccessfulLength;
    }

    /** `setIp(ip)`: repositions without any bounds check. */
    method SetIp(a: u64)
      modifies this
      ensures Cursor() == old(Cursor()).(ip := a, offset := WrapSub(a, old(baseAddr)),
                                          remainingSize := WrapSub(old(size), WrapSub(a, old(baseAddr))))
      ensures Valid() && AddressMapped()
      ensures CanDecode() <==> WrapSub(a, baseAddr) < size
    {
      ip := a;
      offset := WrapSub(a, baseAddr);
      remainingSize := WrapSub(size, offset);
    }

    /** `reconfigure(buffer, size, baseAddress)`: keeps `ip`. */
    method Reconfigure(buffer: u64 := 0, size: u64 := 15, baseAddress: u64 := 0)
      modifies this
      ensures Cursor() == CursorState(buffer, old(ip), baseAddress, size, 0, size, 0, 0)
      ensures Valid()
      ensures AddressMapped() <==> old(ip) == baseAddress
      ensures CanDecode() <==> size > 0
    {
      data := buffer;
      this.size := size;
      baseAddr := baseAddress;
      remainingSize := size;
      offset, lastSuccessfulIp, lastSuccessfulLength := 0, 0, 0;
    }

    /** `decode()`: calls the entry point on the 15 bytes at `data + offset`
        into a local record that the stateless `Instruction` then drops; the
        decoder is left as it was. `discarded` is that local record. The
        header's `decode()` returns no value. */
    method Decode(mem: AddressSpace, iced: Iced) returns (ghost discarded: Record)
      ensures discarded == RawDecode(icedDebug, WrapAdd(data, offset), mem, iced)
      ensures Cursor() == old(Cursor())
    {
      var currentPtr := WrapAdd(data, offset);
      var icedInstruction := CallDisas(icedDebug, currentPtr, mem, iced);
      discarded := icedInstruction;
    }
  }
}
