/** `iced::Decoder<IcedDebug>` of the current C++ header: a cursor over a
    borrowed code buffer that calls the exported decode entry point on the
    bytes at its current offset. Its `decode()` does not advance the cursor,
    `setIp` checks no bounds and `reconfigure` leaves `ip` where it was. */
module IcedPlusPlus {
  import opened CTypes
  import opened IcedX86
  import opened Mergen
  import opened DecoderCommon

  /** `iced::Instruction`: a wrapper around one raw record. `Indeterminate`
      is the default-initialised value no assignment has written yet. */
  datatype Instruction = Indeterminate | Wrapping(icedInstr: Record)

  class Decoder {
    /** The `IcedDebug` template argument: `decode()` calls `disas2` when it
        is true and `disas` otherwise. */
    const icedDebug: bool

    var currentInstruction: Instruction
    var data: u64                  // the buffer pointer, 0 for nullptr
    var ip: u64
    var baseAddr: u64
    var size: u64
    var remainingSize: u64
    var offset: u64
    var lastSuccessfulIp: u64
    var lastSuccessfulLength: u16

    function Cursor(): (c: CursorState)
      reads this
    {
      CursorState(data, ip, baseAddr, size, offset, remainingSize, lastSuccessfulIp, lastSuccessfulLength)
    }

    /** Kept by every operation: a decoder whose offset lies inside the
        buffer has bytes remaining. */
    ghost predicate Valid()
      reads this
    {
      offset < size ==> remainingSize > 0
    }

    /** The offset is the distance of `ip` from the base address. */
    ghost predicate AddressMapped()
      reads this
    {
      offset == WrapSub(ip, baseAddr)
    }

    /** `canDecode()`; on a valid decoder it holds exactly when the offset
        lies inside the buffer. */
    function CanDecode(): (r: bool)
      reads this
      ensures Valid() ==> (r <==> offset < size)
    {
      Decodable(remainingSize, offset, size)
    }

    /** `Decoder(buffer, size, baseAddress)`, with the header's default
        arguments; `IcedDebug` defaults to true, as the template's does. */
    constructor (icedDebug: bool := true, buffer: u64 := 0, size: u64 := 15, baseAddress: u64 := 0)
      ensures this.icedDebug == icedDebug
      ensures Cursor() == CursorState(buffer, baseAddress, baseAddress, size, 0, size, 0, 0)
      ensures currentInstruction == Indeterminate
      ensures Valid() && AddressMapped()
      ensures CanDecode() <==> size > 0
    {
      this.icedDebug := icedDebug;
      data := buffer;
      ip := baseAddress;
      baseAddr := baseAddress;
      this.size := size;
      offset := 0;
      remainingSize := size;
      lastSuccessfulIp := 0;
      lastSuccessfulLength := 0;
      currentInstruction := Indeterminate;
    }

    /** The move constructor: copies pointer, addresses, size and offset, but
        takes the remaining size from the source's size, and leaves the
        last-success fields and the instruction at their defaults. Whether the
        new decoder can decode is still the source's answer. */
    constructor Moved(other: Decoder)
      ensures icedDebug == other.icedDebug
      ensures Cursor() == CursorState(other.data, other.ip, other.baseAddr, other.size, other.offset, other.size, 0, 0)
      ensures currentInstruction == Indeterminate
      ensures Valid()
      ensures other.Valid() ==> (CanDecode() <==> other.CanDecode())
    {
      icedDebug := other.icedDebug;
      data := other.data;
      ip := other.ip;
      baseAddr := other.baseAddr;
      size := other.size;
      offset := other.offset;
      remainingSize := other.size;
      lastSuccessfulIp := 0;
      lastSuccessfulLength := 0;
      currentInstruction := Indeterminate;
    }

    /** Move assignment: copies the eight scalar fields, not the current
        instruction; assigning a decoder to itself changes nothing. */
    method MoveAssign(other: Decoder)
      requires other.icedDebug == icedDebug
      modifies this
      ensures Cursor() == old(other.Cursor())
      ensures currentInstruction == old(currentInstruction)
      ensures other == this ==> unchanged(this)
      ensures old(other.Valid()) ==> Valid()
    {
      if this != other {
        data := other.data;
        ip := other.ip;
        baseAddr := other.baseAddr;
        size := other.size;
        offset := other.offset;
        remainingSize := other.remainingSize;
        lastSuccessfulIp := other.lastSuccessfulIp;
        lastSuccessfulLength := other.lastSuccessfulLength;
      }
    }

    /** `setIp(ip)`: repositions without any bounds check; the decoder can
        decode afterwards exactly when the new offset lies inside the buffer. */
    method SetIp(a: u64)
      modifies this
      ensures Cursor() == old(Cursor()).(ip := a, offset := WrapSub(a, old(baseAddr)),
                                          remainingSize := WrapSub(old(size), WrapSub(a, old(baseAddr))))
      ensures currentInstruction == old(currentInstruction)
      ensures Valid() && AddressMapped()
      ensures CanDecode() <==> WrapSub(a, baseAddr) < size
    {
      ip := a;
      offset := WrapSub(a, baseAddr);
      remainingSize := WrapSub(size, offset);
    }

    /** `reconfigure(buffer, size, baseAddress)`: points the decoder at a new
        buffer and clears the instruction, but keeps `ip`, so the offset no
        longer matches `ip` unless `ip` was already the new base address. */
    method Reconfigure(buffer: u64 := 0, size: u64 := 15, baseAddress: u64 := 0)
      modifies this
      ensures Cursor() == CursorState(buffer, old(ip), baseAddress, size, 0, size, 0, 0)
      ensures currentInstruction == Wrapping(ZERO_RECORD)
      ensures Valid()
      ensures AddressMapped() <==> old(ip) == baseAddress
      ensures CanDecode() <==> size > 0
    {
      data := buffer;
      this.size := size;
      baseAddr := baseAddress;
      remainingSize := size;
      currentInstruction := Wrapping(ZERO_RECORD);
      offset, lastSuccessfulIp, lastSuccessfulLength := 0, 0, 0;
    }

    /** `decode()`: decodes the 15 bytes at `data + offset` (whatever the
        remaining size) into the current instruction and returns it; no cursor
        field changes, so decoding twice decodes the same bytes twice. */
    method Decode(mem: AddressSpace, iced: Iced) returns (instr: Instruction)
      modifies this
      ensures Cursor() == old(Cursor())
      ensures currentInstruction == Wrapping(RawDecode(icedDebug, WrapAdd(data, offset), mem, iced))
      ensures instr == currentInstruction
    {
      var currentPtr := WrapAdd(data, offset);
      var icedInstruction := CallDisas(icedDebug, currentPtr, mem, iced);
      currentInstruction := Wrapping(icedInstruction);
      instr := currentInstruction;
    }
  }
}
