/** What the two revisions of the C++ `iced::Decoder` share: the call each
    `decode()` makes into the exported `disas`/`disas2` entry points, and the
    cursor fields both classes keep. */
module DecoderCommon {
  import opened CTypes
  import opened IcedX86
  import opened Mergen

  /** The length `decode()` always passes to the entry point. */
  const WINDOW_LENGTH: u64 := 15

  /** The `code`/`len` arguments as the entry point sees them when `decode()`
      passes the pointer `ptr` and length 15: nothing behind a null pointer,
      else the 15 bytes from `ptr` on, whatever the buffer's own size. */
  function Window(mem: AddressSpace, ptr: u64): (w: Option<seq<byte>>)
    ensures w.None? <==> ptr == 0
    ensures w.Some? ==> |w.value| == WINDOW_LENGTH as int
  {
    if ptr == 0 then None else Some(ReadBytes(mem, ptr, WINDOW_LENGTH))
  }

  /** The record the zero-initialised local `icedInstruction` holds after
      `decode()` has called `disas2` (debug decoders) or `disas` on `ptr`. */
  function RawDecode(icedDebug: bool, ptr: u64, mem: AddressSpace, iced: Iced): (r: Record)
    ensures ptr == 0 ==> r == ZERO_RECORD
    ensures ptr != 0 && icedDebug ==> r == Disassembled2(iced.decode(ReadBytes(mem, ptr, WINDOW_LENGTH)), iced)
    ensures ptr != 0 && !icedDebug ==> r == Disassembled(iced.decode(ReadBytes(mem, ptr, WINDOW_LENGTH)))
  {
    DisasOutcome(icedDebug, Some(ZERO_RECORD), Window(mem, ptr), WINDOW_LENGTH, iced).out.value
  }

  /** The `if constexpr (IcedDebug)` call of `decode()`; its status is
      ignored. */
  method CallDisas(icedDebug: bool, ptr: u64, mem: AddressSpace, iced: Iced) returns (r: Record)
    ensures r == RawDecode(icedDebug, ptr, mem, iced)
  {
    var icedInstruction := ZERO_RECORD;
    var status: int, written: Option<Record>;
    if icedDebug {
      status, written := Disas2(Some(icedInstruction), Window(mem, ptr), WINDOW_LENGTH, iced);
    } else {
      status, written := Disas(Some(icedInstruction), Window(mem, ptr), WINDOW_LENGTH, iced);
    }
    r := written.value;
  }

  /** The eight scalar fields of a decoder: buffer pointer, current address,
      base address, buffer size, offset, remaining size and the two
      last-success fields. */
  datatype CursorState = CursorState(
    data: u64,
    ip: u64,
    baseAddr: u64,
    size: u64,
    offset: u64,
    remainingSize: u64,
    lastSuccessfulIp: u64,
    lastSuccessfulLength: u16)

  /** `canDecode()` over the fields it reads. */
  predicate Decodable(remainingSize: u64, offset: u64, size: u64) {
    remainingSize > 0 && offset < size
  }

  /** After `setIp(a)` the decoder can decode exactly when `a` lies inside
      the buffer, although `setIp` itself checks nothing. */
  lemma SetIpDecodable(a: u64, baseAddr: u64, size: u64)
    ensures var offset := WrapSub(a, baseAddr);
      Decodable(WrapSub(size, offset), offset, size) <==> baseAddr as int <= a as int < baseAddr as int + size as int || a as int + TWO_64 < baseAddr as int + size as int
  {
  }
}
