# icedpp in Dafny

This project models the two layers of icedpp that sit around the `iced_x86` x86 decoder.

- **The record builder**, in the Rust library `icedpp_rust_lib`. It turns one instruction decoded by `iced_x86` into the fixed-layout record `MergenDisassembledInstructionBase`. It exports that record through the C entry points `disas` (no text) and `disas2` (with a NUL-terminated text rendering). The record holds:
  - operand type codes;
  - a prefix bitmask;
  - a relative/64-bit-immediate choice of `immediate` and `mem_disp`;
  - byte-truncated length and stack growth.
- **The C++ cursor `iced::Decoder<IcedDebug>`**, in two revisions: the current header `iced++/iced.hpp` and the earlier `icedpp/iced.hpp`. It is a small state machine over a borrowed code buffer. Each of its `decode()` calls hands the 15 bytes at the current offset to `disas2` (debug decoders) or `disas`.

Modules:

| module | file | models |
|---|---|---|
| `CTypes` | `ctypes.dfy` | fixed-width integers; 64-bit wrap-around `+`/`-`; the `as u8` cast; `unsigned_abs`; nullable pointers (`Option`); the address space that raw pointers read from |
| `IcedX86` | `iced_x86.dfy` | the accessor values of an `iced_x86::Instruction` (operand kinds, registers, memory facts, immediates, length, prefixes, stack increment). The crate's decoder and formatter are a parameter `Iced` |
| `Mergen` | `mergen.dfy` | `icedpp_rust_lib/src/lib.rs`: `MergenPrefix`, `OperandType`, `convert_type_to_mergen`, `set_attributes`, `analyze_instruction_bitfield`, `disassemble_instruction`, `disas`, `disas2` |
| `DecoderCommon` | `decoder_common.dfy` | the entry-point call that both headers' `decode()` makes, and the scalar cursor state |
| `IcedPlusPlus` | `iced_pp_decoder.dfy` | `iced::Decoder` of `iced++/iced.hpp`, as a class |
| `IcedPp` | `icedpp_decoder.dfy` | `iced::Decoder` of `icedpp/iced.hpp`, as a class |

Representation choices:
- 64-bit unsigned values (`size_t`, `uint64_t`, `u64`, `usize`) are the newtype `u64`. Their wrap-around is written out in `WrapAdd`/`WrapSub`: `WrapSub` is `wrapping_sub` and C++ unsigned `-`.
- Record bytes are `bv8`, so the bitmask fields are bit operations.
- On the Rust side, a null `out` or `code_ptr` is `None`. The `len` bytes behind `code_ptr` are the `code` sequence.
- On the C++ side a pointer is a 64-bit address, 0 is `nullptr`, and memory is a function from addresses to bytes.

Behaviour of the code worth knowing:
- `OperandType` has 22 values, codes 0 to 21 (`FarBranch` is 21).
- `setIp` checks no bounds. After it, `canDecode()` is true exactly when the new address lies inside the buffer, modulo 2^64.
- `decode()` never advances the cursor and never updates the last-success fields. It always passes 15 bytes, whatever `remainingSize_` is; the `code_size` and `address` it computes are unused.
- `reconfigure` keeps `ip_`, so afterwards the offset matches `ip_` only if `ip_` already was the new base address.
- In the current header, the move constructor sets `remainingSize_` from the source's `size_` and leaves the last-success fields and the current instruction at their defaults. This cannot change `canDecode()`. Move assignment skips the current instruction.

## Model

| member | source | states |
|---|---|---|
| CTypes.WrapAdd | iced++/iced.hpp:98 | unsigned `+` (`data_ + offset_`) is the exact sum, or the sum less 2^64 when it overflows |
| CTypes.WrapSub | icedpp_rust_lib/src/lib.rs:174 | `wrapping_sub` is the inverse of wrapping addition; it equals `a - b` without borrow and `a - b + 2^64` with one |
| CTypes.WrapSubUnique | iced++/iced.hpp:84-85 | any 64-bit `d` with `d + b == a` (mod 2^64) is the wrapped difference `a - b` |
| CTypes.TruncByte | icedpp_rust_lib/src/lib.rs:210 | an `as u8` cast keeps the value modulo 256, so a value below 256 is unchanged |
| CTypes.ByteOf | icedpp_rust_lib/src/lib.rs:169 | every value below 256 has a byte of exactly that value |
| CTypes.UnsignedAbs | icedpp_rust_lib/src/lib.rs:199 | `unsigned_abs` is `x` or `-x`, as an unsigned 32-bit value |
| CTypes.ReadBytes | iced++/iced.hpp:98 | the bytes behind a pointer are exactly `n` bytes long |
| Mergen.MergenPrefix.Mask | icedpp_rust_lib/src/lib.rs:8-13 | `None` is the only zero mask; every other prefix is a single bit among bits 0-2 |
| Mergen.AttributesOf | icedpp_rust_lib/src/lib.rs:120-132 | bit 0 is set iff rep, bit 1 iff repne, bit 2 iff lock; bits 3-7 are zero |
| Mergen.SetAttributes | icedpp_rust_lib/src/lib.rs:120-132 | the successive `|=` build exactly that bitmask |
| Mergen.AttributesRoundTrip | icedpp_rust_lib/src/lib.rs:8-13 | decoding the bitmask gives back the three prefix flags; the mask is at most 7 |
| Mergen.OperandType.Code | icedpp_rust_lib/src/lib.rs:16-39 | every discriminant is below 22 |
| Mergen.CodeRoundTrip | icedpp_rust_lib/src/lib.rs:16-39 | every type's byte code decodes back to that type, so each code is a valid discriminant |
| Mergen.ConvertTypeToMergen | icedpp_rust_lib/src/lib.rs:75-117 | the conversion keeps an operand's category: register, memory (all string kinds included), immediate, near or far branch; every other kind becomes `Invalid` |
| Mergen.ConvertRegisterWidth | icedpp_rust_lib/src/lib.rs:77-88 | a register of 1/2/4/8/16/32/64 bytes gets the register type of that width; any other width gets `Register64` |
| Mergen.ConvertMemoryWidth | icedpp_rust_lib/src/lib.rs:90-101 | a memory operand of 1/2/4/8/16/32/64 bytes gets the memory type of that width; any other size gets `Memory64` |
| Mergen.ConvertStringOperand | icedpp_rust_lib/src/lib.rs:102-105 | SegDI/SegSI give `Memory8`, ESDI gives `Memory16`, the ESEDI group gives `Memory32`, and the ESRDI group gives `Memory64` |
| Mergen.ConvertImmediateWidth | icedpp_rust_lib/src/lib.rs:107-112 | an immediate is typed by its encoded width, so every `Immediate8to*` gives `Immediate8` and `Immediate32to64` gives `Immediate32`; only `Immediate8_2nd` gives `Immediate8_2nd` |
| Mergen.ConvertFixedByKind | icedpp_rust_lib/src/lib.rs:102-115 | apart from `Register` and `Memory`, the type depends on the operand kind alone |
| Mergen.BuildTypes | icedpp_rust_lib/src/lib.rs:185-191 | the loop fills all four slots, whatever the operand count, each with the slot's converted type code |
| Mergen.FlagsOf | icedpp_rust_lib/src/lib.rs:134-135 | the `IS_RELATIVE` and `HAS_64BIT_IMM` bits read back the two facts; the flags are at most 3 |
| Mergen.AnalyzeInstructionBitfield | icedpp_rust_lib/src/lib.rs:138-163 | the result is at most 3. `IS_RELATIVE` is set iff the memory base is RIP or an operand below `op_count` is a near branch. `HAS_64BIT_IMM` is set iff an operand below `op_count` is `Immediate64`. The early return does not change the result |
| Mergen.WithinWholeInstruction | icedpp_rust_lib/src/lib.rs:152-156 | a fact found in the operands scanned before the early return holds of the whole instruction |
| Mergen.DisassembleInstruction | icedpp_rust_lib/src/lib.rs:167-213 | the record built step by step is the record `Disassembled` describes |
| Mergen.RecordImmediateSelection | icedpp_rust_lib/src/lib.rs:171-198 | relative: `immediate == mem_disp == (disp64 - len) mod 2^64`. Otherwise: `mem_disp == disp64`, and `immediate` is `immediate64` if there is a 64-bit immediate, else `immediate32` zero-extended |
| Mergen.RecordDisplacementRecoverable | icedpp_rust_lib/src/lib.rs:174 | adding the length back to a relative `mem_disp` gives the decoded displacement; the record's own `length` suffices when the length fits a byte |
| Mergen.RecordScalarFields | icedpp_rust_lib/src/lib.rs:193-212 | these fields are copied: mnemonic, base, index, the four register codes. `mem_scale`, `length` and `stack_growth` are kept modulo 256. `operand_count_visible == op_count`. The text is all zeros |
| Mergen.RecordTypesValid | icedpp_rust_lib/src/lib.rs:185-191 | all four type bytes are valid discriminants (at most 21), each the slot's converted type |
| Mergen.RecordAttributes | icedpp_rust_lib/src/lib.rs:209 | the record's `attributes` byte reads back the instruction's prefixes |
| Mergen.TextLength | icedpp_rust_lib/src/lib.rs:281 | the copy length is `min(n, 63)` |
| Mergen.CopyText | icedpp_rust_lib/src/lib.rs:278-284 | the 64-byte text holds the first `min(n, 63)` formatted bytes, then a 0, then zeros |
| Mergen.TextFieldRoundTrip | icedpp_rust_lib/src/lib.rs:279-284 | reading the text back as a C string gives the formatted text cut to 63 bytes, for text with no NUL byte |
| Mergen.DisasOutcome | icedpp_rust_lib/src/lib.rs:225-237 | status -1 iff `out` or the code pointer is null or `len == 0`, and then `*out` is untouched; otherwise status 0 and `*out` holds the record |
| Mergen.Disas | icedpp_rust_lib/src/lib.rs:220-238 | `disas` has exactly that outcome, with the record of `disassemble_instruction` and no text |
| Mergen.Disas2 | icedpp_rust_lib/src/lib.rs:246-294 | `disas2` has the same argument check and outcome; its record has the copied text |
| Mergen.Disas2Text | icedpp_rust_lib/src/lib.rs:279-291 | after a successful `disas2` the text is NUL-terminated at `min(n, 63)` and reads back as the cut formatted text; every other field equals what `disas` writes |
| DecoderCommon.Window | iced++/iced.hpp:98-108 | the entry point sees no bytes behind a null pointer, else exactly 15 bytes |
| DecoderCommon.RawDecode | iced++/iced.hpp:102-108 | the local record stays all zero for a null pointer. Otherwise it is what `disas2` (debug) or `disas` builds from the 15 bytes at the pointer |
| DecoderCommon.CallDisas | iced++/iced.hpp:102-108 | the `if constexpr` call leaves that record, whatever the status |
| DecoderCommon.SetIpDecodable | iced++/iced.hpp:82-86 | after the unchecked repositioning, decoding is possible iff the new address lies in `[base, base + size)`, the buffer's upper end wrapping past 2^64 |
| IcedPlusPlus.Decoder.CanDecode | iced++/iced.hpp:78 | on a valid decoder, `canDecode()` holds iff the offset is inside the buffer |
| IcedPlusPlus.Decoder.constructor | iced++/iced.hpp:51-54 | `ip == baseAddr == baseAddress`, offset 0, `remainingSize == size`, last-success fields 0; it can decode iff `size > 0` |
| IcedPlusPlus.Decoder.Moved | iced++/iced.hpp:58-60 | copies pointer, addresses, size and offset; sets `remainingSize := other.size`; last-success fields 0; for a valid source, the answer of `canDecode()` is unchanged |
| IcedPlusPlus.Decoder.MoveAssign | iced++/iced.hpp:61-73 | copies the eight scalar fields, keeps the current instruction, and changes nothing on self-assignment |
| IcedPlusPlus.Decoder.SetIp | iced++/iced.hpp:82-86 | `ip := a`, offset `a - base` and remaining size `size - offset`, both mod 2^64; nothing else changes; afterwards it can decode iff `(a - base) mod 2^64 < size` |
| IcedPlusPlus.Decoder.Reconfigure | iced++/iced.hpp:88-95 | new buffer, size and base; remaining size `size`; offset and last-success fields 0; instruction cleared; `ip` kept |
| IcedPlusPlus.Decoder.Decode | iced++/iced.hpp:97-112 | no cursor field changes. The current instruction becomes the entry point's record for the 15 bytes at `data + offset`, and that instruction is returned |
| IcedPp.Decoder.CanDecode | icedpp/iced.hpp:47 | on a valid decoder, `canDecode()` holds iff the offset is inside the buffer |
| IcedPp.Decoder.constructor | icedpp/iced.hpp:34-37 | `ip == baseAddr == baseAddress`, offset 0, `remainingSize == size`, last-success fields 0; it can decode iff `size > 0` |
| IcedPp.Decoder.Moved | icedpp/iced.hpp:41 | the defaulted move constructor: every field equals the source's |
| IcedPp.Decoder.MoveAssign | icedpp/iced.hpp:42 | the defaulted move assignment: every field becomes the source's |
| IcedPp.Decoder.SetIp | icedpp/iced.hpp:51-55 | `ip := a`, offset `a - base` and remaining size `size - offset`, both mod 2^64; nothing else changes; afterwards it can decode iff `(a - base) mod 2^64 < size` |
| IcedPp.Decoder.Reconfigure | icedpp/iced.hpp:57-64 | new buffer, size and base; remaining size `size`; offset and last-success fields 0; `ip` kept |
| IcedPp.Decoder.Decode | icedpp/iced.hpp:66-80 | calls the entry point on the 15 bytes at `data + offset` and changes no cursor field |

## Left out

- `iced_x86` itself (`Decoder::new(64, ..)`, `decode_out`, the opcode tables, the specialized formatter) is a foreign library. Its decoding and its formatted output are the two abstract functions of `Iced`. So are the accessor values an instruction carries, `Register::RIP` (taken as byte code 70) and `Register::size()`.
- Operand kinds added to `iced_x86` after the kinds the builder names are one `Unlisted` kind, which reaches the catch-all arm.
- `slice::from_raw_parts`, the raw write through `*out` and the decoded `Instruction` local are not modelled as memory. `out` and `code_ptr` are nullable values, and the write is the returned `Option<Record>`.
- The thread-local `CACHED_STRING` is an allocation cache that cannot change the text; it is not modelled.
- The `offset_of!` layout assertions and the `repr(C)` layout are compiler-checked ABI facts. The record is a datatype with named fields.
- `iced_internal.hpp` is not part of this model. `__iced_internal::IcedInstruction` is taken to be the Rust record: 64 bytes of text, zero-initialised by `{ 0 }`. The `MemOperand`/`Operand` types of the current header have no behaviour and are omitted.
- The accessors `ip()`, `lastSuccessfulIp()`, `lastSuccessfulLength()` and `getCurrentInstruction()` only read a field; they are the class's fields themselves.
- IcedPlusPlus.Decoder.Decode: returns a copy of the current instruction, while the header returns a reference to `currentInstruction_`. A caller's reference would be overwritten by the next `decode()` and zeroed by `reconfigure()`; the returned value keeps the old record, so that aliasing is not captured.
- The status `decode()` receives from the entry point is ignored, as in both headers.
- Both headers declare `size_` as `const` yet assign it. It is an ordinary field here.
- The earlier header's defaulted move assignment would be deleted because of that `const` member. It is modelled as the memberwise copy it declares.
- The earlier header's `decode()` ends without a `return` and is modelled as returning nothing. Its `Instruction` constructor ignores its argument, so that class keeps no instruction and the record survives only as a ghost result.
- The current header's `getCurrentInstruction()` returns a non-const reference from a `const` method; it is not modelled.
- `test.cpp` calls functions that neither header declares; it is not modelled.
- IcedPlusPlus.Decoder.MoveAssign and IcedPp.Decoder.MoveAssign: both decoders must share the `IcedDebug` argument, since C++ moves only between decoders of one template instance.
