/** The raw-facts record builder: turns one instruction decoded by `iced_x86`
    into the fixed-layout record handed across the C boundary, with the
    argument checks of the two exported entry points `disas` (no text) and
    `disas2` (with a NUL-terminated text rendering). */
module Mergen {
  import opened CTypes
  import opened IcedX86

  // ---------------------------------------------------------------------
  // Prefix bitmask

  /** `MergenPrefix`: one bit per prefix in the record's `attributes` byte. */
  datatype MergenPrefix = NoPrefix | Rep | Repne | Lock {
    function Mask(): (m: byte)
      ensures m == 0 <==> this == NoPrefix
      ensures m & (m - 1) == 0 && m & 0xF8 == 0
    {
      match this
      case NoPrefix => 0
      case Rep => 1
      case Repne => 2
      case Lock => 4
    }
  }

  /** The prefix bitmask of an instruction. */
  function AttributesOf(ins: IcedInstr): (a: byte)
    ensures (a & Rep.Mask() != 0) == ins.hasRepPrefix
    ensures (a & Repne.Mask() != 0) == ins.hasRepnePrefix
    ensures (a & Lock.Mask() != 0) == ins.hasLockPrefix
    ensures a & 0xF8 == 0
  {
    (if ins.hasRepPrefix then Rep.Mask() else 0)
    | (if ins.hasRepnePrefix then Repne.Mask() else 0)
    | (if ins.hasLockPrefix then Lock.Mask() else 0)
  }

  /** `set_attributes`: builds the bitmask one prefix at a time. */
  method SetAttributes(ins: IcedInstr) returns (flags: byte)
    ensures flags == AttributesOf(ins)
  {
    flags := NoPrefix.Mask();
    if ins.hasRepPrefix {
      flags := flags | Rep.Mask();
    }
    if ins.hasRepnePrefix {
      flags := flags | Repne.Mask();
    }
    if ins.hasLockPrefix {
      flags := flags | Lock.Mask();
    }
  }

  /** The prefixes a bitmask stands for; the inverse of AttributesOf. */
  function PrefixesOf(mask: byte): (p: (bool, bool, bool)) {
    (mask & Rep.Mask() != 0, mask & Repne.Mask() != 0, mask & Lock.Mask() != 0)
  }

  lemma AttributesRoundTrip(ins: IcedInstr)
    ensures PrefixesOf(AttributesOf(ins)) == (ins.hasRepPrefix, ins.hasRepnePrefix, ins.hasLockPrefix)
    ensures AttributesOf(ins) <= 7
  {
  }

  // ---------------------------------------------------------------------
  // Operand type codes

  /** `OperandType`: the 22 operand type codes of the record's `types` bytes. */
  datatype OperandType =
    | Invalid
    | Register8 | Register16 | Register32 | Register64
    | Register128 | Register256 | Register512
    | Memory8 | Memory16 | Memory32 | Memory64
    | Memory128 | Memory256 | Memory512
    | Immediate8 | Immediate8_2nd | Immediate16 | Immediate32 | Immediate64
    | NearBranch
    | FarBranch
  {
    /** The enum discriminant, in declaration order. */
    function Code(): (c: nat)
      ensures c < 22
    {
      match this
      case Invalid => 0
      case Register8 => 1
      case Register16 => 2
      case Register32 => 3
      case Register64 => 4
      case Register128 => 5
      case Register256 => 6
      case Register512 => 7
      case Memory8 => 8
      case Memory16 => 9
      case Memory32 => 10
      case Memory64 => 11
      case Memory128 => 12
      case Memory256 => 13
      case Memory512 => 14
      case Immediate8 => 15
      case Immediate8_2nd => 16
      case Immediate16 => 17
      case Immediate32 => 18
      case Immediate64 => 19
      case NearBranch => 20
      case FarBranch => 21
    }

    /** The operand width, in bytes, that the type name records (0 for the
        branch and invalid types, which carry no width). */
    function Bytes(): (n: nat) {
      match this
      case Register8 | Memory8 | Immediate8 | Immediate8_2nd => 1
      case Register16 | Memory16 | Immediate16 => 2
      case Register32 | Memory32 | Immediate32 => 4
      case Register64 | Memory64 | Immediate64 => 8
      case Register128 | Memory128 => 16
      case Register256 | Memory256 => 32
      case Register512 | Memory512 => 64
      case Invalid | NearBranch | FarBranch => 0
    }
  }

  /** The operand category, shared by `iced_x86` kinds and type codes. */
  datatype Category =
    | RegisterOperand | MemoryOperand | ImmediateOperand
    | NearBranchOperand | FarBranchOperand | InvalidOperand

  function KindCategory(k: OpKind): (c: Category) {
    match k
    case Register => RegisterOperand
    case NearBranch16 | NearBranch32 | NearBranch64 => NearBranchOperand
    case FarBranch16 | FarBranch32 => FarBranchOperand
    case Immediate8 | Immediate8_2nd | Immediate16 | Immediate32 | Immediate64
      | Immediate8to16 | Immediate8to32 | Immediate8to64 | Immediate32to64 => ImmediateOperand
    case MemorySegSI | MemorySegESI | MemorySegRSI | MemorySegDI | MemorySegEDI | MemorySegRDI
      | MemoryESDI | MemoryESEDI | MemoryESRDI | Memory => MemoryOperand
    case Unlisted(_) => InvalidOperand
  }

  function TypeCategory(t: OperandType): (c: Category) {
    match t
    case Register8 | Register16 | Register32 | Register64
      | Register128 | Register256 | Register512 => RegisterOperand
    case Memory8 | Memory16 | Memory32 | Memory64
      | Memory128 | Memory256 | Memory512 => MemoryOperand
    case Immediate8 | Immediate8_2nd | Immediate16 | Immediate32 | Immediate64 => ImmediateOperand
    case NearBranch => NearBranchOperand
    case FarBranch => FarBranchOperand
    case Invalid => InvalidOperand
  }

  /** The type code a byte in `types` stands for, if any. */
  function OperandTypeFromCode(c: byte): (t: Option<OperandType>) {
    match c
    case 0 => Some(Invalid)
    case 1 => Some(Register8)
    case 2 => Some(Register16)
    case 3 => Some(Register32)
    case 4 => Some(Register64)
    case 5 => Some(Register128)
    case 6 => Some(Register256)
    case 7 => Some(Register512)
    case 8 => Some(Memory8)
    case 9 => Some(Memory16)
    case 10 => Some(Memory32)
    case 11 => Some(Memory64)
    case 12 => Some(Memory128)
    case 13 => Some(Memory256)
    case 14 => Some(Memory512)
    case 15 => Some(OperandType.Immediate8)
    case 16 => Some(OperandType.Immediate8_2nd)
    case 17 => Some(OperandType.Immediate16)
    case 18 => Some(OperandType.Immediate32)
    case 19 => Some(OperandType.Immediate64)
    case 20 => Some(NearBranch)
    case 21 => Some(FarBranch)
    case _ => None
  }

  lemma CodeRoundTrip(t: OperandType)
    ensures OperandTypeFromCode(t.Code() as byte) == Some(t)
  {
  }

  /** The register and memory widths that have a type code of their own. */
  const CODED_WIDTHS: set<nat> := {1, 2, 4, 8, 16, 32, 64}

  /** `convert_type_to_mergen`: the type code of operand `index`. The
      conversion never changes an operand's category: registers stay
      registers, every memory kind a memory type, every immediate kind an
      immediate type, branches branches, and any other kind is Invalid. */
  function ConvertTypeToMergen(ins: IcedInstr, index: nat): (t: OperandType)
    requires index < MAX_OP_COUNT
    ensures TypeCategory(t) == KindCategory(ins.opKinds[index])
  {
    match ins.opKinds[index]
    case Register =>
      (match ins.opRegisters[index].size
       case 1 => Register8
       case 2 => Register16
       case 4 => Register32
       case 8 => Register64
       case 16 => Register128
       case 32 => Register256
       case 64 => Register512
       case _ => Register64)
    case Memory =>
      (match ins.memorySize
       case 1 => Memory8
       case 2 => Memory16
       case 4 => Memory32
       case 8 => Memory64
       case 16 => Memory128
       case 32 => Memory256
       case 64 => Memory512
       case _ => Memory64)
    case MemorySegDI | MemorySegSI => Memory8
    case MemoryESDI => Memory16
    case MemoryESEDI | MemorySegESI | MemorySegEDI => Memory32
    case MemoryESRDI | MemorySegRSI | MemorySegRDI => Memory64
    case Immediate8 | Immediate8to16 | Immediate8to32 | Immediate8to64 => OperandType.Immediate8
    case Immediate8_2nd => OperandType.Immediate8_2nd
    case Immediate16 => OperandType.Immediate16
    case Immediate32 | Immediate32to64 => OperandType.Immediate32
    case Immediate64 => OperandType.Immediate64
    case NearBranch16 | NearBranch32 | NearBranch64 => NearBranch
    case FarBranch16 | FarBranch32 => FarBranch
    case _ => Invalid
  }

  /** A register operand is typed by its register's width; a width without a
      code of its own gives Register64. */
  lemma ConvertRegisterWidth(ins: IcedInstr, index: nat)
    requires index < MAX_OP_COUNT && ins.opKinds[index].Register?
    ensures var t := ConvertTypeToMergen(ins, index);
      if ins.opRegisters[index].size in CODED_WIDTHS
      then TypeCategory(t) == RegisterOperand && t.Bytes() == ins.opRegisters[index].size
      else t == Register64
  {
  }

  /** A general memory operand is typed by the instruction's memory size; a
      size without a code of its own gives Memory64. */
  lemma ConvertMemoryWidth(ins: IcedInstr, index: nat)
    requires index < MAX_OP_COUNT && ins.opKinds[index].Memory?
    ensures var t := ConvertTypeToMergen(ins, index);
      if ins.memorySize in CODED_WIDTHS
      then TypeCategory(t) == MemoryOperand && t.Bytes() == ins.memorySize
      else t == Memory64
  {
  }

  /** The width, in bytes, of the immediate as encoded (before any sign
      extension the kind names). */
  function EncodedImmediateBytes(k: OpKind): (n: nat) {
    match k
    case Immediate8 | Immediate8_2nd | Immediate8to16 | Immediate8to32 | Immediate8to64 => 1
    case Immediate16 => 2
    case Immediate32 | Immediate32to64 => 4
    case Immediate64 => 8
    case _ => 0
  }

  /** An immediate operand is typed by its encoded width, and the second
      8-bit immediate keeps a code of its own. */
  lemma ConvertImmediateWidth(ins: IcedInstr, index: nat)
    requires index < MAX_OP_COUNT && KindCategory(ins.opKinds[index]) == ImmediateOperand
    ensures ConvertTypeToMergen(ins, index).Bytes() == EncodedImmediateBytes(ins.opKinds[index])
    ensures ConvertTypeToMergen(ins, index) == OperandType.Immediate8_2nd <==> ins.opKinds[index].Immediate8_2nd?
  {
  }

  /** The string-instruction memory kinds have fixed type codes. */
  lemma ConvertStringOperand(ins: IcedInstr, index: nat)
    requires index < MAX_OP_COUNT
    ensures var k, t := ins.opKinds[index], ConvertTypeToMergen(ins, index);
      && (k.MemorySegDI? || k.MemorySegSI? ==> t == Memory8)
      && (k.MemoryESDI? ==> t == Memory16)
      && (k.MemoryESEDI? || k.MemorySegESI? || k.MemorySegEDI? ==> t == Memory32)
      && (k.MemoryESRDI? || k.MemorySegRSI? || k.MemorySegRDI? ==> t == Memory64)
  {
  }

  /** Apart from the register and general memory kinds, the type code depends
      on the operand kind alone. */
  lemma ConvertFixedByKind(ins: IcedInstr, other: IcedInstr, index: nat)
    requires index < MAX_OP_COUNT
    requires ins.opKinds[index] == other.opKinds[index]
    requires !ins.opKinds[index].Register? && !ins.opKinds[index].Memory?
    ensures ConvertTypeToMergen(ins, index) == ConvertTypeToMergen(other, index)
  {
  }

  /** Number of type bytes in the record. */
  const TYPE_SLOTS: nat := 4

  /** The type bytes of the record. */
  function TypesOf(ins: IcedInstr): (types: seq<byte>)
    ensures |types| == TYPE_SLOTS
  {
    seq(TYPE_SLOTS, i requires 0 <= i < TYPE_SLOTS => ConvertTypeToMergen(ins, i).Code() as byte)
  }

  /** The loop of `disassemble_instruction` that fills `types`, one slot per
      iteration, for all four slots whatever the operand count. */
  method BuildTypes(ins: IcedInstr) returns (types: seq<byte>)
    ensures types == TypesOf(ins)
    ensures forall i :: 0 <= i < TYPE_SLOTS ==> OperandTypeFromCode(types[i]) == Some(ConvertTypeToMergen(ins, i))
  {
    var t := new byte[TYPE_SLOTS](_ => 0);
    for i := 0 to TYPE_SLOTS
      invariant forall j :: 0 <= j < i ==> t[j] == ConvertTypeToMergen(ins, j).Code() as byte
    {
      t[i] := ConvertTypeToMergen(ins, i).Code() as byte;
    }
    types := t[..];
    forall i | 0 <= i < TYPE_SLOTS
      ensures OperandTypeFromCode(types[i]) == Some(ConvertTypeToMergen(ins, i))
    {
      CodeRoundTrip(ConvertTypeToMergen(ins, i));
    }
  }

  // ---------------------------------------------------------------------
  // Relative and 64-bit-immediate flags

  const HAS_64BIT_IMM: byte := 0x01
  const IS_RELATIVE: byte := 0x02

  /** RIP-based memory, or a near branch among the first `k` operands. */
  predicate RelativeWithin(ins: IcedInstr, k: nat)
    requires k <= ins.opCount
  {
    ins.memoryBase == RIP || exists i :: 0 <= i < k && IsNearBranch(ins.opKinds[i])
  }

  /** A 64-bit immediate among the first `k` operands. */
  predicate Imm64Within(ins: IcedInstr, k: nat)
    requires k <= ins.opCount
  {
    exists i :: 0 <= i < k && ins.opKinds[i].Immediate64?
  }

  predicate IsRelative(ins: IcedInstr) {
    RelativeWithin(ins, ins.opCount)
  }

  predicate HasImm64(ins: IcedInstr) {
    Imm64Within(ins, ins.opCount)
  }

  /** The flag byte for the two facts; each flag bit reads back its fact. */
  function FlagsOf(relative: bool, imm64: bool): (f: byte)
    ensures (f & IS_RELATIVE != 0) == relative
    ensures (f & HAS_64BIT_IMM != 0) == imm64
    ensures f <= HAS_64BIT_IMM | IS_RELATIVE
  {
    (if relative then IS_RELATIVE else 0) | (if imm64 then HAS_64BIT_IMM else 0)
  }

  /** The flags of an instruction, over all its operands. */
  function Bitfield(ins: IcedInstr): (f: byte) {
    FlagsOf(IsRelative(ins), HasImm64(ins))
  }

  /** `analyze_instruction_bitfield`: scans the operands and stops as soon as
      both flags are set; the early stop gives the same flags as a full scan. */
  method AnalyzeInstructionBitfield(ins: IcedInstr) returns (r: byte)
    ensures r == Bitfield(ins)
    ensures r <= 3
  {
    var flags: byte := 0;
    if ins.memoryBase == RIP {
      flags := flags | IS_RELATIVE;
    }
    var opCount := ins.opCount;
    for i := 0 to opCount
      invariant flags == FlagsOf(RelativeWithin(ins, i), Imm64Within(ins, i))
    {
      match ins.opKinds[i]
      case Immediate64 =>
        flags := flags | HAS_64BIT_IMM;
        if flags == HAS_64BIT_IMM | IS_RELATIVE {
          WithinWholeInstruction(ins, i + 1);
          return flags;
        }
      case NearBranch16 | NearBranch32 | NearBranch64 =>
        flags := flags | IS_RELATIVE;
        if flags == HAS_64BIT_IMM | IS_RELATIVE {
          WithinWholeInstruction(ins, i + 1);
          return flags;
        }
      case _ =>
    }
    r := flags;
  }

  /** A fact found among the first `k` operands holds of the instruction. */
  lemma WithinWholeInstruction(ins: IcedInstr, k: nat)
    requires k <= ins.opCount
    ensures RelativeWithin(ins, k) ==> IsRelative(ins)
    ensures Imm64Within(ins, k) ==> HasImm64(ins)
  {
  }

  // ---------------------------------------------------------------------
  // The record

  /** Capacity of the record's text field, NUL terminator included. */
  const TEXT_CAPACITY: nat := 64
  const TEXT_ZEROS: seq<byte> := Zeros(TEXT_CAPACITY)

  function Zeros(n: nat): (z: seq<byte>)
    ensures |z| == n && forall i :: 0 <= i < n ==> z[i] == 0
  {
    if n == 0 then [] else Zeros(n - 1) + [0]
  }

  /** `MergenDisassembledInstructionBase`. */
  datatype Record = Record(
    mnemonic: u16,
    memBase: byte,
    memIndex: byte,
    memScale: byte,
    stackGrowth: byte,
    regs: seq<byte>,
    types: seq<byte>,
    attributes: byte,
    length: byte,
    operandCountVisible: byte,
    immediate: u64,
    memDisp: u64,
    text: seq<byte>)

  /** A record whose every byte is zero. */
  const ZERO_RECORD: Record :=
    Record(0, 0, 0, 0, 0, [0, 0, 0, 0], [0, 0, 0, 0], 0, 0, 0, 0, 0, TEXT_ZEROS)

  /** The `immediate` field: the adjusted displacement for a relative
      instruction, else the 64-bit immediate when there is one, else the
      32-bit immediate zero-extended. */
  function SelectImmediate(flags: byte, adjusted: u64, imm32: u32, imm64: u64): (v: u64) {
    if flags & IS_RELATIVE != 0 then adjusted
    else if flags & HAS_64BIT_IMM != 0 then imm64
    else imm32 as int as u64
  }

  /** The `mem_disp` field: the adjusted displacement for a relative
      instruction, else the displacement as decoded. */
  function SelectDisplacement(flags: byte, adjusted: u64, disp64: u64): (v: u64) {
    if flags & IS_RELATIVE != 0 then adjusted else disp64
  }

  /** The displacement with the instruction length taken off, wrapping. */
  function AdjustedDisplacement(ins: IcedInstr): (d: u64) {
    WrapSub(ins.memoryDisplacement, ins.len)
  }

  /** The record `disassemble_instruction` builds for an instruction. */
  function Disassembled(ins: IcedInstr): (r: Record) {
    Record(
      ins.mnemonic,
      ins.memoryBase,
      ins.memoryIndex,
      TruncByte(ins.memoryIndexScale as nat),
      TruncByte(UnsignedAbs(ins.stackPointerIncrement) as nat),
      [ins.opRegisters[0].code, ins.opRegisters[1].code, ins.opRegisters[2].code, ins.opRegisters[3].code],
      TypesOf(ins),
      AttributesOf(ins),
      TruncByte(ins.len as nat),
      TruncByte(ins.opCount),
      SelectImmediate(Bitfield(ins), AdjustedDisplacement(ins), ins.immediate32, ins.immediate64),
      SelectDisplacement(Bitfield(ins), AdjustedDisplacement(ins), ins.memoryDisplacement),
      TEXT_ZEROS)
  }

  /** `disassemble_instruction`. */
  method DisassembleInstruction(ins: IcedInstr) returns (r: Record)
    ensures r == Disassembled(ins)
  {
    var instrLen := ins.len;
    var disp64 := ins.memoryDisplacement;
    var flags := AnalyzeInstructionBitfield(ins);
    var isRel := flags & IS_RELATIVE != 0;
    var adjustedDisp := WrapSub(disp64, instrLen);
    var immediate :=
      if isRel then adjustedDisp
      else if flags & HAS_64BIT_IMM != 0 then ins.immediate64
      else ins.immediate32 as int as u64;
    var types := BuildTypes(ins);
    var attributes := SetAttributes(ins);
    r := Record(
      mnemonic := ins.mnemonic,
      memBase := ins.memoryBase,
      memIndex := ins.memoryIndex,
      memScale := TruncByte(ins.memoryIndexScale as nat),
      memDisp := if isRel then adjustedDisp else disp64,
      stackGrowth := TruncByte(UnsignedAbs(ins.stackPointerIncrement) as nat),
      immediate := immediate,
      regs := [ins.opRegisters[0].code, ins.opRegisters[1].code,
               ins.opRegisters[2].code, ins.opRegisters[3].code],
      types := types,
      operandCountVisible := TruncByte(ins.opCount),
      attributes := attributes,
      length := TruncByte(instrLen as nat),
      text := TEXT_ZEROS);
  }

  /** How `immediate` and `mem_disp` are chosen. */
  lemma RecordImmediateSelection(ins: IcedInstr)
    ensures var r := Disassembled(ins);
      if IsRelative(ins) then
        r.immediate == r.memDisp == WrapSub(ins.memoryDisplacement, ins.len)
      else
        && r.memDisp == ins.memoryDisplacement
        && r.immediate == if HasImm64(ins) then ins.immediate64 else ins.immediate32 as int as u64
  {
  }

  /** The displacement as decoded is always recoverable from the record: a
      relative record holds it with the instruction length taken off. */
  lemma {:induction false} RecordDisplacementRecoverable(ins: IcedInstr)
    ensures WrapAdd(Disassembled(ins).memDisp, if IsRelative(ins) then ins.len else 0) == ins.memoryDisplacement
    ensures IsRelative(ins) && ins.len as int < TWO_8 ==>
      WrapAdd(Disassembled(ins).memDisp, Disassembled(ins).length as int as u64) == ins.memoryDisplacement
  {
  }

  /** The one-byte and copied fields of the record: the scale, the length and
      the magnitude of the stack-pointer change are kept modulo 2^8. */
  lemma RecordScalarFields(ins: IcedInstr)
    ensures var r := Disassembled(ins);
      && r.mnemonic == ins.mnemonic
      && r.memBase == ins.memoryBase && r.memIndex == ins.memoryIndex
      && r.memScale as int == ins.memoryIndexScale as int % TWO_8
      && r.length as int == ins.len as int % TWO_8
      && (ins.len as int < TWO_8 ==> r.length as int == ins.len as int)
      && r.stackGrowth as int == (var g := ins.stackPointerIncrement as int; if g < 0 then -g else g) % TWO_8
      && r.operandCountVisible as int == ins.opCount
      && |r.regs| == 4 && (forall i :: 0 <= i < 4 ==> r.regs[i] == ins.opRegisters[i].code)
      && r.text == TEXT_ZEROS
  {
  }

  /** Every type byte is a valid type code, for all four slots, including
      those beyond the operand count. */
  lemma RecordTypesValid(ins: IcedInstr)
    ensures var r := Disassembled(ins);
      && |r.types| == TYPE_SLOTS
      && forall i :: 0 <= i < TYPE_SLOTS ==>
           r.types[i] as int <= 21 && OperandTypeFromCode(r.types[i]) == Some(ConvertTypeToMergen(ins, i))
  {
    forall i | 0 <= i < TYPE_SLOTS
      ensures OperandTypeFromCode(TypesOf(ins)[i]) == Some(ConvertTypeToMergen(ins, i))
    {
      CodeRoundTrip(ConvertTypeToMergen(ins, i));
    }
  }

  /** The record's attribute byte reads back the instruction's prefixes. */
  lemma RecordAttributes(ins: IcedInstr)
    ensures PrefixesOf(Disassembled(ins).attributes) == (ins.hasRepPrefix, ins.hasRepnePrefix, ins.hasLockPrefix)
  {
    AttributesRoundTrip(ins);
  }

  // ---------------------------------------------------------------------
  // Text field

  /** How many formatted bytes fit in the text field before its terminator. */
  function TextLength(formatted: seq<byte>): (n: nat)
    ensures n <= |formatted| && n < TEXT_CAPACITY
    ensures n == |formatted| || n == TEXT_CAPACITY - 1
  {
    if |formatted| < TEXT_CAPACITY - 1 then |formatted| else TEXT_CAPACITY - 1
  }

  /** The text field `disas2` stores: the formatted bytes that fit, then
      zeros. */
  function TextField(formatted: seq<byte>): (t: seq<byte>)
    ensures |t| == TEXT_CAPACITY
  {
    seq(TEXT_CAPACITY, i requires 0 <= i < TEXT_CAPACITY => if i < TextLength(formatted) then formatted[i] else 0)
  }

  /** The copy of the formatted text into the 64-byte array: at most 63
      bytes, then a NUL terminator, then the zeros the array started with. */
  method CopyText(formatted: seq<byte>) returns (text: seq<byte>)
    ensures text == TextField(formatted)
    ensures var n := TextLength(formatted);
      && |text| == TEXT_CAPACITY
      && text[..n] == formatted[..n]
      && text[n] == 0
      && forall i :: n < i < TEXT_CAPACITY ==> text[i] == 0
  {
    var textArray := new byte[TEXT_CAPACITY](_ => 0);
    var copyLen := TextLength(formatted);
    for i := 0 to copyLen
      invariant forall j :: 0 <= j < i ==> textArray[j] == formatted[j]
      invariant forall j :: copyLen <= j < TEXT_CAPACITY ==> textArray[j] == 0
    {
      textArray[i] := formatted[i];
    }
    textArray[copyLen] := 0;
    text := textArray[..];
  }

  /** The string a NUL-terminated buffer holds: its bytes before the first
      zero. */
  function CString(buf: seq<byte>): (s: seq<byte>)
    ensures |s| <= |buf| && s == buf[..|s|]
    ensures forall i :: 0 <= i < |s| ==> s[i] != 0
  {
    if buf == [] || buf[0] == 0 then [] else [buf[0]] + CString(buf[1..])
  }

  lemma {:induction false} CStringOfTerminated(s: seq<byte>, rest: seq<byte>)
    requires forall i :: 0 <= i < |s| ==> s[i] != 0
    ensures CString(s + [0] + rest) == s
  {
    if s != [] {
      assert (s + [0] + rest)[1..] == s[1..] + [0] + rest;
      CStringOfTerminated(s[1..], rest);
    }
  }

  /** Reading the text field back as a C string gives the formatted text,
      cut to 63 bytes (formatted text holds no NUL byte). */
  lemma TextFieldRoundTrip(formatted: seq<byte>)
    requires forall i :: 0 <= i < |formatted| ==> formatted[i] != 0
    ensures CString(TextField(formatted)) == formatted[..TextLength(formatted)]
  {
    var n := TextLength(formatted);
    var t := TextField(formatted);
    assert t == formatted[..n] + [0] + t[n + 1..];
    CStringOfTerminated(formatted[..n], t[n + 1..]);
  }

  // ---------------------------------------------------------------------
  // The exported entry points

  /** What an entry point returns and what `*out` holds afterwards (None if
      `out` is the null pointer). */
  datatype CallResult = CallResult(status: int, out: Option<Record>)

  /** The argument check shared by `disas` and `disas2`. */
  predicate Rejected(out: Option<Record>, code: Option<seq<byte>>, len: u64) {
    out.None? || code.None? || len == 0
  }

  /** The record `disas2` builds: that of `disas`, with the text field. */
  function Disassembled2(ins: IcedInstr, iced: Iced): (r: Record) {
    Disassembled(ins).(text := TextField(iced.format(ins)))
  }

  /** The outcome of `disas` (`withText` false) or `disas2` (`withText`
      true): `code` holds the `len` bytes at `code_ptr` (None if null). */
  function DisasOutcome(withText: bool, out: Option<Record>, code: Option<seq<byte>>, len: u64, iced: Iced): (c: CallResult)
    requires code.Some? ==> |code.value| == len as int
    ensures c.status == -1 <==> Rejected(out, code, len)
    ensures c.status == -1 || c.status == 0
    ensures c.status == -1 ==> c.out == out
    ensures c.status == 0 ==> c.out.Some?
  {
    if Rejected(out, code, len) then CallResult(-1, out)
    else if withText then CallResult(0, Some(Disassembled2(iced.decode(code.value), iced)))
    else CallResult(0, Some(Disassembled(iced.decode(code.value))))
  }

  /** `disas`. */
  method Disas(out: Option<Record>, code: Option<seq<byte>>, len: u64, iced: Iced)
    returns (status: int, written: Option<Record>)
    requires code.Some? ==> |code.value| == len as int
    ensures CallResult(status, written) == DisasOutcome(false, out, code, len, iced)
  {
    if code.None? || len == 0 || out.None? {
      return -1, out;
    }
    var instr := iced.decode(code.value);
    var result := DisassembleInstruction(instr);
    return 0, Some(result);
  }

  /** `disas2`. */
  method Disas2(out: Option<Record>, code: Option<seq<byte>>, len: u64, iced: Iced)
    returns (status: int, written: Option<Record>)
    requires code.Some? ==> |code.value| == len as int
    ensures CallResult(status, written) == DisasOutcome(true, out, code, len, iced)
  {
    if out.None? || code.None? || len == 0 {
      return -1, out;
    }
    var instr := iced.decode(code.value);
    var text := CopyText(iced.format(instr));
    var result := DisassembleInstruction(instr);
    result := result.(text := text);
    return 0, Some(result);
  }

  /** A successful `disas2` leaves a NUL-terminated text that reads back as
      the formatted text cut to 63 bytes, and otherwise the record `disas`
      leaves. */
  lemma Disas2Text(out: Option<Record>, code: Option<seq<byte>>, len: u64, iced: Iced)
    requires code.Some? ==> |code.value| == len as int
    requires !Rejected(out, code, len)
    requires var f := iced.format(iced.decode(code.value)); forall i :: 0 <= i < |f| ==> f[i] != 0
    ensures var with, without := DisasOutcome(true, out, code, len, iced), DisasOutcome(false, out, code, len, iced);
      var f := iced.format(iced.decode(code.value));
      && with.out.value.text[TextLength(f)] == 0
      && CString(with.out.value.text) == f[..TextLength(f)]
      && with.out.value.(text := TEXT_ZEROS) == without.out.value
  {
    TextFieldRoundTrip(iced.format(iced.decode(code.value)));
  }
}
