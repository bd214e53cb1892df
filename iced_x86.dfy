/** The facts the record builder reads from one instruction decoded by the
    `iced_x86` crate. `iced_x86` itself (its decoder, opcode tables and
    formatters) is not part of this model: an instruction is taken as an
    abstract record of the values its accessors return. */
module IcedX86 {
  import opened CTypes

  /** Number of operand slots an `iced_x86::Instruction` has. */
  const MAX_OP_COUNT: nat := 5

  /** `iced_x86::Register::RIP` as a byte code (`Register` is `repr(u8)`). */
  const RIP: byte := 70

  /** `iced_x86::OpKind`. `Unlisted` stands for any kind the crate may add
      later (the enum is not closed to the record builder, which has a
      catch-all arm for it). */
  datatype OpKind =
    | Register
    | NearBranch16 | NearBranch32 | NearBranch64
    | FarBranch16 | FarBranch32
    | Immediate8 | Immediate8_2nd | Immediate16 | Immediate32 | Immediate64
    | Immediate8to16 | Immediate8to32 | Immediate8to64 | Immediate32to64
    | MemorySegSI | MemorySegESI | MemorySegRSI
    | MemorySegDI | MemorySegEDI | MemorySegRDI
    | MemoryESDI | MemoryESEDI | MemoryESRDI
    | Memory
    | Unlisted(code: nat)

  /** A register operand: its `repr(u8)` code and `Register::size()` in bytes. */
  datatype Reg = Reg(code: byte, size: nat)

  /** The accessor values of one decoded instruction. */
  datatype Instr = Instr(
    mnemonic: u16,                // mnemonic() as u16
    opCount: nat,                 // op_count()
    opKinds: seq<OpKind>,         // op_kind(i), one per operand slot
    opRegisters: seq<Reg>,        // op_register(i), one per operand slot
    memorySize: nat,              // memory_size().size()
    memoryBase: byte,             // memory_base()
    memoryIndex: byte,            // memory_index()
    memoryIndexScale: u32,        // memory_index_scale()
    memoryDisplacement: u64,      // memory_displacement64()
    immediate32: u32,             // immediate32()
    immediate64: u64,             // immediate64()
    len: u64,                     // len()
    hasRepPrefix: bool,
    hasRepnePrefix: bool,
    hasLockPrefix: bool,
    stackPointerIncrement: i32)   // stack_pointer_increment()
  {
    /** What every `iced_x86::Instruction` satisfies: five operand slots and
        at most five operands. */
    predicate WellFormed() {
      |opKinds| == MAX_OP_COUNT && |opRegisters| == MAX_OP_COUNT && opCount <= MAX_OP_COUNT
    }
  }

  /** `Instruction::default()`: no operands, every slot a `Register` kind
      holding `Register::None`. */
  const DEFAULT_INSTR: Instr := Instr(
    0, 0, seq(MAX_OP_COUNT, _ => Register), seq(MAX_OP_COUNT, _ => Reg(0, 0)),
    0, 0, 0, 0, 0, 0, 0, 0, false, false, false, 0)

  type IcedInstr = i: Instr | i.WellFormed() witness DEFAULT_INSTR

  /** The two services of the crate the record builder calls: decoding one
      instruction from a byte slice (`Decoder::new(64, code, ..)` followed by
      `decode_out`) and rendering an instruction as text (the formatter's
      output string, as UTF-8 bytes). */
  datatype Iced = Iced(decode: seq<byte> -> IcedInstr, format: IcedInstr -> seq<byte>)

  predicate IsNearBranch(k: OpKind) {
    k.NearBranch16? || k.NearBranch32? || k.NearBranch64?
  }
}
