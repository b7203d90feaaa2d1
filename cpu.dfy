/**
 * The processor: eight registers and a single-step `Execute` that dispatches
 * on the opcode. LOAD and STORE go through the cache; ADD and SUB work on
 * registers only; NOP does nothing; any other opcode is an error.
 */
module Processor {
  import opened Wrappers
  import CacheSpec
  import opened MainMemory
  import opened LruCache

  /** The opcodes the processor knows, and `Other` for any other name. */
  datatype Opcode = Load | Store | Add | Sub | Nop | Other(name: string)

  /** An opcode with up to two operands; an operand an opcode does not use is 0. */
  datatype Instruction = Instruction(opcode: Opcode, operand1: int := 0, operand2: int := 0)

  /** Executing an instruction whose opcode is not known. */
  datatype ExecError = UnknownOpcode(name: string)

  /** The number of general-purpose registers. */
  const RegisterCount: nat := 8

  /** The names of the five known opcodes. */
  const Mnemonics: set<string> := {"LOAD", "STORE", "ADD", "SUB", "NOP"}

  /** The name an opcode is written with. */
  function Mnemonic(op: Opcode): string {
    match op
    case Load => "LOAD"
    case Store => "STORE"
    case Add => "ADD"
    case Sub => "SUB"
    case Nop => "NOP"
    case Other(name) => name
  }

  /** The comparisons of the opcode name against the five known names, in order. */
  function Decode(name: string): (op: Opcode)
    ensures Mnemonic(op) == name
    ensures op.Other? <==> name !in Mnemonics
  {
    if name == "LOAD" then Load
    else if name == "STORE" then Store
    else if name == "ADD" then Add
    else if name == "SUB" then Sub
    else if name == "NOP" then Nop
    else Other(name)
  }

  /** Decoding the name of an opcode gives it back, unless it is an `Other` that borrows a known name. */
  lemma DecodeMnemonic(op: Opcode)
    requires op.Other? ==> op.name !in Mnemonics
    ensures Decode(Mnemonic(op)) == op
  {
  }

  /** `r` names one of the registers. */
  predicate IsRegister(r: int) {
    0 <= r < RegisterCount
  }

  class Cpu {
    const cache: Cache
    const registers: array<int>

    /** Eight registers, a valid cache, and registers apart from memory. */
    ghost predicate Valid()
      reads this, cache, cache.memory
    {
      && registers.Length == RegisterCount
      && cache.Valid()
      && registers != cache.memory.data
    }

    constructor (cache: Cache)
      requires cache.Valid()
      ensures Valid() && this.cache == cache
      ensures fresh(registers)
      ensures registers[..] == seq(RegisterCount, _ => 0)
    {
      this.cache := cache;
      registers := new int[RegisterCount](_ => 0);
    }

    /**
     * What `Execute` needs of its instruction: register ids in 0..7, addresses
     * inside memory, a cache able to run the access the opcode makes, and an
     * unknown opcode that is really none of the five names (what Decode yields).
     */
    ghost predicate CanExecute(inst: Instruction)
      reads this, cache, cache.memory
    {
      match inst.opcode
      case Load => IsRegister(inst.operand1) && 0 <= inst.operand2 < cache.memory.size && cache.size >= 1
      case Store =>
        && IsRegister(inst.operand1) && 0 <= inst.operand2 < cache.memory.size
        && CacheSpec.WriteAllowed(cache.State(), cache.size, inst.operand2)
      case Add => IsRegister(inst.operand1) && IsRegister(inst.operand2)
      case Sub => IsRegister(inst.operand1) && IsRegister(inst.operand2)
      case Nop => true
      case Other(name) => name !in Mnemonics
    }

    /** Apply one instruction to the registers and the cache. */
    method Execute(inst: Instruction) returns (outcome: Outcome<ExecError>)
      requires Valid() && CanExecute(inst)
      modifies registers, cache, cache.memory.data
      ensures Valid()
      ensures outcome == if inst.opcode.Other? then Fail(UnknownOpcode(inst.opcode.name)) else Pass
      ensures old(cache.Coherent()) ==> cache.Coherent()
      ensures inst.opcode.Load? ==>
        && CacheSpec.Read(old(cache.State()), cache.size, cache.memory.data[..], inst.operand2)
             == Success(CacheSpec.Access(cache.State(), registers[inst.operand1]))
        && registers[..] == old(registers[..])[inst.operand1 := registers[inst.operand1]]
        && cache.memory.data[..] == old(cache.memory.data[..])
        && (old(cache.Coherent()) ==> registers[inst.operand1] == cache.memory.data[inst.operand2])
      ensures inst.opcode.Store? ==>
        && CacheSpec.Write(old(cache.State()), cache.size, inst.operand2, old(registers[inst.operand1]))
             == Success(cache.State())
        && cache.memory.data[..] == old(cache.memory.data[..])[inst.operand2 := old(registers[inst.operand1])]
        && registers[..] == old(registers[..])
      ensures inst.opcode.Add? ==>
        && registers[..] == old(registers[..])[inst.operand1 := old(registers[inst.operand2] + registers[inst.operand1])]
        && cache.State() == old(cache.State())
        && cache.memory.data[..] == old(cache.memory.data[..])
      ensures inst.opcode.Sub? ==>
        && registers[..] == old(registers[..])[inst.operand1 := old(registers[inst.operand1] - registers[inst.operand2])]
        && cache.State() == old(cache.State())
        && cache.memory.data[..] == old(cache.memory.data[..])
      ensures inst.opcode.Nop? || inst.opcode.Other? ==>
        && registers[..] == old(registers[..])
        && cache.State() == old(cache.State())
        && cache.memory.data[..] == old(cache.memory.data[..])
    {
      outcome := Pass;
      match inst.opcode
      case Load =>
        var value := cache.Read(inst.operand2);
        registers[inst.operand1] := value;
      case Store =>
        cache.Write(inst.operand2, registers[inst.operand1]);
      case Add =>
        registers[inst.operand1] := registers[inst.operand2] + registers[inst.operand1];
      case Sub =>
        registers[inst.operand1] := registers[inst.operand1] - registers[inst.operand2];
      case Nop =>
      case Other(name) =>
        outcome := Fail(UnknownOpcode(name));
    }
  }
}
