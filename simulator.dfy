/**
 * The driver: the five-instruction program run on a 1024-word memory behind a
 * 16-line cache, and LRU scenarios on a two-line cache. The driver's loop over
 * the program is written out one instruction at a time, in two halves.
 */
module Simulator {
  import opened Wrappers
  import CacheSpec
  import opened MainMemory
  import opened LruCache
  import opened Processor

  /** The first half of the program: LOAD R0 from address 10, LOAD R1 from address 20. */
  method LoadOperands(cpu: Cpu) returns (outcomes: seq<Outcome<ExecError>>)
    requires cpu.Valid() && cpu.cache.Coherent()
    requires cpu.cache.size >= 1 && cpu.cache.memory.size > 20
    modifies cpu.registers, cpu.cache, cpu.cache.memory.data
    ensures cpu.Valid() && cpu.cache.Coherent()
    ensures outcomes == [Pass, Pass]
    ensures cpu.registers[0] == cpu.cache.memory.data[10]
    ensures cpu.registers[1] == cpu.cache.memory.data[20]
    ensures cpu.cache.memory.data[..] == old(cpu.cache.memory.data[..])
  {
    var first := cpu.Execute(Instruction(Load, 0, 10));
    var second := cpu.Execute(Instruction(Load, 1, 20));
    outcomes := [first, second];
  }

  /** The second half: ADD R0 := R1 + R0, STORE R0 at address 30, NOP. */
  method AddAndStore(cpu: Cpu) returns (outcomes: seq<Outcome<ExecError>>)
    requires cpu.Valid() && cpu.cache.Coherent()
    requires cpu.cache.size >= 2 && cpu.cache.memory.size > 30
    modifies cpu.registers, cpu.cache, cpu.cache.memory.data
    ensures cpu.Valid() && cpu.cache.Coherent()
    ensures outcomes == [Pass, Pass, Pass]
    ensures cpu.registers[0] == old(cpu.registers[1] + cpu.registers[0])
    ensures cpu.registers[1] == old(cpu.registers[1])
    ensures cpu.cache.memory.data[..] == old(cpu.cache.memory.data[..])[30 := cpu.registers[0]]
  {
    var add := cpu.Execute(Instruction(Add, 0, 1));
    var store := cpu.Execute(Instruction(Store, 0, 30));
    var nop := cpu.Execute(Instruction(Nop));
    outcomes := [add, store, nop];
  }

  /**
   * Build the machine: a 1024-word memory, a 16-line cache in front of it and
   * a processor on the cache; then store 5 at address 10 and 10 at address 20.
   */
  method Setup() returns (cpu: Cpu)
    ensures cpu.Valid() && cpu.cache.Coherent()
    ensures fresh(cpu.registers) && fresh(cpu.cache) && fresh(cpu.cache.memory.data)
    ensures cpu.cache.size == 16 && cpu.cache.memory.size == 1024
    ensures cpu.cache.memory.data[10] == 5 && cpu.cache.memory.data[20] == 10
  {
    var memory := new Memory(1024);
    var cache := new Cache(16, memory);
    cpu := new Cpu(cache);
    memory.Write(10, 5);
    memory.Write(20, 10);
    assert cache.State() == CacheSpec.Empty;
  }

  /**
   * Run the program on the machine Setup builds: every instruction succeeds,
   * R0 ends at 15, R1 at 10, and memory word 30 reads 15.
   */
  method RunSimulator() returns (outcomes: seq<Outcome<ExecError>>, r0: int, r1: int, word30: int)
    ensures outcomes == [Pass, Pass, Pass, Pass, Pass]
    ensures r0 == 15 && r1 == 10 && word30 == 15
  {
    var cpu := Setup();
    var loads := LoadOperands(cpu);
    assert cpu.registers[0] == 5 && cpu.registers[1] == 10;
    var rest := AddAndStore(cpu);
    outcomes := loads + rest;
    r0 := cpu.registers[0];
    r1 := cpu.registers[1];
    word30 := cpu.cache.memory.Read(30);
  }

  /** On an empty two-line cache, read 1 and then 2: both miss and fill the two lines in that order. */
  method FillTwoLines(cache: Cache)
    requires cache.Valid() && cache.size == 2 && cache.memory.size == 4
    requires cache.State() == CacheSpec.Empty
    modifies cache
    ensures cache.Valid()
    ensures cache.State() == CacheSpec.CacheState(
      map[1 := cache.memory.data[1], 2 := cache.memory.data[2]], [1, 2])
  {
    ghost var mem := cache.memory.data[..];
    CacheSpec.FillTrace(mem);
    var v := cache.Read(1);
    assert cache.State() == CacheSpec.CacheState(map[1 := mem[1]], [1]);
    v := cache.Read(2);
  }

  /**
   * On a two-line cache, read addresses 1, 2 and 3: address 1 is evicted, so
   * a further read of 1 would miss and one of 2 would hit; 2 is the least
   * recently used line and 3 the most recent.
   */
  method EvictionScenario() returns (cached: set<int>, order: seq<int>, missOnOne: bool, hitOnTwo: bool)
    ensures cached == {2, 3} && order == [2, 3]
    ensures missOnOne && hitOnTwo
  {
    var memory := new Memory(4);
    var cache := new Cache(2, memory);
    ghost var mem := memory.data[..];
    CacheSpec.EvictionTrace(mem);
    FillTwoLines(cache);
    var v := cache.Read(3);
    cached := cache.lines.Keys;
    order := cache.accessOrder;
    missOnOne := 1 !in cache.lines;
    hitOnTwo := 2 in cache.lines;
  }

  /** On a two-line cache holding 1 and 2, read 1 again and then 3: 2 is evicted. */
  method RereadThenEvict(cache: Cache)
    requires cache.Valid() && cache.size == 2 && cache.memory.size == 4
    requires cache.State() == CacheSpec.CacheState(
      map[1 := cache.memory.data[1], 2 := cache.memory.data[2]], [1, 2])
    modifies cache
    ensures cache.State() == CacheSpec.CacheState(
      map[1 := cache.memory.data[1], 3 := cache.memory.data[3]], [1, 3])
  {
    ghost var mem := cache.memory.data[..];
    CacheSpec.RereadTrace(mem);
    CacheSpec.RecencyTrace(mem);
    var v := cache.Read(1);
    v := cache.Read(3);
  }

  /**
   * On a two-line cache, read 1, 2, then 1 again, then 3: the second read of
   * 1 makes 2 the least recently used line, so 3 evicts 2 and not 1.
   */
  method RecencyScenario() returns (cached: set<int>, order: seq<int>)
    ensures cached == {1, 3} && order == [1, 3]
  {
    var memory := new Memory(4);
    var cache := new Cache(2, memory);
    FillTwoLines(cache);
    RereadThenEvict(cache);
    cached := cache.lines.Keys;
    order := cache.accessOrder;
  }
}
