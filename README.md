# cpusim: a verified model of a small CPU, LRU cache and memory

This project models the CPU simulator in `cpusim.py` in Dafny. The simulator has three parts:

- **Memory**: a flat array of words. `read` and `write` index it directly.
- **Cache**: a fully associative, write-through cache with least-recently-used eviction, placed in front of memory.
  - Its lines are a dictionary from address to word.
  - Its recency order is a double-ended queue, least recently used first.
  - `read`, `write` and `_add_to_cache` update both in place.
- **CPU**: eight registers and a single-step `execute`.
  - `LOAD` and `STORE` go through the cache.
  - `ADD` and `SUB` work on registers only.
  - `NOP` does nothing.
  - Any other opcode is an error.

The model has two layers.

- **Value layer.** `CacheSpec` holds the cache state as a datatype (`CacheState`: lines plus order). `_add_to_cache`, `read` and `write` are written as functions that return a `Result`. The cache's internal failures become `CacheError` values: `popleft` on an empty deque, `remove` of an absent address, and `del` of a missing key. Lemmas about these functions state the cache invariant, coherence, recency, the eviction rule, definedness, the round trip, and LRU behaviour over whole read sequences.
- **Class layer.** Classes mirror the source's classes.
  - `MainMemory.Memory` has an `array<int>`.
  - `LruCache.Cache` has a `map<int, int>` field, a `seq<int>` order field and a reference to a `Memory`.
  - `Processor.Cpu` has a register `array<int>`.

  Every state-changing method is proved to produce exactly the new state that the matching `CacheSpec` function gives.

`Order` models the deque's `remove` (which deletes the first occurrence) and the sequence facts the cache needs. `Simulator` holds the driver program as a verified scenario, plus two LRU scenarios on a two-line cache.

Behaviour of the code worth noting:

- **Eviction condition.** Insertion evicts when the cache holds `size` lines *or more* (`>=`).
- **Write hit on a full cache.** `write` first removes the address from the order. `_add_to_cache` then still finds the cache full and evicts the new head of the order, which is a different address. The cache shrinks by one line (`CacheSpec.WriteHitOnFullCacheShrinks`).
- **Capacity 1 and 0.** On a cache of capacity 1, this write-hit path calls `popleft` on an empty deque. On capacity 0, every insertion does. `CacheSpec.ReadDefinedness` and `CacheSpec.WriteDefinedness` characterise exactly when the operations fail. The class methods require the complementary conditions: `size >= 1` for a read, and `CacheSpec.WriteAllowed` for a write.
- **Operand order.** `ADD` computes `registers[op2] + registers[op1]`. `SUB` computes `registers[op1] - registers[op2]`.
- **Eviction scenario.** After reads of 1, 2 and 3 on a two-line cache, 1 is no longer cached and 2 is. Reading 1 then would miss and evict 2, so `Simulator.EvictionScenario` states both facts of that one state instead of doing the reads one after the other.

## Model

| member | source | states |
|---|---|---|
| MainMemory.Memory.constructor | cpusim.py:16-18 | memory of `size` words, every word zero |
| MainMemory.Memory.Read | cpusim.py:20-21 | returns the word stored at an in-range address; nothing changes |
| MainMemory.Memory.Write | cpusim.py:23-24 | the word at `address` becomes `value`; every other word keeps its value |
| Order.RemoveFirst | cpusim.py:36-37 | `deque.remove(a)` of a present address: the order loses exactly one occurrence of `a` and keeps every other element (as a multiset); `RemoveFirstCutsFirst` pins down which occurrence |
| Order.RemoveFirstCutsFirst | cpusim.py:36 | `deque.remove(a)` deletes exactly the first occurrence of `a` and keeps everything before and after it |
| Order.RemoveFirstNoDup | cpusim.py:45-46 | on an order without repetitions, removing `a` leaves no repetitions, no `a`, every other address, and one element fewer |
| Order.RemoveFirstSubsequence | cpusim.py:36 | removing `a` keeps the other addresses in their relative order |
| CacheSpec.Insert | cpusim.py:50-55 | `_add_to_cache`: it fails only when the cache holds `size` lines or more; on success `a` holds `v`, is last in the order, and no address other than `a` is added; `InsertLines` gives the eviction rule |
| CacheSpec.Read | cpusim.py:34-42 | `read`: on success `a` is cached and last in the order, and the word returned is its line, the old line on a hit and memory's word on a miss; a hit keeps the lines; `ReadEviction`, `ReadRecency`, `ReadCoherence` and `ReadDefinedness` state the rest |
| CacheSpec.Write | cpusim.py:44-48 | `write` on the cache's side: on success `a` holds `v`, is last in the order, and no address other than `a` is added; `WriteEviction`, `WriteRecency`, `WriteCoherence` and `WriteDefinedness` state the rest |
| CacheSpec.InsertLines | cpusim.py:50-55 | `_add_to_cache` stores `a := v`; another line disappears iff the cache held `size` or more lines and it heads the order; other lines keep their words; the order becomes (tail if full, else all) + [a] |
| CacheSpec.ReadDefinedness | cpusim.py:34-42 | under the invariant, a read succeeds iff the capacity is at least 1; at capacity 0 it fails on `popleft` of an empty deque |
| CacheSpec.WriteDefinedness | cpusim.py:44-55 | under the invariant, a write succeeds iff the capacity is at least 2, or it is 1 and the address is not cached; otherwise it fails on `popleft` of an empty deque |
| CacheSpec.ReadPreservesValid | cpusim.py:34-42 | a read keeps the invariant (keys equal the order's elements, no repeated address, at most `size` lines) and keeps cached addresses inside memory |
| CacheSpec.ReadCoherence | cpusim.py:39-42 | a read of a coherent cache returns the word memory holds and leaves the cache coherent |
| CacheSpec.ReadRecency | cpusim.py:35-41 | after a read, the address is cached and last in the order, and the other addresses that remain keep their relative order |
| CacheSpec.ReadEviction | cpusim.py:34-55 | a read evicts another address iff it misses on a full cache and that address heads the order; surviving lines keep their words; a hit keeps the lines and returns the cached word |
| CacheSpec.ReadTwice | cpusim.py:35-38 | a second read of the same address returns the same word and changes nothing |
| CacheSpec.ReadOfMostRecent | cpusim.py:35-38 | a read of the most recently used address returns its line and leaves the state unchanged |
| CacheSpec.WritePreservesValid | cpusim.py:44-55 | a write that can run keeps the cache invariant and keeps cached addresses inside memory |
| CacheSpec.WriteCoherence | cpusim.py:44-48 | with the word also written to memory, a coherent cache stays coherent and the address's line holds the new word |
| CacheSpec.WriteRecency | cpusim.py:44-55 | after a write, the address is cached with the new word and is last in the order; the other addresses that remain keep their relative order |
| CacheSpec.WriteEviction | cpusim.py:45-53 | a write evicts another address iff the cache was full and that address heads the order once the written address is taken out; surviving lines keep their words |
| CacheSpec.WriteHitOnFullCacheShrinks | cpusim.py:45-53 | a write hit on a full cache of capacity at least 2 evicts an address other than the one written, so the cache ends one line short of full |
| CacheSpec.WriteThenRead | cpusim.py:34-48 | a read right after a write of `v` returns `v` as a hit that changes nothing |
| CacheSpec.ReadMiss | cpusim.py:39-55 | a miss on a coherent cache appends the address after dropping the head when full, and keeps the invariant and coherence |
| CacheSpec.DistinctReadsKeepMostRecent | cpusim.py:39-55 | reading distinct addresses into an empty cache leaves exactly the last `size` of them, in the order read, each holding its memory word |
| CacheSpec.EvictionReads | cpusim.py:51-53 | on a two-line cache, reads of 1, 2, 3 leave lines {2, 3} with order [2, 3] |
| CacheSpec.RecencyReads | cpusim.py:35-55 | on a two-line cache, reads of 1, 2, 1, 3 evict 2 rather than 1 and leave order [1, 3] |
| LruCache.Cache.constructor | cpusim.py:28-32 | a new cache is empty, valid and coherent with its memory |
| LruCache.Cache.Read | cpusim.py:34-42 | the new lines and order, and the returned word, are exactly what `CacheSpec.Read` gives; memory is unchanged; the invariant and coherence are preserved |
| LruCache.Cache.Write | cpusim.py:44-48 | the new lines and order are exactly what `CacheSpec.Write` gives; memory changes at `address` only, to `value`; the invariant and coherence are preserved |
| LruCache.Cache.AddToCache | cpusim.py:50-55 | the new lines and order are exactly what `CacheSpec.Insert` gives |
| Processor.Decode | cpusim.py:64-75 | the opcode name maps to the opcode it spells, and to `Other` exactly when it is none of LOAD, STORE, ADD, SUB, NOP |
| Processor.Cpu.constructor | cpusim.py:59-61 | eight registers, all zero, on the given cache |
| Processor.Cpu.Execute | cpusim.py:63-75 | LOAD sets `registers[op1]` to the cache read of `op2`; STORE writes `registers[op1]` through the cache to `op2` and keeps the registers; ADD sets `r[op1] := r[op2] + r[op1]` and SUB sets `r[op1] := r[op1] - r[op2]`, leaving cache and memory alone; NOP changes nothing; any other opcode fails with `UnknownOpcode` and changes nothing; coherence is preserved |
| Simulator.Setup | cpusim.py:79-94 | builds a 1024-word memory, a 16-line cache and a CPU, with memory[10] = 5 and memory[20] = 10 |
| Simulator.RunSimulator | cpusim.py:84-103 | the five-instruction program succeeds at every step and ends with R0 = 15, R1 = 10 and memory[30] = 15 |
| Simulator.EvictionScenario | cpusim.py:51-53 | on a real two-line cache, reads of 1, 2, 3 leave {2, 3} cached in order [2, 3]; 1 would miss and 2 would hit |
| Simulator.RecencyScenario | cpusim.py:35-55 | on a real two-line cache, re-reading 1 before reading 3 protects 1; 2 is evicted instead |

## Left out

- `Memory.read`/`write`, `CPU.execute`: Python's negative list indices and the `IndexError` on out-of-range addresses or register ids are not modelled. Every access requires `0 <= address < size` and `0 <= register < 8`.
- Word width: words are unbounded `int`, as Python integers are. No fixed-width overflow is modelled.
- `Instruction.__repr__`, the `print` calls in the driver, and the module-level call of `run_simulator` are console output. They are left out.
- `import random` is unused by the code and is left out.
- The driver's `for` loop over the program is written out one instruction at a time in `Simulator.LoadOperands` and `Simulator.AddAndStore`.
- Operands that the source leaves as `None` default to 0 in `Processor.Instruction`, for every opcode. So `Instruction(Load)` loads memory[0] into R0, where the source fails with a `TypeError` on indexing with `None`. Missing operands are not modelled as an error.
- The exception types (`ValueError` for an unknown opcode, `IndexError` from `popleft`) are kept only as error values. For an unknown opcode that is `UnknownOpcode(name)`. For the cache's own failures it is `CacheSpec.CacheError`. The class methods rule these failures out by precondition.
- CacheSpec.Write: a failing write yields only the error, not the state it leaves behind. On a capacity-1 hit, the source has already removed the address from the deque when `popleft` raises, so the address stays in the dictionary but not in the order. A later `read` of it would then fail in `remove`. That broken state and what follows from it are not modelled.
