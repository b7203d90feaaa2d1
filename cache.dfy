/**
 * The fully associative, write-through LRU cache in front of main memory.
 * Its lines form a map from address to word and its recency order a sequence
 * of addresses, least recently used first; both are fields that the methods
 * update in place. Each method is proved to do what the corresponding
 * function of CacheSpec does to the pair.
 */
module LruCache {
  import opened Wrappers
  import opened Order
  import CacheSpec
  import opened MainMemory

  class Cache {
    /** The capacity: the number of lines the cache may hold. */
    const size: nat
    const memory: Memory
    var lines: map<int, int>
    var accessOrder: seq<int>

    /** The cache as a value. */
    ghost function State(): CacheSpec.CacheState
      reads this
    {
      CacheSpec.CacheState(lines, accessOrder)
    }

    /** The cache invariant, with every cached address inside memory. */
    ghost predicate Valid()
      reads this, memory
    {
      && memory.Valid()
      && CacheSpec.Valid(State(), size)
      && CacheSpec.Bounded(State(), memory.size)
    }

    /** Every line holds what memory holds at its address. */
    ghost predicate Coherent()
      reads this, memory, memory.data
    {
      CacheSpec.Coherent(State(), memory.data[..])
    }

    constructor (size: nat, memory: Memory)
      requires memory.Valid()
      ensures Valid() && Coherent()
      ensures this.size == size && this.memory == memory
      ensures State() == CacheSpec.Empty
    {
      this.size := size;
      this.memory := memory;
      lines := map[];
      accessOrder := [];
    }

    /**
     * Read the word at `address`: a hit returns the line and moves the address
     * to the most recently used end; a miss fetches the word from memory and
     * inserts it. Memory is not changed.
     */
    method Read(address: int) returns (value: int)
      requires Valid() && 0 <= address < memory.size && size >= 1
      modifies this
      ensures Valid()
      ensures memory.data[..] == old(memory.data[..])
      ensures CacheSpec.Read(old(State()), size, memory.data[..], address)
        == Success(CacheSpec.Access(State(), value))
      ensures old(Coherent()) ==> Coherent() && value == memory.data[address]
    {
      ghost var st := State();
      ghost var mem := memory.data[..];
      CacheSpec.ReadPreservesValid(st, size, mem, address);
      if address in lines {
        CacheSpec.HitStep(st, size, address);
        accessOrder := RemoveFirst(accessOrder, address);
        accessOrder := accessOrder + [address];
        value := lines[address];
      } else {
        value := memory.Read(address);
        AddToCache(address, value);
      }
      if CacheSpec.Coherent(st, mem) {
        CacheSpec.ReadCoherence(st, size, mem, address);
      }
    }

    /**
     * Write `value` to `address`: update or insert its line as the most
     * recently used, then write the word through to memory.
     */
    method Write(address: int, value: int)
      requires Valid() && 0 <= address < memory.size
      requires CacheSpec.WriteAllowed(State(), size, address)
      modifies this, memory.data
      ensures Valid()
      ensures CacheSpec.Write(old(State()), size, address, value) == Success(State())
      ensures memory.data[..] == old(memory.data[..])[address := value]
      ensures old(Coherent()) ==> Coherent()
    {
      ghost var st := State();
      ghost var mem := memory.data[..];
      CacheSpec.WritePreservesValid(st, size, address, value, memory.size);
      if address in lines {
        CacheSpec.UnlinkStep(st, size, address);
        accessOrder := RemoveFirst(accessOrder, address);
      }
      AddToCache(address, value);
      memory.Write(address, value);
      if CacheSpec.Coherent(st, mem) {
        CacheSpec.WriteCoherence(st, size, mem, address, value);
      }
    }

    /**
     * `_add_to_cache`: evict the least recently used line when the cache holds
     * `size` lines or more, then store the line as the most recently used.
     */
    method AddToCache(address: int, value: int)
      requires CacheSpec.Insert(State(), size, address, value).Success?
      modifies this
      ensures State() == CacheSpec.Insert(old(State()), size, address, value).value
    {
      if |lines| >= size {
        var victim := accessOrder[0];
        accessOrder := accessOrder[1..];
        lines := lines - {victim};
      }
      lines := lines[address := value];
      accessOrder := accessOrder + [address];
    }
  }
}
