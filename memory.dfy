/** Main memory: a flat, fixed-size array of words. */
module MainMemory {

  /** `size` words, all zero when constructed; read and written by address. */
  class Memory {
    const size: nat
    const data: array<int>

    /** The array never changes length. */
    ghost predicate Valid()
      reads this
    {
      data.Length == size
    }

    constructor (size: nat)
      ensures Valid() && this.size == size
      ensures fresh(data)
      ensures data[..] == seq(size, _ => 0)
    {
      this.size := size;
      data := new int[size](_ => 0);
    }

    /** The word at `address`. */
    method Read(address: int) returns (value: int)
      requires Valid() && 0 <= address < size
      ensures value == data[address]
    {
      value := data[address];
    }

    /** Store `value` at `address`; every other word keeps its value. */
    method Write(address: int, value: int)
      requires Valid() && 0 <= address < size
      modifies data
      ensures data[..] == old(data[..])[address := value]
    {
      data[address] := value;
    }
  }
}
