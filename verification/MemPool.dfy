/**
  `MemPool` and `unique_buffer`. A pointer into the pool is the offset of a block in the
  pool's storage; a deleter is either empty or the closure that gives a block back.
 */
module MemPool {
  import opened Wrappers

  datatype Location = Host | Device | Pinned | Managed

  datatype Result<T> = Ok(value: T) | InvalidArgument | OutOfBuffers

  class Pool {
    const blockSize: nat
    const blockCount: nat
    const location: Location
    /** `free_blocks_`, front first. */
    var free: seq<nat>

    /** The pool is carved into equal blocks, all free, in address order. */
    constructor (blockSize: nat, blockCount: nat, location: Location)
      requires blockSize > 0 && blockCount > 0
      ensures this.blockSize == blockSize && this.blockCount == blockCount && this.location == location
      ensures free == Carved(blockSize, blockCount)
    {
      this.blockSize, this.blockCount, this.location := blockSize, blockCount, location;
      var blocks: seq<nat> := [];
      for i := 0 to blockCount
        invariant blocks == Carved(blockSize, i)
      {
        blocks := blocks + [i * blockSize];
      }
      free := blocks;
    }

    /** Construction throws on a zero size or a zero count. */
    static method Make(blockSize: nat, blockCount: nat, location: Location) returns (r: Result<Pool>)
      ensures blockSize == 0 || blockCount == 0 <==> r == InvalidArgument
      ensures r.Ok? <==> blockSize > 0 && blockCount > 0
      ensures r.Ok? ==> fresh(r.value) && r.value.free == Carved(blockSize, blockCount) && r.value.blockSize == blockSize
    {
      if blockSize == 0 || blockCount == 0 {
        return InvalidArgument;
      }
      var pool := new Pool(blockSize, blockCount, location);
      return Ok(pool);
    }

    /** The block freed longest ago leaves the pool, with a deleter that brings it back. */
    method Allocate() returns (r: Result<UniqueBuffer>)
      modifies this
      ensures r.Ok? <==> old(free) != []
      ensures r.Ok? || (r == OutOfBuffers && free == old(free))
      ensures r.Ok? ==>
        && free == old(free)[1..] && fresh(r.value)
        && r.value.Value() == Owning(old(free)[0], blockSize, location, this)
    {
      if free == [] {
        return OutOfBuffers;
      }
      var ptr := free[0];
      free := free[1..];
      var b := new UniqueBuffer(Some(ptr), blockSize, ReturnTo(this), location);
      return Ok(b);
    }

    method ReleaseBlock(p: nat)
      modifies this
      ensures free == old(free) + [p]
    {
      free := free + [p];
    }
  }

  datatype Deleter = NoDeleter | ReturnTo(pool: Pool)

  /** The fields of a buffer: what `unique_buffer` holds and `released_buffer` hands over. */
  datatype Buffer = Buffer(data: Option<nat>, count: nat, location: Location, deleter: Deleter)

  const NOTHING: Buffer := Buffer(None, 0, Host, NoDeleter)

  function Owning(p: nat, size: nat, location: Location, pool: Pool): Buffer {
    Buffer(Some(p), size, location, ReturnTo(pool))
  }

  /** The block offsets, in the order in which the constructor pushes them. */
  function Carved(blockSize: nat, blockCount: nat): (blocks: seq<nat>)
    ensures |blocks| == blockCount
  {
    seq(blockCount, i requires 0 <= i < blockCount => i * blockSize)
  }

  /** What dropping a buffer gives back to a pool: the block, if there is one and a deleter. */
  function GivenBack(b: Buffer): seq<nat> {
    if b.data.Some? && b.deleter.ReturnTo? then [b.data.value] else []
  }

  /** What is left in a buffer after `reset`: without data only the deleter is cleared. */
  function AfterReset(b: Buffer): Buffer {
    if b.data.Some? then NOTHING else b.(deleter := NoDeleter)
  }

  class UniqueBuffer {
    var data: Option<nat>
    var count: nat
    var location: Location
    var deleter: Deleter

    function Value(): Buffer
      reads this
    {
      Buffer(data, count, location, deleter)
    }

    constructor (data: Option<nat>, count: nat, deleter: Deleter, location: Location)
      ensures Value() == Buffer(data, count, location, deleter)
    {
      this.data, this.count, this.deleter, this.location := data, count, deleter, location;
    }

    constructor FromReleased(rb: Buffer)
      ensures Value() == rb
    {
      data, count, location, deleter := rb.data, rb.count, rb.location, rb.deleter;
    }

    /** The deleter, if any, gets the data, if any; nothing else is touched. */
    method Reset()
      modifies this, if deleter.ReturnTo? then {deleter.pool} else {}
      ensures Value() == AfterReset(old(Value())) && data == None && deleter == NoDeleter
      ensures if old(data).Some? then Value() == NOTHING else count == old(count) && location == old(location)
      ensures old(data).Some? && old(deleter).ReturnTo? ==>
        old(deleter).pool.free == old(deleter.pool.free) + [old(data).value]
      ensures old(deleter).ReturnTo? ==> old(deleter).pool.free == old(deleter.pool.free) + GivenBack(old(Value()))
    {
      if data.Some? {
        if deleter.ReturnTo? {
          deleter.pool.ReleaseBlock(data.value);
        }
        data := None;
        count := 0;
        location := Host;
      }
      deleter := NoDeleter;
    }

    /** Ownership goes to the caller, deleter included. */
    method Release() returns (out: Buffer)
      modifies this
      ensures out == old(Value()) && Value() == NOTHING
    {
      out := Buffer(data, count, location, deleter);
      data := None;
      count := 0;
      location := Host;
      deleter := NoDeleter;
    }

    method StealFrom(other: UniqueBuffer)
      requires other != this
      modifies this, other
      ensures Value() == old(other.Value()) && other.Value() == NOTHING
    {
      data := other.data;
      count := other.count;
      location := other.location;
      deleter := other.deleter;
      other.data := None;
      other.count := 0;
      other.location := Host;
      other.deleter := NoDeleter;
    }

    /** Move construction. */
    static method MoveFrom(other: UniqueBuffer) returns (b: UniqueBuffer)
      modifies other
      ensures fresh(b) && b.Value() == old(other.Value()) && other.Value() == NOTHING
    {
      b := new UniqueBuffer(None, 0, NoDeleter, Host);
      b.StealFrom(other);
    }

    /** Move assignment frees what was held, unless it is from itself. */
    method MoveAssign(other: UniqueBuffer)
      modifies this, other, if deleter.ReturnTo? then {deleter.pool} else {}
      ensures other == this ==>
        Value() == old(Value()) && (deleter.ReturnTo? ==> deleter.pool.free == old(deleter.pool.free))
      ensures other != this ==> Value() == old(other.Value()) && other.Value() == NOTHING
      ensures other != this && old(deleter).ReturnTo? ==>
        old(deleter).pool.free == old(deleter.pool.free) + GivenBack(old(Value()))
    {
      if this != other {
        Reset();
        StealFrom(other);
      }
    }

    method Swap(other: UniqueBuffer)
      modifies this, other
      ensures Value() == old(other.Value()) && other.Value() == old(Value())
    {
      data, other.data := other.data, data;
      count, other.count := other.count, count;
      location, other.location := other.location, location;
      deleter, other.deleter := other.deleter, deleter;
    }
  }
}
