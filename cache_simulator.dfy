/** The Cache class of hw6.cpp with its lines in an array updated in place, and the
    part of main that checks the sizes, builds the cache and feeds it the trace. */
module CacheSimulator {
  import opened CacheModel

  /** Why main stops without producing a report. */
  datatype Error =
    | InvalidSizes       // the size check of main rejects the arguments
    | NegativeCacheSize  // the check passes a negative cache size, which the line vector cannot take
    | ZeroCacheLines     // an accepted cache size of 0 leaves no line to index: remainder by zero

  datatype Result<T> = Ok(value: T) | Err(error: Error)

  /** What a run produces: the Hit/Miss of every access, then the report. */
  datatype Summary = Summary(outcomes: seq<Outcome>, report: Report)

  class Cache {
    const cacheSize: nat
    const blockSize: nat
    const numCacheEntries: nat
    const cache: array<CacheEntry>
    var cacheTags: set<int>

    /** The abstract state: the lines and the tag set. */
    ghost function State(): CacheModel.State
      reads this, cache
    {
      CacheModel.State(cache[..], cacheTags)
    }

    /** The object invariant: the line count is fixed by the sizes, and every valid
        line holds a tracked tag that maps to it. */
    ghost predicate Valid()
      reads this, cache
    {
      && blockSize >= 1
      && numCacheEntries == NumCacheEntries(cacheSize, blockSize)
      && cache.Length == numCacheEntries
      && Inv(State())
    }

    constructor (cacheSize: nat, blockSize: nat)
      requires blockSize >= 1
      ensures Valid() && fresh(cache)
      ensures this.cacheSize == cacheSize && this.blockSize == blockSize
      ensures numCacheEntries == cacheSize / blockSize
      ensures State() == Initial(numCacheEntries)
    {
      this.cacheSize := cacheSize;
      this.blockSize := blockSize;
      numCacheEntries := cacheSize / blockSize;
      cache := new CacheEntry[cacheSize / blockSize](_ => EmptyEntry);
      cacheTags := {};
    }

    /** isHit: whether the line the address maps to holds its block, which is exactly
        when accessMemory would report a hit. */
    function IsHit(address: nat): (hit: bool)
      reads this, cache
      requires Valid() && numCacheEntries >= 1
      ensures hit <==> Holds(cache[..], blockSize, address)
      ensures hit <==> Access(State(), blockSize, address).1 == Hit
    {
      var tag := address / blockSize;
      var index := tag % numCacheEntries;
      cache[index].valid && cache[index].tag == tag
    }

    /** accessMemory: on a hit nothing changes; on a miss the indexed line is
        overwritten with the new tag and the tag is recorded. */
    method AccessMemory(address: nat) returns (outcome: Outcome)
      requires Valid() && numCacheEntries >= 1
      modifies this`cacheTags, cache
      ensures Valid()
      ensures State() == Access(old(State()), blockSize, address).0
      ensures outcome == Access(old(State()), blockSize, address).1
      ensures IsHit(address)
    {
      var tag := address / blockSize;
      var index := tag % numCacheEntries;
      if cache[index].valid && cache[index].tag == tag {
        outcome := Hit;
      } else {
        cache[index] := cache[index].(valid := true);
        cache[index] := cache[index].(tag := tag);
        cacheTags := cacheTags + {tag};
        outcome := Miss;
      }
      AccessPreservesInv(old(State()), blockSize, address);
    }

    /** printStatistics, integer part, returned instead of printed. */
    method PrintStatistics() returns (report: Report)
      ensures report == Statistics(cacheTags)
      ensures report.totalHits == 0
    {
      var totalAccesses := |cacheTags|;
      var totalHits := totalAccesses - |cacheTags|;
      report := Report(totalAccesses, totalHits);
    }
  }

  /** The while loop of main: every address of the trace, in order. */
  method RunTrace(c: Cache, trace: seq<nat>) returns (outcomes: seq<Outcome>)
    requires c.Valid() && (trace != [] ==> c.numCacheEntries >= 1)
    modifies c`cacheTags, c.cache
    ensures c.Valid()
    ensures c.State() == Run(old(c.State()), c.blockSize, trace).0
    ensures outcomes == Run(old(c.State()), c.blockSize, trace).1
  {
    outcomes := [];
    var i := 0;
    while i < |trace|
      invariant 0 <= i <= |trace|
      invariant c.Valid()
      invariant Run(old(c.State()), c.blockSize, trace).0 == Run(c.State(), c.blockSize, trace[i..]).0
      invariant Run(old(c.State()), c.blockSize, trace).1 == outcomes + Run(c.State(), c.blockSize, trace[i..]).1
    {
      assert trace[i..][1..] == trace[i + 1..];
      var o := c.AccessMemory(trace[i]);
      outcomes := outcomes + [o];
      i := i + 1;
    }
  }

  /** main without its I/O: check the sizes, build a cache with block size 1, run
      the trace and compute the report. */
  method Simulate(memSize: int, cacheSize: int, trace: seq<nat>) returns (r: Result<Summary>)
    ensures r == Err(InvalidSizes) <==> !ValidSizes(memSize, cacheSize)
    ensures r == Err(NegativeCacheSize) <==> ValidSizes(memSize, cacheSize) && cacheSize < 0
    ensures r == Err(ZeroCacheLines) <==> ValidSizes(memSize, cacheSize) && cacheSize == 0 && trace != []
    ensures r.Ok? ==>
      && cacheSize >= 0 && (trace != [] ==> cacheSize >= 1)
      && var run := Run(Initial(cacheSize), 1, trace);
      && r.value.outcomes == run.1
      && r.value.report == Statistics(run.0.tags)
    ensures r.Ok? ==> r.value.report == Report(|Blocks(trace, 1)|, 0)
  {
    if memSize % 2 != 0 || cacheSize % 2 != 0 || cacheSize > memSize {
      return Err(InvalidSizes);
    }
    if cacheSize < 0 {
      return Err(NegativeCacheSize);
    }
    var cache := new Cache(cacheSize, 1);
    if cache.numCacheEntries == 0 && trace != [] {
      return Err(ZeroCacheLines);
    }
    var outcomes := RunTrace(cache, trace);
    var report := cache.PrintStatistics();
    ReportCountsDistinctBlocks(cacheSize, 1, trace);
    return Ok(Summary(outcomes, report));
  }
}
