# Direct-mapped cache simulator, modelled in Dafny

This project models the cache simulator in `hw6.cpp`, a teaching program. It reads a
memory size, a cache size and a trace of addresses. It runs every address through a
direct-mapped cache and says Hit or Miss for each one. At the end it prints a hit/miss
summary.

The model follows the code as written:

- `CacheModel` (`cache_model.dfy`) models everything on values. It has the cache line
  (`CacheEntry`, which starts invalid with tag -1), the cache state (the lines plus the
  `cacheTags` set), and the tag and index arithmetic (`tag = address / blockSize`,
  `index = tag % numCacheEntries`). It also has one access (`Access`), the trace loop
  (`Run`), the integer part of the statistics (`Statistics`) and the size check of
  `main` (`ValidSizes`). The lemmas about these functions are in the same module.
- `CacheSimulator` (`cache_simulator.dfy`) holds the class `Cache`. Its lines live in
  an `array<CacheEntry>` that `AccessMemory` updates in place. Its tag set is a
  `set<int>` field. `IsHit` is a read-only function on the object.
  `PrintStatistics` returns the report rather than printing it. `RunTrace` is the
  `while` loop of `main`. `Simulate` is `main` without its I/O: it checks the sizes,
  builds a cache with block size 1, runs the trace and computes the report. Each
  method is proved against the value functions of `CacheModel`. The object invariant
  `Valid` says that every valid line holds a tag that has been recorded and that maps
  to that line.

The program's statistics are not what its messages suggest. `printStatistics` counts
its "accesses" as the size of `cacheTags`, which is the number of distinct blocks that
ever missed. It then computes hits as that same number minus the size of `cacheTags`.
So the reported hit count is always 0, and the reported access count is the number of
distinct blocks the trace touches. The model keeps this behaviour and proves it
(`Statistics`, `ReportCountsDistinctBlocks`, `ExampleTrace`). The program has no
per-access hit or miss counters. The model does not add any, and it does not add a
policy for an empty trace either.

The size check in `main` (hw6.cpp:82) does not reject a cache size of 0. A cache size
of 0 gives zero lines, and the first access then takes a remainder by zero. The check
also does not reject a negative even cache size that is at most the memory size, and
`std::vector::resize` cannot take that size. `Simulate` returns the errors
`ZeroCacheLines` and `NegativeCacheSize` for these two cases instead of crashing.
`ValidSizesAdmitsEmptyCache` records the first gap.

Integer arithmetic: addresses are `nat`. Dafny's `/` and `%` agree with C++'s on
non-negative operands, and every tag and index computation here has such operands.
For the test `x % 2 != 0` in the size check, C++ and Dafny agree for every integer,
negative ones included. So `ValidSizes` takes plain `int` arguments.

## Model

| member | source | states |
|---|---|---|
| `CacheModel.NumCacheEntries` | hw6.cpp:27 | The number of lines is `cacheSize / blockSize`: the largest n with `n * blockSize <= cacheSize`. |
| `CacheModel.Tag` | hw6.cpp:34 | The tag of an address is the number of its memory block: `t * blockSize <= address < (t + 1) * blockSize`. |
| `CacheModel.Index` | hw6.cpp:35 | With at least one line and a non-negative address, the line index is below `numCacheEntries`, so the line lookup is in bounds. |
| `CacheModel.Initial` | hw6.cpp:26-30 | A new cache has `numCacheEntries` lines, each invalid with tag -1, and an empty tag set; the cache invariant holds. |
| `CacheModel.Access` | hw6.cpp:45-57 | An access hits exactly when the indexed line is valid and holds the address's tag. A hit changes nothing. A miss changes exactly the indexed line, to valid with the new tag, and adds the tag to `cacheTags`; every other line stays the same. Either way the address hits afterwards. |
| `CacheModel.Run` | hw6.cpp:95-98 | Running a trace keeps the number of lines and gives one outcome per address. |
| `CacheModel.Statistics` | hw6.cpp:60-62 | The reported access count is the size of `cacheTags`, and the reported hit count is always 0. |
| `CacheModel.ValidSizes` | hw6.cpp:82 | `main` accepts the sizes exactly when both are even and the cache size is at most the memory size. |
| `CacheModel.ValidSizesAdmitsEmptyCache` | hw6.cpp:82 | The size check accepts cache size 0 for any even memory size, and that size gives zero lines. |
| `CacheModel.ValidSizesPositiveCache` | hw6.cpp:82 | An accepted positive cache size gives at least two lines when the block size is 1. |
| `CacheModel.AccessPreservesInv` | hw6.cpp:49-54 | One access keeps the invariant: each valid line's tag is in `cacheTags`, is non-negative and maps to that line. |
| `CacheModel.ConflictEviction` | hw6.cpp:49-53 | For two addresses with the same index and different tags, the trace a1, a2, a1 ends Miss, Miss. The first access is a Miss unless a1 was already cached. |
| `CacheModel.RepeatHits` | hw6.cpp:49-53 | The same address twice in a row: the second access is a Hit. |
| `CacheModel.RunPreservesInv` | hw6.cpp:95-98 | Running a whole trace keeps the cache invariant. |
| `CacheModel.RunTagsGrowWithMisses` | hw6.cpp:52-54 | Over a trace, `cacheTags` only grows, and it grows by no more than the number of misses. |
| `CacheModel.RunTagsAreBlocks` | hw6.cpp:49-54 | From a coherent state, the tag set after a trace is the old tag set plus exactly the blocks the trace touches. Hits add no new tag because their tag is already recorded. |
| `CacheModel.RunKeepsHolds` | hw6.cpp:45-57 | A cached address stays cached through any trace that never puts a different block on its line. |
| `CacheModel.ReportCountsDistinctBlocks` | hw6.cpp:60-62 | After a trace from a new cache, the report gives the number of distinct blocks touched as the access count and 0 as the hit count. That access count is at most the number of misses. |
| `CacheModel.RunSplit` | hw6.cpp:95-98 | Processing a trace in two consecutive pieces gives the same final state and outcomes as processing it whole. |
| `CacheModel.ExampleFill` | hw6.cpp:45-57 | With block size 1 and four lines, the addresses 0 1 2 3 all miss and fill the four lines. |
| `CacheModel.ExampleEvict` | hw6.cpp:45-57 | Then 0 hits and 4 misses, replacing block 0 in line 0. The tag set then holds five tags. |
| `CacheModel.ExampleTrace` | hw6.cpp:93-105 | The trace 0 1 2 3 0 4 gives Miss Miss Miss Miss Hit Miss, yet the report says 5 accesses and 0 hits. |
| `CacheSimulator.Cache.constructor` | hw6.cpp:26-30 | The constructor makes `cacheSize / blockSize` lines, all invalid with tag -1, and an empty tag set. |
| `CacheSimulator.Cache.IsHit` | hw6.cpp:33-42 | `isHit` only reads the object. It is true exactly when the indexed line is valid with the address's tag, which is exactly when `accessMemory` would report a Hit. |
| `CacheSimulator.Cache.AccessMemory` | hw6.cpp:45-57 | `accessMemory` updates the line array and the tag set in place, as `Access` describes, returns that outcome, and keeps the object invariant. Afterwards `IsHit` holds for the address. |
| `CacheSimulator.Cache.PrintStatistics` | hw6.cpp:60-62 | The report holds the size of `cacheTags` as the access count and 0 as the hit count. |
| `CacheSimulator.RunTrace` | hw6.cpp:95-98 | The loop applies the accesses in trace order. The final state and the outcomes are those of `Run`. |
| `CacheSimulator.Simulate` | hw6.cpp:82-105 | Sizes that fail the check give `InvalidSizes`. An accepted negative cache size gives `NegativeCacheSize`. An accepted cache size of 0 with a non-empty trace gives `ZeroCacheLines`. Otherwise the outcomes are those of `Run` on a new cache with block size 1. The report then counts the distinct blocks of the trace and 0 hits. |

## Left out

- Per-access console output (`<address> Hit` / `<address> Miss`, hw6.cpp:50 and 55): modelled as returned `Outcome` values instead of stream writes.
- The float hit and miss rates, their `setprecision`/`fixed` formatting, and the 0/0 NaN that an empty tag set produces (hw6.cpp:63-68): floating point and formatting. Only the integer counts are modelled.
- Reading the trace file with stream extraction, opening and closing files, the argument-count check, `std::stoi` parsing (hw6.cpp:73-80, 87-91, 100): I/O and library glue. The trace is a `seq<nat>` parameter.
- Redirecting `cout` into `hitmiss-out.txt` (hw6.cpp:102-108): global output state. `Simulate` returns the report instead.
- The `memSize` and `numMemBlocks` members of `Cache` (hw6.cpp:18, 21, 28): computed but never used by the lookup, so the class does not store them.
- 32-bit `int` overflow and negative addresses in the trace: addresses are unbounded `nat`s. A negative address would give a negative C++ index and an out-of-bounds access, which is not modelled.
- `std::unordered_set<int>` is modelled as a `set<int>`; its hashing and iteration order play no part in the program.
