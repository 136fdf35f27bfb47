/** Value-level model of the direct-mapped cache in hw6.cpp: the lines, the set of
    tags seen on misses, the tag/index arithmetic, one access, a whole trace, and the
    integer part of the statistics report. The class in CacheSimulator is proved
    against these functions. */
module CacheModel {

  /** One cache line (struct CacheEntry). */
  datatype CacheEntry = CacheEntry(valid: bool, tag: int)

  /** The line a default-constructed CacheEntry holds: invalid, tag -1. */
  const EmptyEntry := CacheEntry(false, -1)

  /** What one access reports (the "Hit" / "Miss" the source writes per address). */
  datatype Outcome = Hit | Miss

  /** The state a Cache object updates: its lines and its cacheTags set.
      The number of lines, numCacheEntries, is |lines|. */
  datatype State = State(lines: seq<CacheEntry>, tags: set<int>)

  /** The integer part of printStatistics. */
  datatype Report = Report(totalAccesses: nat, totalHits: int)

  /** numCacheEntries = cacheSize / blockSize. */
  function NumCacheEntries(cacheSize: nat, blockSize: nat): (n: nat)
    requires blockSize >= 1
    ensures n * blockSize <= cacheSize < n * blockSize + blockSize
  {
    cacheSize / blockSize
  }

  /** tag = address / blockSize: the number of the memory block holding the address. */
  function Tag(address: nat, blockSize: nat): (t: nat)
    requires blockSize >= 1
    ensures t * blockSize <= address < t * blockSize + blockSize
  {
    address / blockSize
  }

  /** index = tag % numCacheEntries: the only line the block may occupy. */
  function Index(address: nat, blockSize: nat, numCacheEntries: nat): (i: nat)
    requires blockSize >= 1 && numCacheEntries >= 1
    ensures i < numCacheEntries
  {
    Tag(address, blockSize) % numCacheEntries
  }

  /** The hit test: the line the address maps to is valid and holds the address's tag. */
  predicate Holds(lines: seq<CacheEntry>, blockSize: nat, address: nat)
    requires blockSize >= 1 && |lines| >= 1
  {
    var i := Index(address, blockSize, |lines|);
    lines[i].valid && lines[i].tag == Tag(address, blockSize)
  }

  /** A freshly constructed cache with n lines. */
  function Initial(n: nat): (s: State)
    ensures |s.lines| == n && s.tags == {}
    ensures forall i :: 0 <= i < n ==> !s.lines[i].valid && s.lines[i].tag == -1
    ensures Inv(s)
  {
    State(seq(n, _ => EmptyEntry), {})
  }

  /** Every valid line's tag has been recorded in the tag set. */
  ghost predicate TagsTracked(s: State) {
    forall i :: 0 <= i < |s.lines| && s.lines[i].valid ==> s.lines[i].tag in s.tags
  }

  /** Every valid line holds a block that maps to that very line. */
  ghost predicate LinesPlaced(s: State) {
    forall i :: 0 <= i < |s.lines| && s.lines[i].valid ==>
      s.lines[i].tag >= 0 && s.lines[i].tag % |s.lines| == i
  }

  ghost predicate Inv(s: State) {
    TagsTracked(s) && LinesPlaced(s)
  }

  /** accessMemory: a hit changes nothing; a miss overwrites the one indexed line
      with the new tag and records the tag. */
  function Access(s: State, blockSize: nat, address: nat): (r: (State, Outcome))
    requires blockSize >= 1 && |s.lines| >= 1
    ensures |r.0.lines| == |s.lines|
    ensures r.1 == Hit <==> Holds(s.lines, blockSize, address)
    ensures r.1 == Hit ==> r.0 == s
    ensures r.1 == Miss ==>
      var i := Index(address, blockSize, |s.lines|);
      && r.0.lines[i] != s.lines[i]
      && r.0.lines[i] == CacheEntry(true, Tag(address, blockSize))
      && (forall j :: 0 <= j < |s.lines| && j != i ==> r.0.lines[j] == s.lines[j])
      && r.0.tags == s.tags + {Tag(address, blockSize)}
    ensures Holds(r.0.lines, blockSize, address)
  {
    var tag := Tag(address, blockSize);
    var index := Index(address, blockSize, |s.lines|);
    if s.lines[index].valid && s.lines[index].tag == tag then
      (s, Hit)
    else
      (State(s.lines[index := CacheEntry(true, tag)], s.tags + {tag}), Miss)
  }

  /** The trace loop of main: accesses in trace order, with the outcome of each. */
  function Run(s: State, blockSize: nat, trace: seq<nat>): (r: (State, seq<Outcome>))
    requires blockSize >= 1 && (trace != [] ==> |s.lines| >= 1)
    ensures |r.0.lines| == |s.lines| && |r.1| == |trace|
    decreases |trace|
  {
    if trace == [] then
      (s, [])
    else
      var step := Access(s, blockSize, trace[0]);
      var rest := Run(step.0, blockSize, trace[1..]);
      (rest.0, [step.1] + rest.1)
  }

  /** Number of misses among the outcomes. */
  function Misses(os: seq<Outcome>): (n: nat)
    ensures n <= |os|
  {
    if os == [] then 0 else (if os[0] == Miss then 1 else 0) + Misses(os[1..])
  }

  /** The distinct blocks an address trace touches. */
  function Blocks(trace: seq<nat>, blockSize: nat): set<int>
    requires blockSize >= 1
  {
    set a | a in trace :: Tag(a, blockSize)
  }

  /** printStatistics, integer part: totalAccesses is the size of the tag set and
      totalHits subtracts that same size from it again. */
  function Statistics(tags: set<int>): (r: Report)
    ensures r.totalAccesses == |tags|
    ensures r.totalHits == 0
  {
    var totalAccesses := |tags|;
    var totalHits := totalAccesses - |tags|;
    Report(totalAccesses, totalHits)
  }

  /** The argument check of main, written as the rejection test it negates. A C++
      remainder by 2 is non-zero exactly when Dafny's is, negative operands included. */
  function ValidSizes(memSize: int, cacheSize: int): (ok: bool)
    ensures ok <==> memSize % 2 == 0 && cacheSize % 2 == 0 && cacheSize <= memSize
  {
    !(memSize % 2 != 0 || cacheSize % 2 != 0 || cacheSize > memSize)
  }

  // ---------------------------------------------------------------------------
  // Lemmas

  /** The line-82 check admits an empty cache, which leaves zero lines. */
  lemma ValidSizesAdmitsEmptyCache(memSize: nat)
    requires memSize % 2 == 0
    ensures ValidSizes(memSize, 0)
    ensures NumCacheEntries(0, 1) == 0
  {
  }

  /** Any accepted positive cache size gives at least two lines with block size 1. */
  lemma ValidSizesPositiveCache(memSize: int, cacheSize: int)
    requires ValidSizes(memSize, cacheSize) && cacheSize > 0
    ensures NumCacheEntries(cacheSize, 1) >= 2 && memSize >= 2
  {
  }

  lemma AccessPreservesInv(s: State, blockSize: nat, address: nat)
    requires blockSize >= 1 && |s.lines| >= 1
    requires Inv(s)
    ensures Inv(Access(s, blockSize, address).0)
  {
  }

  /** An address that misses no longer hits once another block takes its line:
      a1, a2, a1 with the same index and different tags ends Miss, Miss. */
  lemma ConflictEviction(s: State, blockSize: nat, a1: nat, a2: nat)
    requires blockSize >= 1 && |s.lines| >= 1
    requires Index(a1, blockSize, |s.lines|) == Index(a2, blockSize, |s.lines|)
    requires Tag(a1, blockSize) != Tag(a2, blockSize)
    ensures Run(s, blockSize, [a1, a2, a1]).1 ==
      [if Holds(s.lines, blockSize, a1) then Hit else Miss, Miss, Miss]
  {
    var (s1, o1) := Access(s, blockSize, a1);
    var (s2, o2) := Access(s1, blockSize, a2);
    var (s3, o3) := Access(s2, blockSize, a1);
    assert o2 == Miss && o3 == Miss;
    assert [a1][1..] == [];
    assert Run(s2, blockSize, [a1]).1 == [o3];
    assert [a2, a1][1..] == [a1];
    assert Run(s1, blockSize, [a2, a1]).1 == [o2, o3];
    assert [a1, a2, a1][1..] == [a2, a1];
  }

  /** The same address twice in a row: the second access hits. */
  lemma RepeatHits(s: State, blockSize: nat, a: nat)
    requires blockSize >= 1 && |s.lines| >= 1
    ensures Run(s, blockSize, [a, a]).1 ==
      [if Holds(s.lines, blockSize, a) then Hit else Miss, Hit]
  {
    assert [a, a][1..] == [a];
    assert [a][1..] == [];
  }

  lemma {:induction false} RunPreservesInv(s: State, blockSize: nat, trace: seq<nat>)
    requires blockSize >= 1 && (trace != [] ==> |s.lines| >= 1)
    requires Inv(s)
    ensures Inv(Run(s, blockSize, trace).0)
    decreases |trace|
  {
    if trace != [] {
      AccessPreservesInv(s, blockSize, trace[0]);
      RunPreservesInv(Access(s, blockSize, trace[0]).0, blockSize, trace[1..]);
    }
  }

  /** cacheTags only grows, and by at most one tag per miss. */
  lemma {:induction false} RunTagsGrowWithMisses(s: State, blockSize: nat, trace: seq<nat>)
    requires blockSize >= 1 && (trace != [] ==> |s.lines| >= 1)
    ensures var r := Run(s, blockSize, trace);
      s.tags <= r.0.tags && |r.0.tags| <= |s.tags| + Misses(r.1)
    decreases |trace|
  {
    if trace != [] {
      var (s1, o) := Access(s, blockSize, trace[0]);
      var (s2, os) := Run(s1, blockSize, trace[1..]);
      RunTagsGrowWithMisses(s1, blockSize, trace[1..]);
      assert ([o] + os)[1..] == os;
      if o == Miss {
        var t := Tag(trace[0], blockSize);
        assert s1.tags == s.tags + {t};
        assert |s.tags + {t}| <= |s.tags| + 1 by {
          if t in s.tags {
            assert s.tags + {t} == s.tags;
          }
        }
      }
    }
  }

  lemma BlocksCons(trace: seq<nat>, blockSize: nat)
    requires blockSize >= 1 && trace != []
    ensures Blocks(trace, blockSize) == {Tag(trace[0], blockSize)} + Blocks(trace[1..], blockSize)
  {
    assert forall a :: a in trace <==> a == trace[0] || a in trace[1..];
  }

  /** From a coherent state, the tags recorded after a trace are the old tags plus
      exactly the blocks the trace touches, whether each access hit or missed. */
  lemma {:induction false} RunTagsAreBlocks(s: State, blockSize: nat, trace: seq<nat>)
    requires blockSize >= 1 && (trace != [] ==> |s.lines| >= 1)
    requires Inv(s)
    ensures Run(s, blockSize, trace).0.tags == s.tags + Blocks(trace, blockSize)
    decreases |trace|
  {
    if trace == [] {
      assert Blocks(trace, blockSize) == {};
    } else {
      var a := trace[0];
      var s1 := Access(s, blockSize, a).0;
      assert s1.tags == s.tags + {Tag(a, blockSize)} by {
        if Holds(s.lines, blockSize, a) {
          assert s.lines[Index(a, blockSize, |s.lines|)].tag in s.tags;
        }
      }
      AccessPreservesInv(s, blockSize, a);
      RunTagsAreBlocks(s1, blockSize, trace[1..]);
      BlocksCons(trace, blockSize);
    }
  }

  /** A line that holds an address's block keeps it through any trace that touches
      that line only with the same block. */
  lemma {:induction false} RunKeepsHolds(s: State, blockSize: nat, trace: seq<nat>, a: nat)
    requires blockSize >= 1 && |s.lines| >= 1
    requires Holds(s.lines, blockSize, a)
    requires forall b :: b in trace ==>
      Index(b, blockSize, |s.lines|) != Index(a, blockSize, |s.lines|) ||
      Tag(b, blockSize) == Tag(a, blockSize)
    ensures Holds(Run(s, blockSize, trace).0.lines, blockSize, a)
    decreases |trace|
  {
    if trace != [] {
      var s1 := Access(s, blockSize, trace[0]).0;
      assert trace[0] in trace;
      assert forall b :: b in trace[1..] ==> b in trace;
      RunKeepsHolds(s1, blockSize, trace[1..], a);
    }
  }

  /** After a trace from an empty cache, the report counts the distinct blocks
      touched as accesses, and hits as zero. */
  lemma ReportCountsDistinctBlocks(n: nat, blockSize: nat, trace: seq<nat>)
    requires blockSize >= 1 && (trace != [] ==> n >= 1)
    ensures var r := Run(Initial(n), blockSize, trace);
      Statistics(r.0.tags) == Report(|Blocks(trace, blockSize)|, 0)
      && |Blocks(trace, blockSize)| <= Misses(r.1)
  {
    RunTagsAreBlocks(Initial(n), blockSize, trace);
    RunTagsGrowWithMisses(Initial(n), blockSize, trace);
  }

  /** Running a trace in two pieces is running it whole: the state after the first
      piece is where the second starts, and the outcomes concatenate. */
  lemma {:induction false} RunSplit(s: State, blockSize: nat, t1: seq<nat>, t2: seq<nat>)
    requires blockSize >= 1 && (t1 + t2 != [] ==> |s.lines| >= 1)
    ensures var r1 := Run(s, blockSize, t1);
      var r2 := Run(r1.0, blockSize, t2);
      Run(s, blockSize, t1 + t2).0 == r2.0 && Run(s, blockSize, t1 + t2).1 == r1.1 + r2.1
    decreases |t1|
  {
    if t1 == [] {
      assert t1 + t2 == t2;
    } else {
      var s1 := Access(s, blockSize, t1[0]).0;
      assert (t1 + t2)[0] == t1[0];
      assert (t1 + t2)[1..] == t1[1..] + t2;
      RunSplit(s1, blockSize, t1[1..], t2);
    }
  }

  /** The lines of the worked example once blocks 0 to 3 are loaded. */
  const FullLines := [CacheEntry(true, 0), CacheEntry(true, 1), CacheEntry(true, 2), CacheEntry(true, 3)]

  lemma ExampleFill()
    ensures var r := Run(Initial(4), 1, [0, 1, 2, 3]);
      r.0 == State(FullLines, {0, 1, 2, 3}) && r.1 == [Miss, Miss, Miss, Miss]
  {
    var s0 := Initial(4);
    var (s1, o1) := Access(s0, 1, 0);
    var (s2, o2) := Access(s1, 1, 1);
    var (s3, o3) := Access(s2, 1, 2);
    var (s4, o4) := Access(s3, 1, 3);
    assert o1 == Miss && o2 == Miss && o3 == Miss && o4 == Miss;
    assert s4.lines == FullLines;
    assert s4.tags == {0, 1, 2, 3};
    assert [3][1..] == [];
    assert Run(s3, 1, [3]).0 == s4 && Run(s3, 1, [3]).1 == [o4];
    assert [2, 3][1..] == [3];
    assert Run(s2, 1, [2, 3]).0 == s4 && Run(s2, 1, [2, 3]).1 == [o3, o4];
    assert [1, 2, 3][1..] == [2, 3];
    assert Run(s1, 1, [1, 2, 3]).0 == s4 && Run(s1, 1, [1, 2, 3]).1 == [o2, o3, o4];
    assert [0, 1, 2, 3][1..] == [1, 2, 3];
  }

  lemma ExampleEvict()
    ensures var r := Run(State(FullLines, {0, 1, 2, 3}), 1, [0, 4]);
      r.0 == State(FullLines[0 := CacheEntry(true, 4)], {0, 1, 2, 3, 4}) && r.1 == [Hit, Miss]
      && |r.0.tags| == 5
  {
    var s4 := State(FullLines, {0, 1, 2, 3});
    var (s5, o5) := Access(s4, 1, 0);
    var (s6, o6) := Access(s5, 1, 4);
    assert o5 == Hit && o6 == Miss;
    assert s6.tags == {0, 1, 2, 3, 4};
    assert |s6.tags| == 5;
    assert [4][1..] == [];
    assert Run(s5, 1, [4]).0 == s6 && Run(s5, 1, [4]).1 == [o6];
    assert [0, 4][1..] == [4];
  }

  /** The worked example: block size 1, four lines, trace 0 1 2 3 0 4. The accesses
      are Miss Miss Miss Miss Hit Miss, yet the report gives 5 accesses and 0 hits. */
  lemma ExampleTrace(trace: seq<nat>)
    requires trace == [0, 1, 2, 3, 0, 4]
    ensures Run(Initial(4), 1, trace).1 == [Miss, Miss, Miss, Miss, Hit, Miss]
    ensures Statistics(Run(Initial(4), 1, trace).0.tags) == Report(5, 0)
  {
    var t1: seq<nat>, t2: seq<nat> := [0, 1, 2, 3], [0, 4];
    assert t1 + t2 == trace;
    var s0 := Initial(4);
    ExampleFill();
    var full := Run(s0, 1, t1);
    ExampleEvict();
    var last := Run(full.0, 1, t2);
    RunSplit(s0, 1, t1, t2);
    var whole := Run(s0, 1, trace);
    assert whole.0 == last.0 && |last.0.tags| == 5;
    assert whole.1 == full.1 + last.1;
    assert full.1 + last.1 == [Miss, Miss, Miss, Miss] + [Hit, Miss];
    assert [Miss, Miss, Miss, Miss] + [Hit, Miss] == [Miss, Miss, Miss, Miss, Hit, Miss];
  }
}
