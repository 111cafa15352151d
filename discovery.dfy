/** Sensor discovery (`PowerEstimator._device_scan`, p_est.py:33-62) as
    functions of the set of paths that exist and of the folder names found
    under the topology-B base directory. */
module Discovery {
  import opened Seqs
  import opened SysfsPaths

  /** Number of current/voltage pairs probed on topology A: `range(3)`. */
  const PairCount: nat := 3
  /** Number of power files probed per folder on topology B: `range(5)`. */
  const PowerFileCount: nat := 5
  /** Alias indices `iio:device1` .. `iio:device4` are `range(1, 5)`. */
  const AliasEnd: nat := 5

  /** The channel set a session works with: which layout, and its file lists
      in discovery order: current (`curr`) and voltage (`volt`) files of the
      pairs on topology A, power files (`devices`) on topology B. */
  datatype Channels = Channels(isOrin: bool, curr: seq<string>, volt: seq<string>, devices: seq<string>)

  function MapSeq<A, B>(f: A -> B, s: seq<A>): (r: seq<B>)
    ensures |r| == |s|
    ensures forall k :: 0 <= k < |s| ==> r[k] == f(s[k])
  {
    seq(|s|, k requires 0 <= k < |s| => f(s[k]))
  }

  /** For `f` injective on `s` at `x`, `f(x)` is an image iff `x` is in `s`. */
  lemma MapSeqMember<A, B>(f: A -> B, s: seq<A>, x: A)
    requires forall a :: a in s ==> f(a) == f(x) ==> a == x
    ensures f(x) in MapSeq(f, s) <==> x in s
  {
    var r := MapSeq(f, s);
    if f(x) in r {
      var k :| 0 <= k < |r| && r[k] == f(x);
      assert s[k] in s;
    }
    if x in s {
      var k :| 0 <= k < |s| && s[k] == x;
      assert r[k] == f(x);
    }
  }

  lemma MapSeqSnoc<A, B>(f: A -> B, s: seq<A>, x: A)
    ensures MapSeq(f, s + [x]) == MapSeq(f, s) + [f(x)]
  {
    var l, r := MapSeq(f, s + [x]), MapSeq(f, s) + [f(x)];
    assert |l| == |r|;
    forall k | 0 <= k < |l| ensures l[k] == r[k] {
      if k < |s| { assert (s + [x])[k] == s[k]; }
    }
  }

  // ---------------------------------------------------------------- topology A

  /** Both files of pair `j` exist, the test of p_est.py:42. */
  predicate Paired(existing: set<string>, j: nat) {
    CurrPath(j) in existing && InPath(j) in existing
  }

  /** The indices below `n` that satisfy `p`, in increasing order. */
  function IndicesBelow(p: nat -> bool, n: nat): seq<nat>
    decreases n
  {
    if n == 0 then []
    else IndicesBelow(p, n - 1) + (if p(n - 1) then [n - 1] else [])
  }

  /** `Paired` as a function value. */
  function PairTest(existing: set<string>): nat -> bool {
    (j: nat) => Paired(existing, j)
  }

  /** The pair indices below `n` that get registered, in probing order. */
  function PairedIndices(existing: set<string>, n: nat): seq<nat> {
    IndicesBelow(PairTest(existing), n)
  }

  /** Probing pair `n` registers it exactly when both of its files exist. */
  lemma PairedIndicesStep(existing: set<string>, n: nat)
    ensures PairedIndices(existing, n + 1) ==
      PairedIndices(existing, n) + (if Paired(existing, n) then [n] else [])
  {
    assert PairTest(existing)(n) == Paired(existing, n);
  }

  /** Probing pair `j` appends `f(j)` to a list of `f`-images of the
      registered indices exactly when both of its files exist. */
  lemma PairsStep(existing: set<string>, f: nat -> string, j: nat, d0: seq<string>, d: seq<string>, d1: seq<string>)
    requires d == d0 + MapSeq(f, PairedIndices(existing, j))
    requires d1 == d + (if Paired(existing, j) then [f(j)] else [])
    ensures d1 == d0 + MapSeq(f, PairedIndices(existing, j + 1))
  {
    var idx := PairedIndices(existing, j);
    PairedIndicesStep(existing, j);
    if Paired(existing, j) {
      MapSeqSnoc(f, idx, j);
      AppendAssoc(d0, MapSeq(f, idx), [f(j)]);
    } else {
      AppendEmpty(d);
    }
  }

  // ---------------------------------------------------------------- topology B

  /** What the `if`/`elif` of p_est.py:53-58 adds for candidate `p`: the
      `iio_device` form if it exists, else the `iio:device0` form if that exists. */
  function PrimaryEntry(existing: set<string>, p: string): seq<string> {
    if p in existing then [p]
    else if AliasPath(p, 0) in existing then [AliasPath(p, 0)]
    else []
  }

  /** What the inner loop of p_est.py:59-61 adds for candidate `p` with alias
      indices `1 <= k < n`: every existing `iio:devicek` form, in order. */
  function AliasEntries(existing: set<string>, p: string, n: nat): seq<string>
    decreases n
  {
    if n <= 1 then []
    else AliasEntries(existing, p, n - 1) + (if AliasPath(p, n - 1) in existing then [AliasPath(p, n - 1)] else [])
  }

  /** Probing alias `k` appends it exactly when it exists. */
  lemma AliasEntriesStep(existing: set<string>, p: string, k: nat, d0: seq<string>, d: seq<string>, d1: seq<string>)
    requires 1 <= k
    requires d == d0 + AliasEntries(existing, p, k)
    requires d1 == d + (if AliasPath(p, k) in existing then [AliasPath(p, k)] else [])
    ensures d1 == d0 + AliasEntries(existing, p, k + 1)
  {
    AppendAssoc(d0, AliasEntries(existing, p, k), if AliasPath(p, k) in existing then [AliasPath(p, k)] else []);
  }

  /** Everything registered for one (folder, file) candidate. */
  function CandidateEntries(existing: set<string>, p: string): seq<string> {
    PrimaryEntry(existing, p) + AliasEntries(existing, p, AliasEnd)
  }

  /** `g(0) + g(1) + ... + g(n - 1)`. */
  function IndexedConcat<B>(g: nat -> seq<B>, n: nat): seq<B>
    decreases n
  {
    if n == 0 then [] else IndexedConcat(g, n - 1) + g(n - 1)
  }

  /** What the `i`-th power file of `folder` registers, as a function of `i`. */
  function CandidateScanner(existing: set<string>, folder: string): nat -> seq<string> {
    (i: nat) => CandidateEntries(existing, CandidatePath(folder, i))
  }

  /** Everything registered for the first `n` power files of `folder`. */
  function FolderEntries(existing: set<string>, folder: string, n: nat): seq<string> {
    IndexedConcat(CandidateScanner(existing, folder), n)
  }

  /** Appending the next candidate's entries extends a folder's entries by one file. */
  lemma FolderEntriesStep(existing: set<string>, folder: string, i: nat, d0: seq<string>, d: seq<string>, d1: seq<string>)
    requires d == d0 + FolderEntries(existing, folder, i)
    requires d1 == d + CandidateEntries(existing, CandidatePath(folder, i))
    ensures d1 == d0 + FolderEntries(existing, folder, i + 1)
  {
    var g := CandidateScanner(existing, folder);
    assert g(i) == CandidateEntries(existing, CandidatePath(folder, i));
    AppendAssoc(d0, IndexedConcat(g, i), g(i));
  }

  /** Everything registered for one folder (p_est.py:51-62). */
  function FolderScan(existing: set<string>, folder: string): seq<string> {
    FolderEntries(existing, folder, PowerFileCount)
  }

  /** `FolderScan` as a function value. */
  function FolderScanner(existing: set<string>): string -> seq<string> {
    folder => FolderScan(existing, folder)
  }

  /** Everything registered for a list of folders, folder after folder. */
  function ScanB(existing: set<string>, folders: seq<string>): seq<string> {
    ConcatMap(FolderScanner(existing), folders)
  }

  /** `f` applied to every element of `s`, the results concatenated in order. */
  function ConcatMap<A, B>(f: A -> seq<B>, s: seq<A>): seq<B>
    decreases |s|
  {
    if s == [] then [] else ConcatMap(f, s[..|s| - 1]) + f(s[|s| - 1])
  }

  /** One more element appends its image. */
  lemma ConcatMapSnoc<A, B>(f: A -> seq<B>, s: seq<A>, x: A, d0: seq<B>, d: seq<B>, d1: seq<B>)
    requires d == d0 + ConcatMap(f, s)
    requires d1 == d + f(x)
    ensures d1 == d0 + ConcatMap(f, s + [x])
  {
    assert (s + [x])[..|s + [x]| - 1] == s;
    AppendAssoc(d0, ConcatMap(f, s), f(x));
  }

  lemma {:induction false} ConcatMapAppend<A, B>(f: A -> seq<B>, a: seq<A>, b: seq<A>)
    ensures ConcatMap(f, a + b) == ConcatMap(f, a) + ConcatMap(f, b)
    decreases |b|
  {
    if b == [] {
      assert a + b == a;
    } else {
      var init := b[..|b| - 1];
      assert (a + b)[..|a + b| - 1] == a + init;
      ConcatMapAppend(f, a, init);
    }
  }

  /** The concatenation is no longer than `bound` per element. */
  lemma {:induction false} ConcatMapBound<A, B>(f: A -> seq<B>, s: seq<A>, bound: nat)
    requires forall a :: a in s ==> |f(a)| <= bound
    ensures |ConcatMap(f, s)| <= bound * |s|
    decreases |s|
  {
    if s != [] {
      var init := s[..|s| - 1];
      assert forall a :: a in init ==> a in s;
      ConcatMapBound(f, init, bound);
      assert |ConcatMap(f, s)| == |ConcatMap(f, init)| + |f(s[|s| - 1])|;
      assert bound * |s| == bound * |init| + bound;
    }
  }

  /** `x` is in the concatenation iff it is in the image of some element. */
  lemma {:induction false} ConcatMapMember<A, B>(f: A -> seq<B>, s: seq<A>, x: B)
    ensures x in ConcatMap(f, s) <==> exists a :: a in s && x in f(a)
    decreases |s|
  {
    if s != [] {
      var init, last := s[..|s| - 1], s[|s| - 1];
      assert s == init + [last];
      ConcatMapMember(f, init, x);
      if x in ConcatMap(f, s) {
        if x !in f(last) {
          var a :| a in init && x in f(a);
          assert a in s;
        }
      }
      if exists a :: a in s && x in f(a) {
        var a :| a in s && x in f(a);
        if a != last {
          assert a in init;
        }
      }
    }
  }

  /** The channel set `_device_scan` builds from empty lists. */
  function Discover(isOrin: bool, existing: set<string>, folders: seq<string>): Channels {
    if isOrin then
      var idx := PairedIndices(existing, PairCount);
      Channels(true, MapSeq(CurrPath, idx), MapSeq(InPath, idx), [])
    else
      Channels(false, [], [], ScanB(existing, folders))
  }

  // ---------------------------------------------------------------- both layouts

  /** `base` with the lists of `found` appended to its own. */
  function Extend(base: Channels, found: Channels): Channels {
    Channels(base.isOrin, base.curr + found.curr, base.volt + found.volt, base.devices + found.devices)
  }

  /** Extending empty lists gives what was found. */
  lemma ExtendEmpty(found: Channels)
    ensures Extend(Channels(found.isOrin, [], [], []), found) == found
  {
    EmptyAppend(found.curr);
    EmptyAppend(found.volt);
    EmptyAppend(found.devices);
  }

  /** A channel set in the layout of its topology: equal-length pair lists
      and no power files on A, power files only on B. */
  predicate Layout(ch: Channels) {
    |ch.curr| == |ch.volt| &&
    (ch.isOrin ==> ch.devices == []) &&
    (!ch.isOrin ==> ch.curr == [] && ch.volt == [])
  }

  /** Discovery yields the layout of the topology it was asked for. */
  lemma DiscoverLayout(isOrin: bool, existing: set<string>, folders: seq<string>)
    ensures Discover(isOrin, existing, folders).isOrin == isOrin
    ensures Layout(Discover(isOrin, existing, folders))
  {
  }

  // ---------------------------------------------------------------- lemmas, topology A

  /** `IndicesBelow` holds exactly the satisfying indices below `n`, strictly increasing. */
  lemma {:induction false} IndicesBelowSpec(p: nat -> bool, n: nat)
    ensures var idx := IndicesBelow(p, n);
      |idx| <= n &&
      (forall k :: 0 <= k < |idx| ==> idx[k] < n) &&
      (forall k, l :: 0 <= k < l < |idx| ==> idx[k] < idx[l]) &&
      (forall j: nat :: j in idx <==> j < n && p(j))
  {
    if n > 0 {
      IndicesBelowSpec(p, n - 1);
    }
  }

  /** The registered pair indices are exactly the paired ones below `n`, strictly increasing. */
  lemma PairedIndicesSpec(existing: set<string>, n: nat)
    ensures var idx := PairedIndices(existing, n);
      |idx| <= n &&
      (forall k :: 0 <= k < |idx| ==> idx[k] < n) &&
      (forall k, l :: 0 <= k < l < |idx| ==> idx[k] < idx[l]) &&
      (forall j: nat :: j in idx <==> j < n && Paired(existing, j))
  {
    var p := PairTest(existing);
    IndicesBelowSpec(p, n);
    forall j: nat ensures p(j) == Paired(existing, j) {
    }
  }

  /** Topology A registers equally many current and voltage files, at most
      three, entry `k` of both lists belonging to the same pair index, those
      indices increasing; and pair `j` is registered iff both of its files exist. */
  lemma DiscoverPairs(existing: set<string>, folders: seq<string>)
    ensures var ch := Discover(true, existing, folders);
      var idx := PairedIndices(existing, PairCount);
      ch.isOrin && ch.devices == [] &&
      |ch.curr| == |ch.volt| == |idx| <= PairCount &&
      (forall k :: 0 <= k < |idx| ==> ch.curr[k] == CurrPath(idx[k]) && ch.volt[k] == InPath(idx[k])) &&
      (forall k, l :: 0 <= k < l < |idx| ==> idx[k] < idx[l]) &&
      (forall j :: 0 <= j < PairCount ==> (CurrPath(j) in ch.curr <==> Paired(existing, j))) &&
      (forall j :: 0 <= j < PairCount ==> (InPath(j) in ch.volt <==> Paired(existing, j)))
  {
    var ch := Discover(true, existing, folders);
    var idx := PairedIndices(existing, PairCount);
    PairedIndicesSpec(existing, PairCount);
    forall j | 0 <= j < PairCount
      ensures CurrPath(j) in ch.curr <==> Paired(existing, j)
      ensures InPath(j) in ch.volt <==> Paired(existing, j)
    {
      forall a | a in idx
        ensures CurrPath(a) == CurrPath(j) ==> a == j
        ensures InPath(a) == InPath(j) ==> a == j
      {
        PairPathsInjective(a, j);
      }
      MapSeqMember<nat, string>(CurrPath, idx, j);
      MapSeqMember<nat, string>(InPath, idx, j);
    }
  }

  // ---------------------------------------------------------------- lemmas, topology B

  lemma {:induction false} AliasEntriesSpec(existing: set<string>, p: string, n: nat)
    ensures |AliasEntries(existing, p, n)| < if n == 0 then 1 else n
    ensures forall x :: x in AliasEntries(existing, p, n) <==>
      x in existing && exists k :: 1 <= k < n && x == AliasPath(p, k)
  {
    if n > 1 {
      AliasEntriesSpec(existing, p, n - 1);
      var x := AliasPath(p, n - 1);
      forall y | y in existing && (exists k :: 1 <= k < n && y == AliasPath(p, k))
        ensures y in AliasEntries(existing, p, n)
      {
        var k :| 1 <= k < n && y == AliasPath(p, k);
        if k < n - 1 {
          assert y in AliasEntries(existing, p, n - 1);
        }
      }
    }
  }

  /** Exactly which paths one candidate registers: the `iio_device` form if it
      exists, the `iio:device0` form only when the `iio_device` form does not
      exist (the `elif`), and every existing `iio:device1..4` form regardless;
      at most five entries, all of them existing paths. */
  lemma CandidateEntriesSpec(existing: set<string>, p: string)
    ensures |CandidateEntries(existing, p)| <= 5
    ensures forall x :: x in CandidateEntries(existing, p) <==>
      x in existing &&
      (x == p || (x == AliasPath(p, 0) && p !in existing) ||
       exists k :: 1 <= k < AliasEnd && x == AliasPath(p, k))
  {
    AliasEntriesSpec(existing, p, AliasEnd);
  }

  /** An indexed concatenation is no longer than `bound` per index. */
  lemma {:induction false} IndexedConcatBound<B>(g: nat -> seq<B>, n: nat, bound: nat)
    requires forall i: nat :: i < n ==> |g(i)| <= bound
    ensures |IndexedConcat(g, n)| <= bound * n
  {
    if n > 0 {
      IndexedConcatBound(g, n - 1, bound);
      assert bound * n == bound * (n - 1) + bound;
    }
  }

  /** `x` is in an indexed concatenation iff it is in some `g(i)` with `i < n`. */
  lemma {:induction false} IndexedConcatMember<B>(g: nat -> seq<B>, n: nat, x: B)
    ensures x in IndexedConcat(g, n) <==> exists i: nat :: i < n && x in g(i)
  {
    if n > 0 {
      IndexedConcatMember(g, n - 1, x);
      if exists i: nat :: i < n && x in g(i) {
        var i: nat :| i < n && x in g(i);
        if i < n - 1 {
          assert x in IndexedConcat(g, n - 1);
        }
      }
    }
  }

  /** A folder's first `n` power files register at most five entries each. */
  lemma FolderEntriesBound(existing: set<string>, folder: string, n: nat)
    ensures |FolderEntries(existing, folder, n)| <= 5 * n
  {
    var g := CandidateScanner(existing, folder);
    forall i: nat | i < n ensures |g(i)| <= 5 {
      CandidateEntriesSpec(existing, CandidatePath(folder, i));
    }
    IndexedConcatBound(g, n, 5);
  }

  /** A folder registers `x` iff one of its first `n` candidates does. */
  lemma FolderEntriesMember(existing: set<string>, folder: string, n: nat, x: string)
    ensures x in FolderEntries(existing, folder, n) <==>
      exists i: nat :: i < n && x in CandidateEntries(existing, CandidatePath(folder, i))
  {
    var g := CandidateScanner(existing, folder);
    IndexedConcatMember(g, n, x);
    forall i: nat ensures g(i) == CandidateEntries(existing, CandidatePath(folder, i)) {
    }
  }

  /** Topology B registers a path iff some folder's candidate registers it;
      at most twenty-five entries per folder (five files, five name forms). */
  lemma ScanBSpec(existing: set<string>, folders: seq<string>)
    ensures |ScanB(existing, folders)| <= 25 * |folders|
    ensures forall x :: x in ScanB(existing, folders) <==>
      exists f, i: nat :: f in folders && i < PowerFileCount && x in CandidateEntries(existing, CandidatePath(f, i))
  {
    var g := FolderScanner(existing);
    forall f | f in folders
      ensures |g(f)| <= 25
    {
      FolderEntriesBound(existing, f, PowerFileCount);
    }
    ConcatMapBound(g, folders, 25);
    forall x
      ensures x in ScanB(existing, folders) <==>
        exists f, i: nat :: f in folders && i < PowerFileCount && x in CandidateEntries(existing, CandidatePath(f, i))
    {
      ConcatMapMember(g, folders, x);
      forall f | f in folders
        ensures x in g(f) <==> exists i: nat :: i < PowerFileCount && x in CandidateEntries(existing, CandidatePath(f, i))
      {
        FolderEntriesMember(existing, f, PowerFileCount, x);
      }
    }
  }

  /** Every path topology B registers existed at discovery time. */
  lemma ScanBExisting(existing: set<string>, folders: seq<string>)
    ensures forall x :: x in ScanB(existing, folders) ==> x in existing
  {
    ScanBSpec(existing, folders);
    forall x | x in ScanB(existing, folders) ensures x in existing {
      var f, i: nat :| f in folders && i < PowerFileCount && x in CandidateEntries(existing, CandidatePath(f, i));
      CandidateEntriesSpec(existing, CandidatePath(f, i));
    }
  }

  /** The scan is folder-major: scanning `a + b` gives the scan of `a`
      followed by the scan of `b`. A folder name listed twice therefore
      registers its files twice. */
  lemma ScanBAppend(existing: set<string>, a: seq<string>, b: seq<string>)
    ensures ScanB(existing, a + b) == ScanB(existing, a) + ScanB(existing, b)
  {
    ConcatMapAppend(FolderScanner(existing), a, b);
  }

  /** Scanning one more folder appends that folder's entries. */
  lemma ScanBStep(existing: set<string>, folders: seq<string>, f: nat, d0: seq<string>, d: seq<string>, d1: seq<string>)
    requires f < |folders|
    requires d == d0 + ScanB(existing, folders[..f])
    requires d1 == d + FolderScan(existing, folders[f])
    ensures d1 == d0 + ScanB(existing, folders[..f + 1])
  {
    TakeSnoc(folders, f);
    var g := FolderScanner(existing);
    assert g(folders[f]) == FolderScan(existing, folders[f]);
    ConcatMapSnoc(g, folders[..f], folders[f], d0, d, d1);
  }

}
