/** The on-disk cache of packets that could not be sent: one file per
    packet in a dedicated directory, oldest first by creation date, with a
    byte budget enforced before every write. */
module FileCache {
  import opened Common
  import opened Sorting

  const UInt64Max: nat := 0xFFFF_FFFF_FFFF_FFFF

  /** `init?(maxSize:)`'s default budget. */
  const DefaultMaxSize: nat := 5_000_000

  /** One file of the cache directory: its path, its text, and the size
      (bytes) and creation date its attributes report. */
  datatype FileEntry = FileEntry(path: string, content: string, size: nat, created: int)

  /** A `Record` refers to a cached file by path. */
  datatype Record = Record(file: string)

  // ---------------------------------------------------------------------
  // Sizes

  /** Bytes of one character in UTF-8. */
  function Utf8Width(c: char): nat
  {
    if c as int < 0x80 then 1
    else if c as int < 0x800 then 2
    else if c as int < 0x1_0000 then 3
    else 4
  }

  /** Bytes of `s` written with `.utf8`: the size of the file it becomes. */
  function Utf8Size(s: string): nat
  {
    if s == [] then 0 else Utf8Width(s[0]) + Utf8Size(s[1..])
  }

  /** Text of ASCII characters takes one byte per character. */
  lemma {:induction false} AsciiSize(s: string)
    requires forall i :: 0 <= i < |s| ==> s[i] as int < 0x80
    ensures Utf8Size(s) == |s|
  {
    if s != [] {
      AsciiSize(s[1..]);
    }
  }

  function SumSizes(s: seq<FileEntry>): nat
  {
    if s == [] then 0 else s[0].size + SumSizes(s[1..])
  }

  lemma {:induction false} SumConcat(a: seq<FileEntry>, b: seq<FileEntry>)
    ensures SumSizes(a + b) == SumSizes(a) + SumSizes(b)
  {
    if a == [] {
      assert a + b == b;
    } else {
      assert (a + b)[1..] == a[1..] + b;
      SumConcat(a[1..], b);
    }
  }

  /** The total is one file's size plus the total of the others. */
  lemma SumRemove(s: seq<FileEntry>, j: nat)
    requires j < |s|
    ensures SumSizes(s) == s[j].size + SumSizes(s[..j] + s[j + 1..])
  {
    var before, rest, after := s[..j], s[j..], s[j + 1..];
    assert rest[0] == s[j] && rest[1..] == after;
    calc {
      SumSizes(s);
      == { assert s == before + rest; SumConcat(before, rest); }
      SumSizes(before) + SumSizes(rest);
      == SumSizes(before) + (s[j].size + SumSizes(after));
      == { SumConcat(before, after); }
      s[j].size + SumSizes(before + after);
    }
  }

  lemma MultisetRemove<T>(s: seq<T>, j: nat)
    requires j < |s|
    ensures multiset(s[..j] + s[j + 1..]) == multiset(s) - multiset{s[j]}
  {
    assert s == s[..j] + [s[j]] + s[j + 1..];
  }

  /** Removing one occurrence of the same element from two sequences with
      the same elements leaves two sequences with the same elements. */
  lemma MatchFirst<T>(a: seq<T>, b: seq<T>) returns (j: nat)
    requires a != [] && multiset(a) == multiset(b)
    ensures j < |b| && b[j] == a[0]
    ensures multiset(a[1..]) == multiset(b[..j] + b[j + 1..])
  {
    assert a[0] in multiset(a);
    assert a[0] in b;
    j :| 0 <= j < |b| && b[j] == a[0];
    MultisetTail(a);
    MultisetRemove(b, j);
  }

  lemma MultisetTail<T>(s: seq<T>)
    requires s != []
    ensures multiset(s[1..]) == multiset(s) - multiset{s[0]}
  {
    assert s == [s[0]] + s[1..];
  }

  /** The total size depends only on which files there are, not on the
      order they are listed in. */
  lemma {:induction false} SumPermutation(a: seq<FileEntry>, b: seq<FileEntry>)
    requires multiset(a) == multiset(b)
    ensures SumSizes(a) == SumSizes(b)
    decreases |a|
  {
    if a != [] {
      var j := MatchFirst(a, b);
      SumPermutation(a[1..], b[..j] + b[j + 1..]);
      SumRemove(b, j);
    } else {
      assert |b| == |multiset(b)| == 0;
    }
  }

  // ---------------------------------------------------------------------
  // The directory listing

  ghost predicate DistinctPaths(s: seq<FileEntry>)
  {
    forall i, j :: 0 <= i < j < |s| ==> s[i].path != s[j].path
  }

  function Created(e: FileEntry): int { e.created }

  /** `files()`: the listing sorted by creation date, oldest first. */
  function Files(listing: seq<FileEntry>): (r: seq<FileEntry>)
    ensures SortedBy(r, Created)
    ensures multiset(r) == multiset(listing)
  {
    SortBy(listing, Created)
  }

  /** The paths of the entries of `s`. */
  function PathSet(s: seq<FileEntry>): set<string>
  {
    if s == [] then {} else {s[0].path} + PathSet(s[1..])
  }

  lemma {:induction false} PathSetConcat(a: seq<FileEntry>, b: seq<FileEntry>)
    ensures PathSet(a + b) == PathSet(a) + PathSet(b)
  {
    if a == [] {
      assert a + b == b;
    } else {
      assert (a + b)[1..] == a[1..] + b;
      PathSetConcat(a[1..], b);
    }
  }

  /** Every entry's path is in `PathSet`, and no other path is. */
  lemma {:induction false} PathSetMembers(s: seq<FileEntry>, p: string)
    ensures p in PathSet(s) <==> exists j :: 0 <= j < |s| && s[j].path == p
  {
    if s != [] {
      PathSetMembers(s[1..], p);
      if p in PathSet(s[1..]) {
        var j :| 0 <= j < |s[1..]| && s[1..][j].path == p;
        assert s[j + 1].path == p;
      }
      if exists j :: 0 <= j < |s| && s[j].path == p {
        var j :| 0 <= j < |s| && s[j].path == p;
        if j > 0 {
          assert s[1..][j - 1].path == p;
        }
      }
    }
  }

  /** The entries whose path is not in `paths`, in their order. */
  function Without(s: seq<FileEntry>, paths: set<string>): (r: seq<FileEntry>)
    ensures |r| <= |s|
  {
    if s == [] then []
    else (if s[0].path in paths then [] else [s[0]]) + Without(s[1..], paths)
  }

  lemma WithoutSubset(s: seq<FileEntry>, paths: set<string>)
    ensures forall e :: e in Without(s, paths) ==> e in s
  {
    forall e | e in Without(s, paths) ensures e in s {
      WithoutMembers(s, paths, e);
    }
  }

  /** The entries kept are entries of `s` whose path is not removed. */
  lemma {:induction false} WithoutMembers(s: seq<FileEntry>, paths: set<string>, e: FileEntry)
    ensures e in Without(s, paths) <==> e in s && e.path !in paths
  {
    if s != [] {
      WithoutMembers(s[1..], paths, e);
      assert e in s <==> e == s[0] || e in s[1..];
    }
  }

  lemma {:induction false} WithoutNothing(s: seq<FileEntry>, paths: set<string>)
    requires forall e :: e in s ==> e.path !in paths
    ensures Without(s, paths) == s
  {
    if s != [] {
      WithoutNothing(s[1..], paths);
    }
  }

  lemma {:induction false} WithoutTwice(s: seq<FileEntry>, a: set<string>, b: set<string>)
    ensures Without(Without(s, a), b) == Without(s, a + b)
  {
    if s != [] {
      WithoutTwice(s[1..], a, b);
      var head := if s[0].path in a then [] else [s[0]];
      WithoutConcat(head, Without(s[1..], a), b);
    }
  }

  lemma {:induction false} WithoutConcat(s: seq<FileEntry>, t: seq<FileEntry>, paths: set<string>)
    ensures Without(s + t, paths) == Without(s, paths) + Without(t, paths)
  {
    if s == [] {
      assert s + t == t;
    } else {
      assert (s + t)[1..] == s[1..] + t;
      WithoutConcat(s[1..], t, paths);
    }
  }

  /** How often each entry occurs after removing paths: as before, unless
      its path is removed. */
  lemma {:induction false} WithoutCount(s: seq<FileEntry>, paths: set<string>, x: FileEntry)
    ensures multiset(Without(s, paths))[x] == if x.path in paths then 0 else multiset(s)[x]
  {
    if s != [] {
      var head := if s[0].path in paths then [] else [s[0]];
      var tail := Without(s[1..], paths);
      assert multiset(head)[x] == if x.path in paths then 0 else multiset([s[0]])[x];
      calc {
        multiset(Without(s, paths))[x];
        multiset(head + tail)[x];
        multiset(head)[x] + multiset(tail)[x];
      == { WithoutCount(s[1..], paths, x); }
        multiset(head)[x] + (if x.path in paths then 0 else multiset(s[1..])[x]);
      == { assert s == [s[0]] + s[1..]; }
        if x.path in paths then 0 else multiset(s)[x];
      }
    }
  }

  /** Removing the same paths from two listings of the same files leaves
      the same files. */
  lemma WithoutPermutation(a: seq<FileEntry>, b: seq<FileEntry>, paths: set<string>)
    requires multiset(a) == multiset(b)
    ensures multiset(Without(a, paths)) == multiset(Without(b, paths))
  {
    forall x ensures multiset(Without(a, paths))[x] == multiset(Without(b, paths))[x] {
      WithoutCount(a, paths, x);
      WithoutCount(b, paths, x);
    }
  }

  // ---------------------------------------------------------------------
  // The cleanup walk

  /** The number of oldest files whose running total, starting from
      `total`, stays within `budget`: the walk deletes every later file. */
  function KeptCount(targets: seq<FileEntry>, budget: nat, total: nat): (k: nat)
    ensures k <= |targets|
  {
    if targets == [] || total + targets[0].size > budget then 0
    else 1 + KeptCount(targets[1..], budget, total + targets[0].size)
  }

  /** The files `cleanup` deletes from the sorted listing: the ones seen
      after the running total first went over the budget. */
  function Evicted(targets: seq<FileEntry>, budget: nat): seq<FileEntry>
  {
    targets[KeptCount(targets, budget, 0)..]
  }

  /** The kept prefix is within budget, and it is the longest such prefix:
      the running total after the next file is over budget. */
  lemma {:induction false} KeptCountIsLongest(targets: seq<FileEntry>, budget: nat, total: nat)
    requires total <= budget
    ensures var k := KeptCount(targets, budget, total);
      && total + SumSizes(targets[..k]) <= budget
      && (k < |targets| ==> total + SumSizes(targets[..k + 1]) > budget)
  {
    var k := KeptCount(targets, budget, total);
    if targets == [] {
    } else if total + targets[0].size > budget {
      assert targets[..1] == [targets[0]];
    } else {
      var t := total + targets[0].size;
      KeptCountIsLongest(targets[1..], budget, t);
      assert targets[..k] == [targets[0]] + targets[1..][..k - 1];
      if k < |targets| {
        assert targets[..k + 1] == [targets[0]] + targets[1..][..k];
      }
    }
  }

  /** Running totals only grow. */
  lemma PrefixSumMonotone(s: seq<FileEntry>, i: nat, j: nat)
    requires i <= j <= |s|
    ensures SumSizes(s[..i]) <= SumSizes(s[..j]) <= SumSizes(s)
  {
    assert s[..j] == s[..i] + s[i..j];
    SumConcat(s[..i], s[i..j]);
    assert s == s[..j] + s[j..];
    SumConcat(s[..j], s[j..]);
  }

  /** The walk's test, file by file: the running total including the file
      at `i` exceeds the budget exactly for the files after the kept prefix. */
  lemma EvictionBoundary(targets: seq<FileEntry>, budget: nat, i: nat)
    requires i < |targets|
    ensures SumSizes(targets[..i + 1]) > budget <==> KeptCount(targets, budget, 0) <= i
  {
    var k := KeptCount(targets, budget, 0);
    KeptCountIsLongest(targets, budget, 0);
    if i < k {
      PrefixSumMonotone(targets, i + 1, k);
    } else {
      PrefixSumMonotone(targets, k + 1, i + 1);
    }
  }

  /** A path that no entry of `s` has is not in `PathSet(s)`. */
  lemma NotInPathSet(s: seq<FileEntry>, p: string)
    requires forall j :: 0 <= j < |s| ==> s[j].path != p
    ensures p !in PathSet(s)
  {
    PathSetMembers(s, p);
  }

  /** What stays after cleanup, in date order, is the kept prefix. */
  lemma SurvivorsArePrefix(targets: seq<FileEntry>, budget: nat)
    requires DistinctPaths(targets)
    ensures Without(targets, PathSet(Evicted(targets, budget))) == targets[..KeptCount(targets, budget, 0)]
  {
    var k := KeptCount(targets, budget, 0);
    var kept, gone := targets[..k], targets[k..];
    assert targets == kept + gone;
    WithoutConcat(kept, gone, PathSet(gone));
    forall e | e in kept ensures e.path !in PathSet(gone) {
      var i :| 0 <= i < k && kept[i] == e;
      forall j | 0 <= j < |gone| ensures gone[j].path != e.path {
        assert targets[i] == e && targets[k + j] == gone[j];
      }
      NotInPathSet(gone, e.path);
    }
    WithoutNothing(kept, PathSet(gone));
    WithoutAll(gone);
  }

  /** Removing every path of a listing leaves nothing. */
  lemma WithoutAll(s: seq<FileEntry>)
    ensures Without(s, PathSet(s)) == []
  {
    WithoutCovered(s, PathSet(s));
  }

  lemma {:induction false} WithoutCovered(s: seq<FileEntry>, paths: set<string>)
    requires PathSet(s) <= paths
    ensures Without(s, paths) == []
  {
    if s != [] {
      WithoutCovered(s[1..], paths);
    }
  }

  /** After cleanup the files left, in any order, fit the budget. */
  lemma {:induction false} CleanupFitsBudget(listing: seq<FileEntry>, budget: nat)
    requires DistinctPaths(listing)
    ensures SumSizes(Without(listing, PathSet(Evicted(Files(listing), budget)))) <= budget
  {
    var targets := Files(listing);
    var gone := PathSet(Evicted(targets, budget));
    DistinctPermutation(listing, targets);
    SurvivorsArePrefix(targets, budget);
    WithoutPermutation(listing, targets, gone);
    SumPermutation(Without(listing, gone), Without(targets, gone));
    KeptCountIsLongest(targets, budget, 0);
  }

  /** In a listing with distinct paths every entry occurs at most once. */
  lemma {:induction false} DistinctCount(s: seq<FileEntry>, x: FileEntry)
    requires DistinctPaths(s)
    ensures multiset(s)[x] <= 1
  {
    if s != [] {
      assert s == [s[0]] + s[1..];
      assert DistinctPaths(s[1..]) by {
        forall i, j | 0 <= i < j < |s[1..]| ensures s[1..][i].path != s[1..][j].path {
          assert s[1..][i] == s[i + 1] && s[1..][j] == s[j + 1];
        }
      }
      DistinctCount(s[1..], x);
      if s[0] == x {
        forall m | 0 <= m < |s[1..]| ensures s[1..][m] != x {
          assert s[1..][m] == s[m + 1];
        }
        assert x !in s[1..];
      }
    }
  }

  /** An entry found at two positions occurs at least twice. */
  lemma TwoPositions(s: seq<FileEntry>, i: nat, j: nat)
    requires i < j < |s| && s[i] == s[j]
    ensures multiset(s)[s[i]] >= 2
  {
    assert s == s[..i] + [s[i]] + s[i + 1..j] + [s[j]] + s[j + 1..];
  }

  /** Two entries of a listing with distinct paths that share a path are
      the same entry. */
  lemma SamePathSameEntry(s: seq<FileEntry>, x: FileEntry, y: FileEntry)
    requires DistinctPaths(s) && x in s && y in s && x.path == y.path
    ensures x == y
  {
  }

  /** Reordering a listing keeps its paths distinct. */
  lemma DistinctPermutation(a: seq<FileEntry>, b: seq<FileEntry>)
    requires DistinctPaths(a) && multiset(a) == multiset(b)
    ensures DistinctPaths(b)
  {
    forall i, j | 0 <= i < j < |b| ensures b[i].path != b[j].path {
      if b[i].path == b[j].path {
        assert b[i] in multiset(a) && b[j] in multiset(a);
        SamePathSameEntry(a, b[i], b[j]);
        TwoPositions(b, i, j);
        DistinctCount(a, b[i]);
      }
    }
  }

  /** The directory after a successful `push`: cleanup, then the new file. */
  function Pushed(listing: seq<FileEntry>, budget: nat, file: FileEntry): seq<FileEntry>
  {
    Without(listing, PathSet(Evicted(Files(listing), budget))) + [file]
  }

  /** After a push the cache holds at most the budget plus the new file: the
      new file is accounted for only by the next push. */
  lemma PushedWithinBudget(listing: seq<FileEntry>, budget: nat, file: FileEntry)
    requires DistinctPaths(listing)
    ensures SumSizes(Pushed(listing, budget, file)) <= budget + file.size
  {
    CleanupFitsBudget(listing, budget);
    SumConcat(Without(listing, PathSet(Evicted(Files(listing), budget))), [file]);
  }

  // ---------------------------------------------------------------------
  // The directory and its file operations

  /** An operation the file system refused. */
  datatype Refusal = ListRefused | ReadRefused(path: string) | RemoveRefused(path: string) | WriteRefused(path: string)

  /** The refusals of a run whose outcome is `err`: none when it succeeded,
      exactly one more when it failed. */
  ghost predicate Logged(before: seq<Refusal>, after: seq<Refusal>, err: Option<Error>)
  {
    if err.None? then after == before else |after| == |before| + 1 && after[..|before|] == before
  }

  /** How a `push` into `listing` named `file` can fail, `deleted` being the
      number of evicted files its cleanup removed: the listing was refused
      and nothing was deleted; or the delete of the next evicted file was
      refused; or cleanup finished and the write of the new file was
      refused. Either way `entries` is the listing less the files deleted. */
  ghost predicate PushFailed(listing: seq<FileEntry>, budget: nat, file: string, deleted: nat,
                             before: seq<Refusal>, after: seq<Refusal>, entries: seq<FileEntry>)
  {
    var evicted := Evicted(Files(listing), budget);
    && deleted <= |evicted|
    && entries == Without(listing, PathSet(evicted[..deleted]))
    && (|| (deleted == 0 && after == before + [ListRefused])
        || (deleted < |evicted| && after == before + [RemoveRefused(evicted[deleted].path)])
        || (deleted == |evicted| && after == before + [WriteRefused(file)]))
  }

  /** The refusal a failed push names is never the delete of its own new
      file: cleanup only deletes files the listing already had. */
  lemma PushFailedSparesNewFile(listing: seq<FileEntry>, budget: nat, file: string, deleted: nat,
                                before: seq<Refusal>, after: seq<Refusal>, entries: seq<FileEntry>)
    requires forall e :: e in listing ==> e.path != file
    requires PushFailed(listing, budget, file, deleted, before, after, entries)
    ensures after != before + [RemoveRefused(file)]
  {
    var evicted := Evicted(Files(listing), budget);
    if deleted < |evicted| {
      var k := KeptCount(Files(listing), budget, 0);
      assert evicted[deleted] == Files(listing)[k + deleted];
      assert evicted[deleted] in multiset(listing);
      assert evicted[deleted].path != file;
    }
    assert |after| == |before| + 1 && after[|before|] != RemoveRefused(file);
  }

  /** The cache directory. Every operation can fail for reasons outside the
      model (permissions, a full disk); such a failure is a nondeterministic
      outcome, a failed operation changes no file, and `refusals` records
      every failure in order. */
  class Directory {
    var entries: seq<FileEntry>
    ghost var refusals: seq<Refusal>

    ghost predicate Valid()
      reads this
    {
      DistinctPaths(entries)
    }

    constructor (entries: seq<FileEntry>)
      requires DistinctPaths(entries)
      ensures Valid() && this.entries == entries && refusals == []
    {
      this.entries := entries;
      refusals := [];
    }

    /** `contentsOfDirectory` with `attributesOfItem` of every file. */
    method List() returns (r: Result<seq<FileEntry>>)
      modifies this
      ensures entries == old(entries)
      ensures r.Ok? ==> r.value == entries && refusals == old(refusals)
      ensures r.Err? ==> r.error == IoError && refusals == old(refusals) + [ListRefused]
    {
      var failed: bool := *;
      if failed {
        r := Err(IoError);
        refusals := refusals + [ListRefused];
      } else {
        r := Ok(entries);
      }
    }

    /** `removeItem(atPath:)`: fails on a path that is not there. */
    method Remove(path: string) returns (err: Option<Error>)
      requires Valid()
      modifies this
      ensures Valid()
      ensures err.None? ==> (exists e :: e in old(entries) && e.path == path) && entries == Without(old(entries), {path})
      ensures err.None? ==> refusals == old(refusals)
      ensures err.Some? ==> err == Some(IoError) && entries == old(entries) && refusals == old(refusals) + [RemoveRefused(path)]
    {
      var failed: bool := *;
      if failed || !(exists e :: e in entries && e.path == path) {
        refusals := refusals + [RemoveRefused(path)];
        return Some(IoError);
      }
      WithoutKeepsDistinct(entries, {path});
      entries := Without(entries, {path});
      err := None;
    }

    /** `String(contentsOf:encoding:)` of a file. */
    method Read(path: string) returns (r: Result<string>)
      requires Valid()
      modifies this
      ensures Valid() && entries == old(entries)
      ensures r.Ok? ==> (exists e :: e in entries && e.path == path && e.content == r.value) && refusals == old(refusals)
      ensures r.Err? ==> r.error == IoError && refusals == old(refusals) + [ReadRefused(path)]
      ensures (forall e :: e in entries ==> e.path != path) ==> r.Err?
    {
      var failed: bool := *;
      if failed || !(exists e :: e in entries && e.path == path) {
        refusals := refusals + [ReadRefused(path)];
        return Err(IoError);
      }
      var e :| e in entries && e.path == path;
      r := Ok(e.content);
    }

    /** `write(to:atomically:encoding:)` of a new file: all or nothing. */
    method Write(path: string, data: string, now: int) returns (err: Option<Error>)
      requires Valid() && forall e :: e in entries ==> e.path != path
      modifies this
      ensures Valid()
      ensures err.None? ==> entries == old(entries) + [FileEntry(path, data, Utf8Size(data), now)] && refusals == old(refusals)
      ensures err.Some? ==> err == Some(IoError) && entries == old(entries) && refusals == old(refusals) + [WriteRefused(path)]
    {
      var failed: bool := *;
      if failed {
        refusals := refusals + [WriteRefused(path)];
        return Some(IoError);
      }
      entries := entries + [FileEntry(path, data, Utf8Size(data), now)];
      err := None;
    }
  }

  lemma WithoutKeepsDistinct(s: seq<FileEntry>, paths: set<string>)
    requires DistinctPaths(s)
    ensures DistinctPaths(Without(s, paths))
    decreases |s|
  {
    if s != [] {
      WithoutKeepsDistinct(s[1..], paths);
      var head := if s[0].path in paths then [] else [s[0]];
      var r := head + Without(s[1..], paths);
      forall i, j | 0 <= i < j < |r| ensures r[i].path != r[j].path {
        if head != [] && i == 0 {
          assert r[j] in Without(s[1..], paths);
          WithoutMembers(s[1..], paths, r[j]);
          var m :| 0 <= m < |s[1..]| && s[1..][m] == r[j];
          assert s[m + 1] == r[j];
        }
      }
    }
  }

  /** `Record.content()`. */
  method Content(dir: Directory, r: Record) returns (c: Result<string>)
    requires dir.Valid()
    modifies dir
    ensures dir.Valid() && dir.entries == old(dir.entries)
    ensures c.Ok? ==> (exists e :: e in dir.entries && e.path == r.file && e.content == c.value) && dir.refusals == old(dir.refusals)
    ensures c.Err? ==> c.error == IoError && dir.refusals == old(dir.refusals) + [ReadRefused(r.file)]
    ensures (forall e :: e in dir.entries ==> e.path != r.file) ==> c.Err?
  {
    c := dir.Read(r.file);
  }

  /** `Record.delete()`: removes exactly the record's own file. */
  method Delete(dir: Directory, r: Record) returns (err: Option<Error>)
    requires dir.Valid()
    modifies dir
    ensures dir.Valid()
    ensures err.None? ==> dir.entries == Without(old(dir.entries), {r.file}) && dir.refusals == old(dir.refusals)
    ensures err.Some? ==> dir.entries == old(dir.entries) && dir.refusals == old(dir.refusals) + [RemoveRefused(r.file)]
  {
    err := dir.Remove(r.file);
  }

  // ---------------------------------------------------------------------
  // The cache

  /** The files among the first `i` of the walk that it deletes. */
  function DeletedBy(targets: seq<FileEntry>, budget: nat, i: nat): seq<FileEntry>
    requires i <= |targets|
  {
    var k := KeptCount(targets, budget, 0);
    if i <= k then [] else targets[k..i]
  }

  /** One more step of the walk deletes the file exactly when the running
      total including it is over the budget. */
  lemma DeletedStep(targets: seq<FileEntry>, budget: nat, i: nat)
    requires i < |targets|
    ensures SumSizes(targets[..i + 1]) > budget ==>
      PathSet(DeletedBy(targets, budget, i + 1)) == PathSet(DeletedBy(targets, budget, i)) + {targets[i].path}
    ensures SumSizes(targets[..i + 1]) <= budget ==>
      DeletedBy(targets, budget, i + 1) == DeletedBy(targets, budget, i)
  {
    EvictionBoundary(targets, budget, i);
    var k := KeptCount(targets, budget, 0);
    if k <= i {
      var before := DeletedBy(targets, budget, i);
      assert before == targets[k..i];
      assert DeletedBy(targets, budget, i + 1) == targets[k..i + 1] == before + [targets[i]];
      PathSetConcat(before, [targets[i]]);
      assert PathSet([targets[i]]) == {targets[i].path};
    }
  }

  /** The running total after one more file, which never exceeds the total
      of the whole listing. */
  lemma RunningTotal(targets: seq<FileEntry>, i: nat)
    requires i < |targets|
    ensures SumSizes(targets[..i + 1]) == SumSizes(targets[..i]) + targets[i].size
    ensures SumSizes(targets[..i + 1]) <= SumSizes(targets)
  {
    PrefixSumMonotone(targets, i + 1, |targets|);
    assert targets[..i + 1] == targets[..i] + [targets[i]];
    SumConcat(targets[..i], [targets[i]]);
  }

  /** The directory after one more step of the walk: one more file removed
      when the running total is over the budget, unchanged otherwise. */
  lemma WalkStep(start: seq<FileEntry>, targets: seq<FileEntry>, budget: nat, i: nat)
    requires i < |targets|
    ensures var before := Without(start, PathSet(DeletedBy(targets, budget, i)));
      SumSizes(targets[..i + 1]) > budget ==>
        Without(before, {targets[i].path}) == Without(start, PathSet(DeletedBy(targets, budget, i + 1)))
    ensures SumSizes(targets[..i + 1]) <= budget ==>
      Without(start, PathSet(DeletedBy(targets, budget, i))) == Without(start, PathSet(DeletedBy(targets, budget, i + 1)))
  {
    DeletedStep(targets, budget, i);
    WithoutTwice(start, PathSet(DeletedBy(targets, budget, i)), {targets[i].path});
  }

  /** The deletions of a walk stopped after `i` files are the first ones
      `cleanup` makes; after the whole walk they are all of them. */
  lemma DeletedSoFar(targets: seq<FileEntry>, budget: nat, i: nat)
    requires i <= |targets|
    ensures var n := |DeletedBy(targets, budget, i)|;
      n <= |Evicted(targets, budget)| && DeletedBy(targets, budget, i) == Evicted(targets, budget)[..n]
    ensures i == |targets| ==> DeletedBy(targets, budget, i) == Evicted(targets, budget)
    ensures PathSet(DeletedBy(targets, budget, 0)) == {}
  {
  }

  /** A walk that stops at a file over the budget stops at the next file
      `cleanup` would delete. */
  lemma StoppedAtEvicted(targets: seq<FileEntry>, budget: nat, i: nat)
    requires i < |targets| && SumSizes(targets[..i + 1]) > budget
    ensures |DeletedBy(targets, budget, i)| < |Evicted(targets, budget)|
    ensures Evicted(targets, budget)[|DeletedBy(targets, budget, i)|] == targets[i]
  {
    EvictionBoundary(targets, budget, i);
  }

  /** The records `getAll` hands out for `files`, in their order. */
  function Records(files: seq<FileEntry>): (r: seq<Record>)
    ensures |r| == |files| && forall i :: 0 <= i < |r| ==> r[i].file == files[i].path
  {
    seq(|files|, i requires 0 <= i < |files| => Record(files[i].path))
  }

  class TrapFileCache {
    const directory: Directory
    /** The byte budget. */
    const cacheSize: nat

    ghost predicate Valid()
      reads this, directory
    {
      directory.Valid()
    }

    /** `init?(maxSize:)` once the directory exists; the case where it
        cannot be created (the initializer returns nil) is an absent cache
        for the code that owns one. */
    constructor (directory: Directory, maxSize: nat)
      requires maxSize <= UInt64Max
      ensures this.directory == directory && cacheSize == maxSize
    {
      this.directory := directory;
      cacheSize := maxSize;
    }

    /** `files()`. */
    method ListFiles() returns (r: Result<seq<FileEntry>>)
      requires Valid()
      modifies directory
      ensures Valid() && directory.entries == old(directory.entries)
      ensures r.Ok? ==> r.value == Files(directory.entries) && directory.refusals == old(directory.refusals)
      ensures r.Err? ==> r.error == IoError && directory.refusals == old(directory.refusals) + [ListRefused]
    {
      var listing := directory.List();
      if listing.Err? {
        return Err(listing.error);
      }
      r := Ok(Files(listing.value));
    }

    /** `getAll()`: a record per file, oldest first. */
    method GetAll() returns (r: Result<seq<Record>>)
      requires Valid()
      modifies directory
      ensures Valid() && directory.entries == old(directory.entries)
      ensures r.Ok? ==> r.value == Records(Files(directory.entries)) && directory.refusals == old(directory.refusals)
      ensures r.Err? ==> r.error == IoError && directory.refusals == old(directory.refusals) + [ListRefused]
    {
      var targets := ListFiles();
      if targets.Err? {
        return Err(targets.error);
      }
      r := Ok(Records(targets.value));
    }

    /** `cleanup()`: walks the files oldest first with a running total and
        deletes every file at which the total exceeds the budget. The
        `UInt64` total would trap on overflow, so the sizes must add up to
        a `UInt64`. A failed delete ends the walk; the deletions before it
        stay done. */
    method Cleanup() returns (err: Option<Error>, ghost deleted: nat)
      requires Valid() && SumSizes(directory.entries) <= UInt64Max
      modifies directory
      ensures Valid()
      ensures deleted <= |Evicted(Files(old(directory.entries)), cacheSize)|
      ensures directory.entries == Without(old(directory.entries), PathSet(Evicted(Files(old(directory.entries)), cacheSize)[..deleted]))
      ensures err.None? ==> deleted == |Evicted(Files(old(directory.entries)), cacheSize)| && directory.refusals == old(directory.refusals)
      ensures err.Some? ==> err == Some(IoError)
      ensures err.Some? ==>
        || (deleted == 0 && directory.refusals == old(directory.refusals) + [ListRefused])
        || (deleted < |Evicted(Files(old(directory.entries)), cacheSize)| &&
            directory.refusals == old(directory.refusals) + [RemoveRefused(Evicted(Files(old(directory.entries)), cacheSize)[deleted].path)])
    {
      var listing := ListFiles();
      if listing.Err? {
        WithoutNothing(directory.entries, {});
        DeletedSoFar(Files(directory.entries), cacheSize, 0);
        return Some(listing.error), 0;
      }
      var targets := listing.value;
      SumPermutation(targets, directory.entries);
      ghost var stopped;
      err, stopped := Walk(targets);
      DeletedSoFar(targets, cacheSize, stopped);
      deleted := |DeletedBy(targets, cacheSize, stopped)|;
      if err.Some? {
        StoppedAtEvicted(targets, cacheSize, stopped);
      }
    }

    /** The walk of `cleanup` over the sorted listing `targets`. It stops
        after `stopped` files: all of them, or the one whose delete failed. */
    method Walk(targets: seq<FileEntry>) returns (err: Option<Error>, ghost stopped: nat)
      requires Valid() && SumSizes(targets) <= UInt64Max
      modifies directory
      ensures Valid()
      ensures stopped <= |targets|
      ensures directory.entries == Without(old(directory.entries), PathSet(DeletedBy(targets, cacheSize, stopped)))
      ensures err.None? ==> stopped == |targets| && directory.refusals == old(directory.refusals)
      ensures err.Some? ==> err == Some(IoError) && stopped < |targets| && SumSizes(targets[..stopped + 1]) > cacheSize
      ensures err.Some? ==> directory.refusals == old(directory.refusals) + [RemoveRefused(targets[stopped].path)]
    {
      ghost var start := directory.entries;
      WithoutNothing(start, {});
      DeletedSoFar(targets, cacheSize, 0);
      var total: nat := 0;
      var i := 0;
      while i < |targets|
        invariant 0 <= i <= |targets|
        invariant Valid()
        invariant total == SumSizes(targets[..i])
        invariant directory.entries == Without(start, PathSet(DeletedBy(targets, cacheSize, i)))
        invariant directory.refusals == old(directory.refusals)
      {
        RunningTotal(targets, i);
        total := total + targets[i].size;
        assert total <= UInt64Max;
        var e := WalkFile(targets, start, i, total);
        if e.Some? {
          return e, i;
        }
        i := i + 1;
      }
      err, stopped := None, i;
    }

    /** One file of the walk, `total` being the running total through it:
        the file is deleted when the total is over the budget. */
    method WalkFile(targets: seq<FileEntry>, ghost start: seq<FileEntry>, i: nat, total: nat) returns (err: Option<Error>)
      requires Valid() && i < |targets| && total == SumSizes(targets[..i + 1])
      requires directory.entries == Without(start, PathSet(DeletedBy(targets, cacheSize, i)))
      modifies directory
      ensures Valid()
      ensures err.None? ==> directory.entries == Without(start, PathSet(DeletedBy(targets, cacheSize, i + 1)))
      ensures err.None? ==> directory.refusals == old(directory.refusals)
      ensures err.Some? ==> err == Some(IoError) && total > cacheSize && directory.entries == old(directory.entries)
      ensures err.Some? ==> directory.refusals == old(directory.refusals) + [RemoveRefused(targets[i].path)]
    {
      WalkStep(start, targets, cacheSize, i);
      err := None;
      if total > cacheSize {
        err := directory.Remove(targets[i].path);
      }
    }

    /** `push(data:)`: cleanup first, then the new file under a fresh name
        (a new UUID, `file`) dated `now`. If cleanup throws, nothing is
        written. */
    method Push(data: string, file: string, now: int) returns (err: Option<Error>, ghost deleted: nat)
      requires Valid() && SumSizes(directory.entries) <= UInt64Max
      requires forall e :: e in directory.entries ==> e.path != file
      modifies directory
      ensures Valid()
      ensures err.None? ==> directory.entries == Pushed(old(directory.entries), cacheSize, FileEntry(file, data, Utf8Size(data), now))
      ensures err.Some? ==> (err == Some(IoError) &&
        forall e :: e in directory.entries ==> e in old(directory.entries))
      ensures err.Some? ==>
        PushFailed(old(directory.entries), cacheSize, file, deleted, old(directory.refusals), directory.refusals, directory.entries)
      ensures Logged(old(directory.refusals), directory.refusals, err)
    {
      ghost var evicted := Evicted(Files(directory.entries), cacheSize);
      err, deleted := Cleanup();
      if err.Some? {
        WithoutSubset(old(directory.entries), PathSet(evicted[..deleted]));
        return;
      }
      assert evicted[..deleted] == evicted;
      WithoutSubset(old(directory.entries), PathSet(evicted));
      err := directory.Write(file, data, now);
    }
  }
}

/** The cache's unit tests, stated on the directory contents the operations
    of `FileCache` are specified by. */
module FileCacheScenarios {
  import opened Sorting
  import opened FileCache

  /** Nothing is evicted while the running total of the whole listing stays
      within the budget. */
  lemma {:induction false} KeptAllUnderBudget(targets: seq<FileEntry>, budget: nat, total: nat)
    requires total + SumSizes(targets) <= budget
    ensures KeptCount(targets, budget, total) == |targets|
  {
    if targets != [] {
      KeptAllUnderBudget(targets[1..], budget, total + targets[0].size);
    }
  }

  /** A push into a cache within its budget deletes nothing. */
  lemma PushUnderBudget(listing: seq<FileEntry>, budget: nat, file: FileEntry)
    requires SumSizes(listing) <= budget
    ensures Pushed(listing, budget, file) == listing + [file]
  {
    var targets := Files(listing);
    SumPermutation(targets, listing);
    KeptAllUnderBudget(targets, budget, 0);
    assert Evicted(targets, budget) == [];
    assert PathSet(Evicted(targets, budget)) == {};
    WithoutNothing(listing, {});
  }

  /** A total of `n` files of size `size` each. */
  lemma {:induction false} UniformSum(s: seq<FileEntry>, size: nat)
    requires forall k :: 0 <= k < |s| ==> s[k].size == size
    ensures SumSizes(s) == |s| * size
  {
    if s != [] {
      UniformSum(s[1..], size);
    }
  }

  /** The packets `testOverCapacity` pushes: a common text followed by the
      packet's number, 1 to 10. */
  const PacketText: string := "This is a test This is a test "

  function PacketNumber(k: nat): string
    requires 1 <= k <= 10
  {
    if k == 10 then "10" else [('0' as int + k) as char]
  }

  function OverCapacityPacket(k: nat): string
    requires 1 <= k <= 10
  {
    PacketText + PacketNumber(k)
  }

  /** The first nine packets take 31 bytes, the tenth 32. */
  lemma PacketSize(k: nat)
    requires 1 <= k <= 10
    ensures Utf8Size(OverCapacityPacket(k)) == if k == 10 then 32 else 31
  {
    var t, n := PacketText, PacketNumber(k);
    assert |t| == 30;
    AsciiSize(t + n);
  }

  /** The files those pushes write: fresh paths, created one after the
      other. */
  function OverCapacityFiles(paths: seq<string>): (r: seq<FileEntry>)
    requires |paths| == 10
    ensures |r| == 10
  {
    seq(10, k requires 0 <= k < 10 => FileEntry(paths[k], OverCapacityPacket(k + 1), Utf8Size(OverCapacityPacket(k + 1)), k))
  }

  lemma OverCapacitySizes(paths: seq<string>)
    requires |paths| == 10
    ensures forall k :: 0 <= k < 9 ==> OverCapacityFiles(paths)[k].size == 31
    ensures OverCapacityFiles(paths)[9].size == 32
  {
    forall k | 0 <= k < 10 ensures OverCapacityFiles(paths)[k].size == if k == 9 then 32 else 31 {
      PacketSize(k + 1);
    }
  }

  /** Nine files of 31 bytes under a 256-byte budget: the walk keeps the
      first eight (248 bytes) and deletes the ninth, at which the running
      total reaches 279. */
  lemma KeepsEight(first: seq<FileEntry>)
    requires |first| == 9 && forall k :: 0 <= k < 9 ==> first[k].size == 31
    ensures Evicted(first, 256) == [first[8]]
  {
    var k := KeptCount(first, 256, 0);
    KeptCountIsLongest(first, 256, 0);
    UniformSum(first[..k], 31);
    if k < 9 {
      UniformSum(first[..k + 1], 31);
    }
  }

  /** Removing the last file's path from a listing with distinct paths
      leaves the others. */
  lemma WithoutLast(s: seq<FileEntry>)
    requires |s| > 0 && DistinctPaths(s)
    ensures Without(s, PathSet([s[|s| - 1]])) == s[..|s| - 1]
  {
    var n := |s| - 1;
    assert PathSet([s[n]]) == {s[n].path};
    assert s == s[..n] + [s[n]];
    WithoutConcat(s[..n], [s[n]], {s[n].path});
    WithoutNothing(s[..n], {s[n].path});
  }

  /** The tenth push: the files, oldest first, are the nine pushed before,
      and the walk deletes the ninth. */
  lemma EvictsNinth(first: seq<FileEntry>, last: FileEntry)
    requires |first| == 9 && DistinctPaths(first) && SortedBy(first, Created)
    requires forall k :: 0 <= k < 9 ==> first[k].size == 31
    ensures Pushed(first, 256, last) == first[..8] + [last]
  {
    SortSorted(first, Created);
    KeepsEight(first);
    WithoutLast(first);
  }

  /** The first nine pushes of 31-byte files delete nothing: before each
      of them the cache holds at most 248 bytes. */
  lemma NinePushesKeepAll(files: seq<FileEntry>)
    requires |files| >= 9 && forall k :: 0 <= k < 9 ==> files[k].size == 31
    ensures forall j :: 0 <= j < 9 ==> Pushed(files[..j], 256, files[j]) == files[..j + 1]
  {
    forall j | 0 <= j < 9 ensures Pushed(files[..j], 256, files[j]) == files[..j + 1] {
      PrefixOfUniform(files, j);
      PushKeepsAll(files, j);
    }
  }

  lemma PrefixOfUniform(files: seq<FileEntry>, j: nat)
    requires j < 9 <= |files| && forall k :: 0 <= k < 9 ==> files[k].size == 31
    ensures SumSizes(files[..j]) <= 256
  {
    var before := files[..j];
    assert forall k :: 0 <= k < |before| ==> before[k].size == 31;
    UniformSum(before, 31);
  }

  lemma PushKeepsAll(files: seq<FileEntry>, j: nat)
    requires j < |files| && SumSizes(files[..j]) <= 256
    ensures Pushed(files[..j], 256, files[j]) == files[..j + 1]
  {
    PushUnderBudget(files[..j], 256, files[j]);
    PrefixSnoc(files, j);
  }

  lemma PrefixSnoc(files: seq<FileEntry>, j: nat)
    requires j < |files|
    ensures files[..j] + [files[j]] == files[..j + 1]
  {
  }

  /** A prefix of a listing keeps its distinct paths and its date order. */
  lemma PrefixKeepsOrder(files: seq<FileEntry>, n: nat)
    requires n <= |files| && DistinctPaths(files) && SortedBy(files, Created)
    ensures DistinctPaths(files[..n]) && SortedBy(files[..n], Created)
  {
    forall i, j | 0 <= i < j < n ensures files[..n][i].path != files[..n][j].path && files[..n][i].created <= files[..n][j].created {
      assert files[..n][i] == files[i] && files[..n][j] == files[j];
    }
  }

  /** Ten pushes of nine files of 31 bytes and a tenth of any size, in
      creation order, under a 256-byte budget, starting from an empty
      cache: every push but the last adds its file, and the last deletes
      the ninth file before adding its own. */
  lemma TenPushes(files: seq<FileEntry>)
    requires |files| == 10 && DistinctPaths(files) && SortedBy(files, Created)
    requires forall k :: 0 <= k < 9 ==> files[k].size == 31
    ensures forall j :: 0 <= j < 9 ==> Pushed(files[..j], 256, files[j]) == files[..j + 1]
    ensures Pushed(files[..9], 256, files[9]) == files[..8] + [files[9]]
  {
    NinePushesKeepAll(files);
    PrefixKeepsOrder(files, 9);
    EvictsNinth(files[..9], files[9]);
    assert files[..9][..8] == files[..8];
  }

  /** `testOverCapacity`: ten pushes of 31 and 32 bytes under a 256-byte
      budget leave nine files. The walk keeps the oldest eight, which fit,
      and deletes the ninth at the tenth push; the tenth is then written. */
  lemma OverCapacityLeavesNine(paths: seq<string>)
    requires |paths| == 10 && forall i, j :: 0 <= i < j < 10 ==> paths[i] != paths[j]
    ensures var files := OverCapacityFiles(paths);
      && (forall j :: 0 <= j < 9 ==> Pushed(files[..j], 256, files[j]) == files[..j + 1])
      && Pushed(files[..9], 256, files[9]) == files[..8] + [files[9]]
      && |Pushed(files[..9], 256, files[9])| == 9
  {
    var files := OverCapacityFiles(paths);
    OverCapacitySizes(paths);
    assert forall k :: 0 <= k < 10 ==> files[k].path == paths[k] && files[k].created == k;
    TenPushes(files);
  }

  /** `testStoreRetrieve`: after one push into an empty cache, `getAll`
      lists one record and its content is the pushed text. */
  lemma StoreRetrieve(path: string, now: int)
    ensures var listing := Pushed([], 1024, FileEntry(path, "This is a test", Utf8Size("This is a test"), now));
      |Files(listing)| == 1 && Files(listing)[0].path == path && Files(listing)[0].content == "This is a test"
  {
    var file := FileEntry(path, "This is a test", Utf8Size("This is a test"), now);
    PushUnderBudget([], 1024, file);
    assert Files([file]) == [file];
  }
}
