/** Record files as `glob` lists them, with the modification time `os.path.getmtime` reports. */
module Files {

  datatype FileEntry = FileEntry(path: string, mtime: int)

  ghost predicate NewestFirst(fs: seq<FileEntry>) {
    forall i, j :: 0 <= i < j < |fs| ==> fs[i].mtime >= fs[j].mtime
  }

  /** Inserts `f` ahead of the first entry that is not newer, so equal times keep their order. */
  function InsertByMtime(f: FileEntry, sorted: seq<FileEntry>): (r: seq<FileEntry>)
    requires NewestFirst(sorted)
    ensures NewestFirst(r)
    ensures multiset(r) == multiset(sorted) + multiset{f}
    ensures |r| == |sorted| + 1
  {
    if sorted == [] || sorted[0].mtime <= f.mtime then [f] + sorted
    else
      var rest := InsertByMtime(f, sorted[1..]);
      assert sorted == [sorted[0]] + sorted[1..];
      BoundedByHead(f, sorted, rest);
      [sorted[0]] + rest
  }

  lemma BoundedByHead(f: FileEntry, sorted: seq<FileEntry>, rest: seq<FileEntry>)
    requires sorted != [] && NewestFirst(sorted) && f.mtime <= sorted[0].mtime
    requires multiset(rest) == multiset(sorted[1..]) + multiset{f}
    ensures forall j :: 0 <= j < |rest| ==> rest[j].mtime <= sorted[0].mtime
  {
    forall j | 0 <= j < |rest|
      ensures rest[j].mtime <= sorted[0].mtime
    {
      assert rest[j] in multiset(rest);
      if rest[j] != f {
        assert rest[j] in multiset(sorted[1..]);
        var m :| 0 <= m < |sorted[1..]| && sorted[1..][m] == rest[j];
        assert sorted[m + 1] == rest[j];
      }
    }
  }

  /** `files.sort(key=os.path.getmtime, reverse=True)`: newest first, the same files. */
  function SortNewestFirst(fs: seq<FileEntry>): (r: seq<FileEntry>)
    ensures NewestFirst(r)
    ensures multiset(r) == multiset(fs)
    ensures |r| == |fs|
  {
    if fs == [] then []
    else
      assert fs == [fs[0]] + fs[1..];
      InsertByMtime(fs[0], SortNewestFirst(fs[1..]))
  }

  /** The first entry of the sorted list is a listed file at least as new as every other. */
  lemma SortedHeadIsNewest(fs: seq<FileEntry>)
    requires fs != []
    ensures SortNewestFirst(fs)[0] in fs
    ensures forall g :: g in fs ==> g.mtime <= SortNewestFirst(fs)[0].mtime
  {
    var s := SortNewestFirst(fs);
    assert s[0] in multiset(fs);
    forall g | g in fs
      ensures g.mtime <= s[0].mtime
    {
      assert g in multiset(s);
      var j :| 0 <= j < |s| && s[j] == g;
    }
  }

  /** Where `sorted` puts `f`: in front exactly when the head is not newer. */
  lemma InsertHead(f: FileEntry, sorted: seq<FileEntry>)
    requires NewestFirst(sorted)
    ensures InsertByMtime(f, sorted)[0] == if sorted == [] || sorted[0].mtime <= f.mtime then f else sorted[0]
  {
  }

  /** The head of the sorted list, from the head of the sorted rest. */
  lemma SortHead(fs: seq<FileEntry>)
    requires |fs| >= 2
    ensures var h := SortNewestFirst(fs[1..])[0];
      SortNewestFirst(fs)[0] == if h.mtime <= fs[0].mtime then fs[0] else h
  {
    var rest := SortNewestFirst(fs[1..]);
    assert SortNewestFirst(fs) == InsertByMtime(fs[0], rest);
    InsertHead(fs[0], rest);
  }

  /** Index of the first entry of the greatest modification time. */
  function FirstNewest(fs: seq<FileEntry>): (i: nat)
    requires fs != []
    ensures i < |fs|
    ensures forall j :: 0 <= j < |fs| ==> fs[j].mtime <= fs[i].mtime
    ensures forall j :: 0 <= j < i ==> fs[j].mtime < fs[i].mtime
  {
    if |fs| == 1 then 0
    else
      var tail := fs[1..];
      var k := FirstNewest(tail);
      assert forall j :: 1 <= j < |fs| ==> fs[j] == tail[j - 1];
      if tail[k].mtime <= fs[0].mtime then 0 else k + 1
  }

  /**
   * The sort is stable: its head is the first listed entry of the greatest
   * modification time, as `list.sort(reverse=True)` keeps equal keys in order.
   */
  lemma {:induction false} SortedHeadIsFirstNewest(fs: seq<FileEntry>)
    requires fs != []
    ensures SortNewestFirst(fs)[0] == fs[FirstNewest(fs)]
    decreases |fs|
  {
    if |fs| > 1 {
      SortHead(fs);
      SortedHeadIsFirstNewest(fs[1..]);
    }
  }
}
