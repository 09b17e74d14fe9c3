/**
 * The retention rule the local, WebDAV and S3 providers share (internal/provider/local.go,
 * webdav.go, s3.go): backup files are named backup_<task>_<time>.json; the candidates
 * are sorted newest first in place, and every candidate past index maxCount is deleted.
 */
module Retention {
  import opened Strings

  /** A modification time; S3 may report none, and such an object sorts after every dated one. */
  datatype Stamp = Known(time: int) | Unknown

  /** The sort's comparison: a dated entry is newer than an older one and than an undated one. */
  predicate Newer(a: Stamp, b: Stamp) {
    a.Known? && (b.Unknown? || a.time > b.time)
  }

  /** A file that takes part in retention: its name (or S3 key) and its time. */
  datatype Candidate = Candidate(name: string, stamp: Stamp)

  /** No candidate is newer than one before it. */
  predicate NewestFirst(s: seq<Candidate>) {
    forall p, q :: 0 <= p < q < |s| ==> !Newer(s[q].stamp, s[p].stamp)
  }

  /** The file name every provider gives a backup. */
  function BackupFileName(taskName: string, timestamp: string): string {
    "backup_" + taskName + "_" + timestamp + ".json"
  }

  /** The local and WebDAV cleanup filter on names. */
  predicate IsBackupName(name: string) {
    HasPrefix(name, "backup_") && HasSuffix(name, ".json")
  }

  /** Every name Backup writes passes the cleanup filter, so old backups are found again. */
  lemma BackupFileNameIsRecognised(taskName: string, timestamp: string)
    ensures IsBackupName(BackupFileName(taskName, timestamp))
  {
    var n := BackupFileName(taskName, timestamp);
    assert n[..|"backup_"|] == "backup_";
    assert n[|n| - |".json"|..] == ".json";
  }

  /**
   * filepath.Join of a directory and a plain file name: the name alone when the directory
   * is empty, else directory and name with exactly one "/" between them.
   */
  function JoinPath(dir: string, name: string): (r: string)
    ensures dir == "" ==> r == name
    ensures dir != "" ==> HasSuffix(r, name) && HasPrefix(r, dir)
  {
    if dir == "" then name
    else if dir[|dir| - 1] == '/' then dir + name
    else dir + "/" + name
  }

  /** The first n candidates are newest first. */
  predicate NewestFirstUpTo(s: seq<Candidate>, n: nat) {
    forall p, q :: 0 <= p < q < n && q < |s| ==> !Newer(s[q].stamp, s[p].stamp)
  }

  /** Midway through inserting s[j] (which started at i): the rest of s[..i+1] is in order, and nothing after j is newer than s[j]. */
  predicate Inserting(s: seq<Candidate>, j: nat, i: nat) {
    j <= i < |s|
    && (forall p, q :: 0 <= p < q <= i && q != j && p != j ==> !Newer(s[q].stamp, s[p].stamp))
    && (forall q :: j < q <= i ==> !Newer(s[q].stamp, s[j].stamp))
  }

  /** s with the entries at j - 1 and j exchanged. */
  function SwapDown(s: seq<Candidate>, j: nat): (r: seq<Candidate>)
    requires 0 < j < |s|
    ensures |r| == |s| && r[j - 1] == s[j] && r[j] == s[j - 1]
    ensures forall k :: 0 <= k < |s| && k != j - 1 && k != j ==> r[k] == s[k]
    ensures multiset(r) == multiset(s)
  {
    var r := s[j - 1 := s[j]][j := s[j - 1]];
    assert s == s[..j - 1] + [s[j - 1], s[j]] + s[j + 1..];
    assert r == s[..j - 1] + [s[j], s[j - 1]] + s[j + 1..];
    r
  }

  lemma InsertingStarts(s: seq<Candidate>, i: nat)
    requires i < |s| && NewestFirstUpTo(s, i)
    ensures Inserting(s, i, i)
  {
  }

  /** Moving a newer entry down one place keeps the insertion going. */
  lemma InsertingSwap(s: seq<Candidate>, j: nat, i: nat)
    requires Inserting(s, j, i) && 0 < j && Newer(s[j].stamp, s[j - 1].stamp)
    ensures Inserting(SwapDown(s, j), j - 1, i)
  {
  }

  /** Once the entry is not newer than the one before it (or at the front), s[..i+1] is in order. */
  lemma InsertingEnds(s: seq<Candidate>, j: nat, i: nat)
    requires Inserting(s, j, i) && (j == 0 || !Newer(s[j].stamp, s[j - 1].stamp))
    ensures NewestFirstUpTo(s, i + 1)
  {
  }

  /** One insertion step: a[i] moves down past every entry older than it. */
  method InsertNewest(a: array<Candidate>, i: nat)
    requires i < a.Length && NewestFirstUpTo(a[..], i)
    modifies a
    ensures NewestFirstUpTo(a[..], i + 1)
    ensures multiset(a[..]) == multiset(old(a[..]))
  {
    InsertingStarts(a[..], i);
    var j: nat := i;
    while j > 0 && Newer(a[j].stamp, a[j - 1].stamp)
      invariant Inserting(a[..], j, i)
      invariant multiset(a[..]) == multiset(old(a[..]))
    {
      InsertingSwap(a[..], j, i);
      ghost var next := SwapDown(a[..], j);
      a[j - 1], a[j] := a[j], a[j - 1];
      assert a[..] == next;
      j := j - 1;
    }
    InsertingEnds(a[..], j, i);
  }

  /** sort.Slice with the "newer" comparison, as an insertion sort by adjacent swaps. */
  method SortNewestFirst(a: array<Candidate>)
    modifies a
    ensures NewestFirst(a[..])
    ensures multiset(a[..]) == multiset(old(a[..]))
  {
    for i := 0 to a.Length
      invariant NewestFirstUpTo(a[..], i)
      invariant multiset(a[..]) == multiset(old(a[..]))
    {
      InsertNewest(a, i);
    }
  }

  /** The candidates sorted newest first: a permutation of them, in order. */
  method SortedCandidates(cands: seq<Candidate>) returns (sorted: seq<Candidate>)
    ensures |sorted| == |cands|
    ensures multiset(sorted) == multiset(cands)
    ensures NewestFirst(sorted)
  {
    var a := new Candidate[|cands|](i requires 0 <= i < |cands| => cands[i]);
    assert a[..] == cands;
    SortNewestFirst(a);
    sorted := a[..];
  }

  /** Splitting a newest-first list at maxCount keeps entries that are all at least as new as every deleted one. */
  lemma KeepsNewest(sorted: seq<Candidate>, maxCount: nat)
    requires NewestFirst(sorted) && maxCount <= |sorted|
    ensures |sorted[..maxCount]| == maxCount
    ensures multiset(sorted[..maxCount]) + multiset(sorted[maxCount..]) == multiset(sorted)
    ensures forall p, q :: 0 <= p < maxCount && 0 <= q < |sorted| - maxCount ==>
      !Newer(sorted[maxCount..][q].stamp, sorted[..maxCount][p].stamp)
  {
    assert sorted == sorted[..maxCount] + sorted[maxCount..];
  }

  /**
   * What the selection step promises: with at most maxCount candidates nothing is
   * targeted; otherwise exactly the surplus is, drawn from the candidates, and every
   * candidate kept is at least as new as every one targeted.
   */
  predicate SelectsOldest(cands: seq<Candidate>, maxCount: nat, targets: seq<Candidate>) {
    (|cands| <= maxCount ==> targets == [])
    && (|cands| > maxCount ==>
          |targets| == |cands| - maxCount
          && multiset(targets) <= multiset(cands)
          && forall x, y :: x in multiset(cands) - multiset(targets) && y in targets ==> !Newer(y.stamp, x.stamp))
  }

  /** The selection step: nothing when there are few enough, else sort newest first and take everything from index maxCount on. */
  method SelectForDeletion(cands: seq<Candidate>, maxCount: nat) returns (targets: seq<Candidate>)
    ensures SelectsOldest(cands, maxCount, targets)
  {
    if |cands| <= maxCount {
      return [];
    }
    var sorted := SortedCandidates(cands);
    KeepsNewest(sorted, maxCount);
    var kept := sorted[..maxCount];
    targets := sorted[maxCount..];
    assert multiset(cands) - multiset(targets) == multiset(kept);
    forall x: Candidate, y: Candidate | x in multiset(kept) && y in targets
      ensures !Newer(y.stamp, x.stamp)
    {
      assert x in kept;
      var p :| 0 <= p < maxCount && kept[p] == x;
      var q :| 0 <= q < |targets| && targets[q] == y;
    }
  }

  /** How many of `targets` the delete step reports removed. */
  function CountRemoved(targets: seq<Candidate>, dir: string, removed: string -> bool): (r: nat)
    ensures r <= |targets|
  {
    if targets == [] then 0
    else
      var last := if removed(JoinPath(dir, targets[|targets| - 1].name)) then 1 else 0;
      CountRemoved(targets[..|targets| - 1], dir, removed) + last
  }

  /** Every delete succeeding counts every target; every delete failing counts none. */
  lemma {:induction false} CountRemovedBounds(targets: seq<Candidate>, dir: string, removed: string -> bool)
    ensures (forall k :: 0 <= k < |targets| ==> removed(JoinPath(dir, targets[k].name)))
      ==> CountRemoved(targets, dir, removed) == |targets|
    ensures (forall k :: 0 <= k < |targets| ==> !removed(JoinPath(dir, targets[k].name)))
      ==> CountRemoved(targets, dir, removed) == 0
  {
    if targets != [] {
      CountRemovedBounds(targets[..|targets| - 1], dir, removed);
    }
  }

  /** The delete loop: a failed delete is skipped and not counted. */
  method DeleteOld(targets: seq<Candidate>, dir: string, removed: string -> bool) returns (deleted: nat)
    ensures deleted == CountRemoved(targets, dir, removed)
  {
    deleted := 0;
    for i := 0 to |targets|
      invariant deleted == CountRemoved(targets[..i], dir, removed)
    {
      assert targets[..i + 1][..i] == targets[..i];
      if removed(JoinPath(dir, targets[i].name)) {
        deleted := deleted + 1;
      }
    }
    assert targets[..|targets|] == targets;
  }

  /** With every removal succeeding, the cleanup deletes exactly the surplus and keeps the newest maxCount. */
  lemma AllRemovedDeletesSurplus(cands: seq<Candidate>, maxCount: nat, targets: seq<Candidate>, dir: string, removed: string -> bool)
    requires SelectsOldest(cands, maxCount, targets)
    requires forall p :: removed(p)
    ensures CountRemoved(targets, dir, removed) == (if |cands| <= maxCount then 0 else |cands| - maxCount)
  {
    CountRemovedBounds(targets, dir, removed);
  }
}
