/** The research archive's disk budget: sealed chunks are pruned oldest first, the live file and
    the configuration snapshots never. */
module Archive {
  import opened Text
  import opened ChunkNames
  import opened Directory

  const LIVE := "matches.jsonl"

  /** Files that are no sealed chunk stay as they are. */
  ghost predicate OnlyChunksTouched(before: Files, after: Files) {
    after.Keys <= before.Keys && (forall n :: n in after ==> after[n] == before[n])
    && forall n :: n in before && !IsRotatedSibling(LIVE, n) ==> n in after
  }

  lemma RemovalTouchesChunks(files: Files, list: seq<string>, k: nat, undeletable: set<string>)
    requires IsListing(list, Siblings(files, LIVE)) && k <= |list|
    ensures OnlyChunksTouched(files, Removed(files, list, k, undeletable))
  {
    hide IsRotatedSibling;
    assert Elems(list[..k]) <= Elems(list);
  }

  class MatchArchive {
    const dir: Directory
    const maxTotalBytes: nat
    /** Bytes of the nested snapshot files. */
    const snapshotBytes: nat

    constructor (dir: Directory, maxTotalBytes: nat, snapshotBytes: nat)
      ensures this.dir == dir && this.maxTotalBytes == maxTotalBytes && this.snapshotBytes == snapshotBytes
    {
      this.dir, this.maxTotalBytes, this.snapshotBytes := dir, maxTotalBytes, snapshotBytes;
    }

    method DirByteTotal() returns (total: nat)
      ensures total == Total(dir.files, dir.files.Keys) + snapshotBytes
    {
      total := snapshotBytes;
      var left := dir.files.Keys;
      while left != {}
        invariant left <= dir.files.Keys
        invariant total + Total(dir.files, left) == Total(dir.files, dir.files.Keys) + snapshotBytes
        decreases |left|
      {
        var n :| n in left;
        TotalPick(dir.files, left, n);
        total, left := total + dir.files[n].size, left - {n};
      }
    }

    /** Remove the shortest oldest-first run of sealed chunks that brings the directory within its
        budget, or all of them. Removals that fail are skipped; no budget means no pruning. */
    method PruneSealedToBudget() returns (ghost list: seq<string>, ghost k: nat)
      modifies dir
      ensures OnlyChunksTouched(old(dir.files), dir.files)
      ensures IsListing(list, old(Siblings(dir.files, LIVE))) && k <= |list|
      ensures dir.files == Removed(old(dir.files), list, k, dir.undeletable)
      ensures if maxTotalBytes == 0 then k == 0
        else IsShortestPrune(old(dir.files), list, k, dir.undeletable, old(dir.files.Keys), maxTotalBytes - snapshotBytes)
    {
      var siblings := dir.ListRotated(LIVE);
      list, k := siblings, 0;
      RemovalTouchesChunks(dir.files, list, 0, dir.undeletable);
      if maxTotalBytes == 0 { return; }
      ghost var before := dir.files;
      while true
        invariant k <= |list| && siblings == list[k..]
        invariant dir.files == Removed(before, list, k, dir.undeletable)
        invariant forall j :: 0 <= j < k ==>
          Total(Removed(before, list, j, dir.undeletable), before.Keys) > maxTotalBytes - snapshotBytes
        decreases |siblings|
      {
        var total := DirByteTotal();
        TotalSame(dir.files, dir.files, dir.files.Keys, before.Keys);
        RemovalTouchesChunks(before, list, k, dir.undeletable);
        if total <= maxTotalBytes || siblings == [] { return; }
        var oldest := siblings[0];
        siblings := siblings[1..];
        RemovedNext(before, list, k, dir.undeletable);
        assert oldest in Elems(list);
        LiveIsNoSibling(LIVE);
        if oldest != LIVE { dir.Remove(oldest); } else { assert false; } // the live file is no chunk
        k := k + 1;
      }
    }
  }

  /** When removals succeed: what is gone is older than any chunk that stays; the directory fits, or
      no chunk is left; and one removal fewer would not have been enough. */
  lemma PruneIsMinimal(files: Files, list: seq<string>, k: nat, budget: int)
    requires IsListing(list, Siblings(files, LIVE)) && k <= |list|
    requires IsShortestPrune(files, list, k, {}, files.Keys, budget)
    ensures var after := Removed(files, list, k, {});
      && (forall gone, kept :: gone in files && gone !in after && kept in Siblings(after, LIVE) ==>
           SortKey(gone) <= SortKey(kept))
      && (Total(after, after.Keys) <= budget || Siblings(after, LIVE) == {})
      && (k > 0 ==>
           list[k - 1] in files
           && Total(after[list[k - 1] := files[list[k - 1]]], after.Keys + {list[k - 1]}) > budget)
  {
    hide SortKey, IsRotatedSibling;
    var after := Removed(files, list, k, {});
    TotalSame(after, after, after.Keys, files.Keys);
    forall gone, kept | gone in files && gone !in after && kept in Siblings(after, LIVE)
      ensures SortKey(gone) <= SortKey(kept)
    {
      OlderThanKept(files, list, k, gone, kept);
    }
    if k == |list| {
      assert list[..k] == list;
      assert Siblings(after, LIVE) == {};
    }
    if k > 0 { OneFewer(files, list, k); }
  }

  lemma OlderThanKept(files: Files, list: seq<string>, k: nat, gone: string, kept: string)
    requires IsListing(list, Siblings(files, LIVE)) && k <= |list|
    requires gone in list[..k] && kept in Siblings(Removed(files, list, k, {}), LIVE)
    ensures SortKey(gone) <= SortKey(kept)
  {
    hide SortKey, IsRotatedSibling;
    assert kept in Elems(list) && kept !in list[..k];
    var i :| 0 <= i < k && list[i] == gone;
    var j :| 0 <= j < |list| && list[j] == kept;
  }

  lemma OneFewer(files: Files, list: seq<string>, k: nat)
    requires IsListing(list, Siblings(files, LIVE)) && 0 < k <= |list|
    ensures list[k - 1] in files
    ensures var after, last := Removed(files, list, k, {}), list[k - 1];
      Total(after[last := files[last]], after.Keys + {last}) == Total(Removed(files, list, k - 1, {}), files.Keys)
  {
    hide SortKey, IsRotatedSibling;
    var last := list[k - 1];
    assert last in Elems(list);
    RemovedNext(files, list, k - 1, {});
    var before := Removed(files, list, k - 1, {});
    assert last !in list[..k - 1];
    var back := Removed(files, list, k, {})[last := files[last]];
    assert back == before && back.Keys == Removed(files, list, k, {}).Keys + {last};
    TotalSame(back, before, back.Keys, files.Keys);
  }

  /** On the archive's own names, older means a smaller time stamp. */
  lemma PruneIsOldestFirst(files: Files, list: seq<string>, k: nat, t: nat, u: nat, gz: bool, zip: bool)
    requires IsListing(list, Siblings(files, LIVE)) && k <= |list| && t <= U128_MAX && u <= U128_MAX
    requires SealedName(LIVE, t, gz) in files && SealedName(LIVE, u, zip) in files
    requires var after := Removed(files, list, k, {});
      SealedName(LIVE, t, gz) !in after && SealedName(LIVE, u, zip) in after
    ensures t <= u
  {
    KeyOfName(LIVE, t, gz);
    KeyOfName(LIVE, u, zip);
    OlderThanKept(files, list, k, SealedName(LIVE, t, gz), SealedName(LIVE, u, zip));
  }
}
