/** A log directory: named files with a size, removals that may fail, and chunks listed oldest
    first. */
module Directory {
  import opened Text
  import opened ChunkNames

  /** `content` is what a reader gets, after decompression; `size` is the bytes on disk. */
  datatype File = File(content: string, size: nat)

  type Files = map<string, File>

  function SizeOf(files: Files, name: string): nat { if name in files then files[name].size else 0 }

  /** Bytes on disk of the named files. */
  ghost function Total(files: Files, names: set<string>): nat {
    if names == {} then 0
    else
      var n :| n in names;
      SizeOf(files, n) + Total(files, names - {n})
  }

  lemma {:induction false} TotalPick(files: Files, names: set<string>, x: string)
    requires x in names
    ensures Total(files, names) == SizeOf(files, x) + Total(files, names - {x})
    decreases |names|
  {
    var n :| n in names && Total(files, names) == SizeOf(files, n) + Total(files, names - {n});
    if n != x {
      TotalPick(files, names - {n}, x);
      TotalPick(files, names - {x}, n);
      assert names - {n} - {x} == names - {x} - {n};
    }
  }

  /** Every named file counts once, with its own size. */
  lemma TotalCounts(files: Files, names: set<string>, x: string)
    requires x in names && x in files
    ensures Total(files, names) == files[x].size + Total(files, names - {x})
  {
    TotalPick(files, names, x);
  }

  /** The total depends on the sizes of the named files only. */
  lemma {:induction false} TotalSame(files: Files, other: Files, names: set<string>, wider: set<string>)
    requires names <= wider
    requires forall n :: n in names ==> SizeOf(files, n) == SizeOf(other, n)
    requires forall n :: n in wider && n !in names ==> SizeOf(other, n) == 0
    ensures Total(files, names) == Total(other, wider)
    decreases |wider|
  {
    if wider != {} {
      var n :| n in wider;
      TotalPick(other, wider, n);
      if n in names {
        TotalPick(files, names, n);
        TotalSame(files, other, names - {n}, wider - {n});
      } else {
        TotalSame(files, other, names, wider - {n});
      }
    }
  }

  // ---------- chunks, oldest first ----------

  function Siblings(files: Files, live: string): set<string> {
    set n | n in files && IsRotatedSibling(live, n)
  }

  ghost predicate SortedByKey(list: seq<string>) {
    forall i, j :: 0 <= i < j < |list| ==> SortKey(list[i]) <= SortKey(list[j])
  }

  ghost predicate NoDuplicates(list: seq<string>) {
    forall i, j :: 0 <= i < j < |list| ==> list[i] != list[j]
  }

  ghost predicate IsListing(list: seq<string>, names: set<string>) {
    Elems(list) == names && NoDuplicates(list) && SortedByKey(list)
  }

  /** Keys that differ leave one listing only. */
  lemma {:induction false} ListingIsUnique(list: seq<string>, other: seq<string>)
    requires IsListing(list, Elems(other)) && SortedByKey(other)
    requires forall i, j :: 0 <= i < j < |other| ==> SortKey(other[i]) < SortKey(other[j])
    ensures list == other
  {
    hide SortKey;
    assert |list| > 0 ==> list[0] in Elems(list);
    assert |other| > 0 ==> other[0] in Elems(other);
    if list != [] {
      FirstAgrees(list, other);
      assert Elems(list[1..]) == Elems(list) - {list[0]} by {
        assert list == [list[0]] + list[1..];
      }
      assert Elems(other[1..]) == Elems(other) - {other[0]} by {
        assert other == [other[0]] + other[1..];
      }
      ListingIsUnique(list[1..], other[1..]);
      assert list == [list[0]] + list[1..] && other == [other[0]] + other[1..];
    }
  }

  lemma FirstAgrees(list: seq<string>, other: seq<string>)
    requires list != [] && other != []
    requires IsListing(list, Elems(other))
    requires forall i, j :: 0 <= i < j < |other| ==> SortKey(other[i]) < SortKey(other[j])
    ensures list[0] == other[0]
  {
    assert other[0] in Elems(list) && list[0] in Elems(other);
    var i :| 0 <= i < |list| && list[i] == other[0];
    var j :| 0 <= j < |other| && other[j] == list[0];
    assert SortKey(list[0]) <= SortKey(list[i]);
  }

  function InsertByKey(x: string, list: seq<string>): seq<string> {
    if list == [] then [x]
    else if SortKey(x) < SortKey(list[0]) then [x] + list
    else [list[0]] + InsertByKey(x, list[1..])
  }

  lemma {:induction false} InsertByKeyElems(x: string, list: seq<string>)
    ensures Elems(InsertByKey(x, list)) == Elems(list) + {x}
    ensures |InsertByKey(x, list)| == |list| + 1
  {
    hide SortKey;
    if list != [] {
      assert list == [list[0]] + list[1..];
      InsertByKeyElems(x, list[1..]);
      assert Elems([list[0]] + InsertByKey(x, list[1..])) == {list[0]} + Elems(InsertByKey(x, list[1..]));
    }
  }

  lemma PrependByKey(h: string, rest: seq<string>)
    requires SortedByKey(rest) && NoDuplicates(rest)
    requires forall x :: x in rest ==> SortKey(h) <= SortKey(x) && h != x
    ensures SortedByKey([h] + rest) && NoDuplicates([h] + rest)
  {
    hide SortKey;
  }

  lemma {:induction false} InsertByKeySorts(x: string, list: seq<string>)
    requires SortedByKey(list) && NoDuplicates(list) && x !in list
    ensures SortedByKey(InsertByKey(x, list)) && NoDuplicates(InsertByKey(x, list))
  {
    hide SortKey;
    if list != [] {
      if SortKey(x) < SortKey(list[0]) {
        PrependByKey(x, list);
      } else {
        InsertByKeySorts(x, list[1..]);
        InsertByKeyElems(x, list[1..]);
        var rest := InsertByKey(x, list[1..]);
        forall y | y in rest ensures SortKey(list[0]) <= SortKey(y) && list[0] != y {
          assert y in Elems(rest);
          if y != x { var k :| 0 < k < |list| && list[k] == y; }
        }
        PrependByKey(list[0], rest);
      }
    }
  }

  // ---------- pruning ----------

  /** The directory after trying to remove the first `k` listed files. */
  function Removed(files: Files, list: seq<string>, k: nat, undeletable: set<string>): Files
    requires k <= |list|
  {
    files - (Elems(list[..k]) - undeletable)
  }

  lemma RemovedNone(files: Files, list: seq<string>, undeletable: set<string>)
    ensures Removed(files, list, 0, undeletable) == files
  {
  }

  lemma RemovedNext(files: Files, list: seq<string>, k: nat, undeletable: set<string>)
    requires k < |list|
    ensures Removed(files, list, k + 1, undeletable) == Removed(files, list, k, undeletable) - ({list[k]} - undeletable)
  {
    assert list[..k + 1] == list[..k] + [list[k]];
    assert Elems(list[..k + 1]) == Elems(list[..k]) + {list[k]};
  }

  /** The shortest oldest-first run of removals that brings the counted files within the budget,
      or all of them if none does. */
  ghost predicate IsShortestPrune(files: Files, list: seq<string>, k: nat, undeletable: set<string>,
                                  counted: set<string>, budget: int)
    requires k <= |list|
  {
    && (forall j :: 0 <= j < k ==> Total(Removed(files, list, j, undeletable), counted) > budget)
    && (k == |list| || Total(Removed(files, list, k, undeletable), counted) <= budget)
  }

  class Directory {
    var files: Files
    /** Files whose removal fails. */
    const undeletable: set<string>

    constructor (files: Files, undeletable: set<string>)
      ensures this.files == files && this.undeletable == undeletable
    {
      this.files, this.undeletable := files, undeletable;
    }

    method Remove(name: string)
      modifies this
      ensures files == old(files) - ({name} - undeletable)
    {
      if name !in undeletable { files := files - {name}; }
    }

    method Rename(from: string, to: string)
      requires from in files && from != to
      modifies this
      ensures files == (old(files) - {from})[to := old(files)[from]]
    {
      files := (files - {from})[to := files[from]];
    }

    /** Read the directory, keep the chunks of one log, sort them by key. */
    method ListRotated(live: string) returns (list: seq<string>)
      ensures IsListing(list, Siblings(files, live))
    {
      list := [];
      var left := files.Keys;
      while left != {}
        invariant left <= files.Keys
        invariant IsListing(list, set n | n in files && n !in left && IsRotatedSibling(live, n))
        decreases |left|
      {
        var n :| n in left;
        left := left - {n};
        if IsRotatedSibling(live, n) {
          InsertByKeyElems(n, list);
          InsertByKeySorts(n, list);
          list := InsertByKey(n, list);
        }
      }
    }

    method SumSizes(list: seq<string>) returns (total: nat)
      requires NoDuplicates(list)
      ensures total == Total(files, Elems(list))
    {
      total := 0;
      for i := 0 to |list|
        invariant total == Total(files, Elems(list[..i]))
      {
        assert list[..i + 1] == list[..i] + [list[i]];
        assert Elems(list[..i + 1]) - {list[i]} == Elems(list[..i]);
        TotalPick(files, Elems(list[..i + 1]), list[i]);
        if list[i] in files { total := total + files[list[i]].size; }
      }
      assert list[..|list|] == list;
    }
  }
}
