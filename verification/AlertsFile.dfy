/** The alerts log: append, rotate into sealed chunks, prune the oldest to a byte budget. */
module AlertsFile {
  import opened Event
  import opened Text
  import opened ChunkNames
  import opened Directory

  const NEWLINE: char := '\n'

  /** Lines as bytes. */
  function Encode(lines: seq<string>): string {
    if lines == [] then "" else Encode(lines[..|lines| - 1]) + lines[|lines| - 1] + "\n"
  }

  lemma {:induction false} EncodeAppend(a: seq<string>, b: seq<string>)
    ensures Encode(a + b) == Encode(a) + Encode(b)
  {
    if b == [] {
      assert a + b == a;
    } else {
      assert (a + b)[..|a + b| - 1] == a + b[..|b| - 1];
      EncodeAppend(a, b[..|b| - 1]);
    }
  }

  /** Reading the bytes line by line gives the lines back, when none of them holds a newline. */
  lemma {:induction false} EncodeReadsBack(lines: seq<string>)
    requires FreeOf(lines, NEWLINE)
    ensures Split(Encode(lines), NEWLINE) == lines + [""]
  {
    if lines == [] {
      SplitFirst("", "", NEWLINE);
    } else {
      var rest := lines[1..];
      assert lines == [lines[0]] + rest && [lines[0]][..0] == [];
      EncodeAppend([lines[0]], rest);
      assert Encode([lines[0]]) == "" + lines[0] + "\n";
      assert Encode(lines) == lines[0] + [NEWLINE] + Encode(rest);
      assert NEWLINE !in lines[0];
      SplitFirst(lines[0], Encode(rest), NEWLINE);
      EncodeReadsBack(rest);
    }
  }

  /** A sealed chunk and the lines it was sealed with. */
  datatype Chunk = Chunk(ts: u128, gz: bool, lines: seq<string>)

  function NameOf(live: string, chunk: Chunk): string { SealedName(live, chunk.ts, chunk.gz) }

  function Names(live: string, chunks: seq<Chunk>): (r: seq<string>)
    ensures |r| == |chunks| && forall i :: 0 <= i < |r| ==> r[i] == NameOf(live, chunks[i])
  {
    seq(|chunks|, i requires 0 <= i < |chunks| => NameOf(live, chunks[i]))
  }

  function LinesOf(chunks: seq<Chunk>): seq<string> {
    if chunks == [] then [] else LinesOf(chunks[..|chunks| - 1]) + chunks[|chunks| - 1].lines
  }

  lemma {:induction false} LinesOfAppend(a: seq<Chunk>, b: seq<Chunk>)
    ensures LinesOf(a + b) == LinesOf(a) + LinesOf(b)
  {
    if b == [] {
      assert a + b == a;
    } else {
      assert (a + b)[..|a + b| - 1] == a + b[..|b| - 1];
      LinesOfAppend(a, b[..|b| - 1]);
    }
  }

  /** The chunks in the directory are exactly these, oldest first, each with its own whole lines. */
  ghost predicate Holds(files: Files, live: string, chunks: seq<Chunk>) {
    && Siblings(files, live) == Elems(Names(live, chunks))
    && (forall i :: 0 <= i < |chunks| ==> chunks[i].ts <= U128_MAX)
    && (forall i, j :: 0 <= i < j < |chunks| ==> chunks[i].ts < chunks[j].ts)
    && (forall i :: 0 <= i < |chunks| ==> HoldsChunk(files, live, chunks[i]))
  }

  ghost predicate HoldsChunk(files: Files, live: string, chunk: Chunk) {
    && NameOf(live, chunk) in files && files[NameOf(live, chunk)].content == Encode(chunk.lines)
    && (!chunk.gz ==> files[NameOf(live, chunk)].size == |Encode(chunk.lines)|)
  }

  /** Listing the directory yields the chunks in the order they were sealed. */
  lemma ListingIsSealOrder(files: Files, live: string, chunks: seq<Chunk>, list: seq<string>)
    requires Holds(files, live, chunks) && IsListing(list, Siblings(files, live))
    ensures list == Names(live, chunks)
  {
    forall i | 0 <= i < |chunks| ensures SortKey(Names(live, chunks)[i]) == chunks[i].ts {
      KeyOfName(live, chunks[i].ts, chunks[i].gz);
    }
    hide SortKey;
    ListingIsUnique(list, Names(live, chunks));
  }

  /** The chunk about to be sealed is new. */
  lemma NewNameIsFree(files: Files, live: string, chunks: seq<Chunk>, ts: nat, gz: bool)
    requires Holds(files, live, chunks) && ts <= U128_MAX
    requires forall i :: 0 <= i < |chunks| ==> chunks[i].ts < ts
    ensures SealedName(live, ts, gz) !in files
  {
    KeyOfName(live, ts, gz);
    if SealedName(live, ts, gz) in files {
      assert SealedName(live, ts, gz) in Elems(Names(live, chunks));
      var i :| 0 <= i < |chunks| && Names(live, chunks)[i] == SealedName(live, ts, gz);
      KeyOfName(live, chunks[i].ts, chunks[i].gz);
    }
  }

  lemma SealingAdds(files: Files, live: string, chunks: seq<Chunk>, chunk: Chunk, file: File)
    requires Holds(files, live, chunks) && chunk.ts <= U128_MAX
    requires forall i :: 0 <= i < |chunks| ==> chunks[i].ts < chunk.ts
    requires file.content == Encode(chunk.lines) && (!chunk.gz ==> file.size == |Encode(chunk.lines)|)
    ensures Holds((files - {live})[NameOf(live, chunk) := file], live, chunks + [chunk])
  {
    hide SortKey, Encode, SealedName, IsRotatedSibling;
    var sealed := (files - {live})[NameOf(live, chunk) := file];
    KeyOfName(live, chunk.ts, chunk.gz);
    LiveIsNoSibling(live);
    assert Names(live, chunks + [chunk]) == Names(live, chunks) + [NameOf(live, chunk)];
    assert Siblings(sealed, live) == Siblings(files, live) + {NameOf(live, chunk)};
    NewNameIsFree(files, live, chunks, chunk.ts, chunk.gz);
    forall i | 0 <= i < |chunks| ensures HoldsChunk(sealed, live, chunks[i]) {
      KeyOfName(live, chunks[i].ts, chunks[i].gz);
      assert HoldsChunk(files, live, chunks[i]);
    }
  }

  /** Removing the first `k` listed files leaves the newer chunks. */
  lemma PruningDrops(files: Files, live: string, chunks: seq<Chunk>, k: nat)
    requires Holds(files, live, chunks) && k <= |chunks|
    ensures Holds(Removed(files, Names(live, chunks), k, {}), live, chunks[k..])
  {
    hide SortKey, Encode, IsRotatedSibling;
    var names := Names(live, chunks);
    var kept := Removed(files, names, k, {});
    forall i, j | 0 <= i < j < |chunks| ensures names[i] != names[j] {
      KeyOfName(live, chunks[i].ts, chunks[i].gz);
      KeyOfName(live, chunks[j].ts, chunks[j].gz);
    }
    assert Names(live, chunks[k..]) == names[k..];
    forall i | k <= i < |chunks| ensures names[i] !in Elems(names[..k]) && HoldsChunk(kept, live, chunks[i]) {
      assert HoldsChunk(files, live, chunks[i]);
    }
    assert names == names[..k] + names[k..];
    assert Siblings(kept, live) == Elems(names) - Elems(names[..k]) == Elems(names[k..]);
  }

  ghost predicate IsSuffix<T>(part: seq<T>, whole: seq<T>) {
    |part| <= |whole| && whole[|whole| - |part|..] == part
  }

  function Plain(lines: seq<string>): File { File(Encode(lines), |Encode(lines)|) }

  function Extended(file: File, line: string): File {
    File(file.content + line + "\n", file.size + |line| + 1)
  }

  /** The directory as a log: chunks oldest first, all sealed before `now`, then the live file;
      together they are a suffix of all lines ever written. */
  ghost predicate IsLog(files: Files, live: string, chunks: seq<Chunk>, liveLines: seq<string>,
                        written: seq<string>, now: nat)
  {
    && Holds(files, live, chunks)
    && (forall i :: 0 <= i < |chunks| ==> chunks[i].ts < now)
    && (if live in files then files[live] == Plain(liveLines) else liveLines == [])
    && IsSuffix(LinesOf(chunks) + liveLines, written)
  }

  /** What sealing needs to know of a log: free names for its next chunk, and the live content. */
  lemma BeforeSealing(files: Files, live: string, chunks: seq<Chunk>, liveLines: seq<string>, written: seq<string>, ts: u128)
    requires IsLog(files, live, chunks, liveLines, written, ts) && live in files
    ensures RotatedName(live, ts) !in files && RotatedName(live, ts) + GZ !in files && RotatedName(live, ts) != live
    ensures NameOf(live, Chunk(ts, false, liveLines)) == RotatedName(live, ts)
    ensures NameOf(live, Chunk(ts, true, liveLines)) == RotatedName(live, ts) + GZ
    ensures files[live].content == Encode(liveLines) && files[live].size == |Encode(liveLines)|
  {
    hide Holds, NameOf, IsSuffix;
    FreeNames(files, live, chunks, ts, liveLines);
  }

  lemma LaterLog(files: Files, live: string, chunks: seq<Chunk>, liveLines: seq<string>, written: seq<string>,
                 now: nat, later: nat)
    requires IsLog(files, live, chunks, liveLines, written, now) && now <= later
    ensures IsLog(files, live, chunks, liveLines, written, later)
  {
    hide Holds, IsSuffix, LinesOf, Plain;
  }

  /** Everything but this log's files is as it was. */
  ghost predicate OthersUntouched(before: Files, after: Files, live: string) {
    forall n :: n != live && !IsRotatedSibling(live, n) ==>
      (n in after <==> n in before) && (n in after ==> after[n] == before[n])
  }

  lemma FreeNames(files: Files, live: string, chunks: seq<Chunk>, ts: nat, lines: seq<string>)
    requires Holds(files, live, chunks) && ts <= U128_MAX
    requires forall i :: 0 <= i < |chunks| ==> chunks[i].ts < ts
    ensures RotatedName(live, ts) !in files && RotatedName(live, ts) + GZ !in files && RotatedName(live, ts) != live
    ensures NameOf(live, Chunk(ts, false, lines)) == RotatedName(live, ts)
    ensures NameOf(live, Chunk(ts, true, lines)) == RotatedName(live, ts) + GZ
  {
    NewNameIsFree(files, live, chunks, ts, false);
    NewNameIsFree(files, live, chunks, ts, true);
    KeyOfName(live, ts, false);
    assert RotatedName(live, ts) + Suffix(false) == RotatedName(live, ts);
  }

  lemma SealedLines(chunks: seq<Chunk>, chunk: Chunk)
    ensures LinesOf(chunks + [chunk]) + [] == LinesOf(chunks) + chunk.lines
  {
    assert (chunks + [chunk])[..|chunks|] == chunks;
  }

  lemma SealingSparesOthers(files: Files, live: string, chunk: Chunk, file: File)
    requires chunk.ts <= U128_MAX
    ensures var sealed := (files - {live})[NameOf(live, chunk) := file];
      OthersUntouched(files, sealed, live) && live !in sealed
  {
    KeyOfName(live, chunk.ts, chunk.gz);
    hide SealedName, IsRotatedSibling;
  }

  /** Sealing the live file turns its lines into the newest chunk. */
  lemma SealingKeeps(files: Files, live: string, chunks: seq<Chunk>, chunk: Chunk, file: File,
                     written: seq<string>, now: nat)
    requires IsLog(files, live, chunks, chunk.lines, written, chunk.ts) && chunk.ts <= U128_MAX && chunk.ts < now
    requires file.content == Encode(chunk.lines) && (!chunk.gz ==> file.size == |Encode(chunk.lines)|)
    ensures var sealed := (files - {live})[NameOf(live, chunk) := file];
      IsLog(sealed, live, chunks + [chunk], [], written, now) && OthersUntouched(files, sealed, live) && live !in sealed
  {
    hide Holds, OthersUntouched, NameOf, Encode, LinesOf, IsSuffix;
    SealingAdds(files, live, chunks, chunk, file);
    SealingSparesOthers(files, live, chunk, file);
    SealedLines(chunks, chunk);
  }

  /** Pruning the oldest chunks keeps a suffix, and the rest is within the budget. */
  lemma PruningKeeps(files: Files, list: seq<string>, k: nat, live: string, chunks: seq<Chunk>, written: seq<string>,
                     now: nat, budget: nat)
    requires IsLog(files, live, chunks, [], written, now) && live !in files
    requires IsListing(list, Siblings(files, live)) && k <= |list|
    requires IsShortestPrune(files, list, k, {}, Siblings(files, live) + {live}, budget)
    ensures k <= |chunks| && list == Names(live, chunks)
    ensures var after := Removed(files, list, k, {});
      && IsLog(after, live, chunks[k..], [], written, now) && OthersUntouched(files, after, live) && live !in after
      && Total(after, Siblings(after, live)) <= budget
  {
    hide Encode, Total, Removed, Siblings, IsListing, IsShortestPrune, OthersUntouched, Holds, Names, LinesOf, IsSuffix;
    ListingIsSealOrder(files, live, chunks, list);
    PruningDrops(files, live, chunks, k);
    PrunedTotal(files, list, k, live, budget);
    PruningSparesOthers(files, list, k, live);
    PrunedLines(chunks, k, written);
  }

  lemma PrunedLines(chunks: seq<Chunk>, k: nat, written: seq<string>)
    requires k <= |chunks| && IsSuffix(LinesOf(chunks) + [], written)
    ensures IsSuffix(LinesOf(chunks[k..]) + [], written)
  {
    hide LinesOf;
    assert chunks == chunks[..k] + chunks[k..];
    LinesOfAppend(chunks[..k], chunks[k..]);
    assert LinesOf(chunks) + [] == LinesOf(chunks[..k]) + (LinesOf(chunks[k..]) + []);
    SuffixOfSuffix(LinesOf(chunks[..k]), LinesOf(chunks[k..]) + [], written);
  }

  lemma PruningSparesOthers(files: Files, list: seq<string>, k: nat, live: string)
    requires IsListing(list, Siblings(files, live)) && k <= |list|
    ensures OthersUntouched(files, Removed(files, list, k, {}), live)
    ensures live !in files ==> live !in Removed(files, list, k, {})
  {
    hide IsRotatedSibling;
    assert Elems(list[..k]) <= Elems(list);
  }

  lemma SuffixOfSuffix<T>(front: seq<T>, back: seq<T>, whole: seq<T>)
    requires IsSuffix(front + back, whole)
    ensures IsSuffix(back, whole)
  {
    var part := front + back;
    assert whole[|whole| - |back|..] == whole[|whole| - |part|..][|front|..];
  }

  /** What is left of the log is what is left of the files counted before. */
  lemma TotalLeft(files: Files, list: seq<string>, k: nat, undeletable: set<string>, live: string)
    requires k <= |list|
    ensures var after := Removed(files, list, k, undeletable);
      Total(after, Siblings(after, live) + {live}) == Total(after, Siblings(files, live) + {live})
  {
    hide IsRotatedSibling;
    var after := Removed(files, list, k, undeletable);
    TotalSame(after, after, Siblings(after, live) + {live}, Siblings(files, live) + {live});
  }

  lemma PrunedTotal(files: Files, list: seq<string>, k: nat, live: string, budget: nat)
    requires live !in files && IsListing(list, Siblings(files, live)) && k <= |list|
    requires IsShortestPrune(files, list, k, {}, Siblings(files, live) + {live}, budget)
    ensures var after := Removed(files, list, k, {});
      Total(after, Siblings(after, live)) <= budget
  {
    hide IsRotatedSibling;
    var after := Removed(files, list, k, {});
    TotalSame(after, after, Siblings(after, live), Siblings(files, live) + {live});
    if k == |list| {
      assert list[..k] == list;
      assert Siblings(after, live) == {};
    }
  }

  lemma EmptyLog(files: Files, live: string, now: nat)
    requires Siblings(files, live) == {} && live !in files
    ensures IsLog(files, live, [], [], [], now) && Total(files, Siblings(files, live)) == 0
  {
  }

  lemma EmptyFile()
    ensures Plain([]) == File("", 0)
  {
  }

  lemma OthersSame(files: Files, live: string)
    ensures OthersUntouched(files, files, live)
  {
  }

  lemma OthersCompose(a: Files, b: Files, c: Files, live: string)
    requires OthersUntouched(a, b, live) && OthersUntouched(b, c, live)
    ensures OthersUntouched(a, c, live)
  {
    hide IsRotatedSibling;
  }

  /** Changing the live file leaves the chunks and their total alone. */
  lemma OpeningKeepsTotal(files: Files, live: string, file: File)
    ensures var after := files[live := file];
      && Siblings(after, live) == Siblings(files, live)
      && Total(after, Siblings(after, live)) == Total(files, Siblings(files, live))
      && OthersUntouched(files, after, live)
  {
    LiveIsNoSibling(live);
    hide IsRotatedSibling;
    var after := files[live := file];
    assert Siblings(after, live) == Siblings(files, live);
    TotalSame(after, files, Siblings(after, live), Siblings(files, live));
  }

  lemma LiveChangeHolds(files: Files, live: string, chunks: seq<Chunk>, file: File)
    requires Holds(files, live, chunks)
    ensures Holds(files[live := file], live, chunks)
  {
    OpeningKeepsTotal(files, live, file);
    LiveIsNoSibling(live);
    hide Encode, NameOf, IsRotatedSibling;
    forall i | 0 <= i < |chunks| ensures HoldsChunk(files[live := file], live, chunks[i]) {
      assert HoldsChunk(files, live, chunks[i]);
      assert Names(live, chunks)[i] in Siblings(files, live);
    }
  }

  lemma OpeningKeeps(files: Files, live: string, chunks: seq<Chunk>, liveLines: seq<string>, written: seq<string>, now: nat)
    requires IsLog(files, live, chunks, liveLines, written, now) && live !in files
    ensures IsLog(files[live := Plain([])], live, chunks, [], written, now) && liveLines == []
    ensures OthersUntouched(files, files[live := Plain([])], live)
  {
    hide Holds, OthersUntouched, IsSuffix;
    LiveChangeHolds(files, live, chunks, Plain([]));
    OpeningKeepsTotal(files, live, Plain([]));
  }

  /** Appending a whole line keeps the log, with the line at its end. */
  lemma AppendingKeeps(files: Files, live: string, chunks: seq<Chunk>, liveLines: seq<string>, written: seq<string>,
                       now: nat, line: string)
    requires IsLog(files, live, chunks, liveLines, written, now) && live in files
    ensures var file := Extended(files[live], line);
      && IsLog(files[live := file], live, chunks, liveLines + [line], written + [line], now)
      && Siblings(files[live := file], live) == Siblings(files, live)
      && Total(files[live := file], Siblings(files, live)) == Total(files, Siblings(files, live))
      && OthersUntouched(files, files[live := file], live)
  {
    hide Holds, OthersUntouched, LinesOf;
    var file := Extended(files[live], line);
    LiveChangeHolds(files, live, chunks, file);
    OpeningKeepsTotal(files, live, file);
    assert (liveLines + [line])[..|liveLines|] == liveLines;
    var part := LinesOf(chunks) + liveLines;
    assert LinesOf(chunks) + (liveLines + [line]) == part + [line];
    assert (written + [line])[|written| - |part|..] == written[|written| - |part|..] + [line];
  }

  /** The bytes of the listed chunks, one after the other. */
  function Contents(files: Files, list: seq<string>): string
    requires forall n :: n in list ==> n in files
  {
    if list == [] then ""
    else Contents(files, list[..|list| - 1]) + files[list[|list| - 1]].content
  }

  lemma {:induction false} ContentsAreLines(files: Files, live: string, chunks: seq<Chunk>)
    requires forall i :: 0 <= i < |chunks| ==> HoldsChunk(files, live, chunks[i])
    ensures forall n :: n in Names(live, chunks) ==> n in files
    ensures Contents(files, Names(live, chunks)) == Encode(LinesOf(chunks))
  {
    hide NameOf;
    forall n | n in Names(live, chunks) ensures n in files {
      var i :| 0 <= i < |chunks| && Names(live, chunks)[i] == n;
      assert HoldsChunk(files, live, chunks[i]);
    }
    if chunks != [] {
      var front, last := chunks[..|chunks| - 1], chunks[|chunks| - 1];
      assert Names(live, chunks)[..|chunks| - 1] == Names(live, front);
      ContentsAreLines(files, live, front);
      assert HoldsChunk(files, live, last);
      EncodeAppend(LinesOf(front), last.lines);
    }
  }

  /** What a reader of the log gets, chunks in sort-key order and the live file last, is the
      encoding of a suffix of all lines ever written: nothing is missing in between, reordered,
      repeated or cut. */
  lemma RetainedIsSuffix(files: Files, live: string, chunks: seq<Chunk>, liveLines: seq<string>, written: seq<string>,
                         now: nat, list: seq<string>) returns (from: nat)
    requires IsLog(files, live, chunks, liveLines, written, now) && live in files
    requires IsListing(list, Siblings(files, live))
    ensures from <= |written| && forall n :: n in list ==> n in files
    ensures Contents(files, list) + files[live].content == Encode(written[from..])
    ensures FreeOf(written, NEWLINE) ==>
      Split(Contents(files, list) + files[live].content, NEWLINE) == written[from..] + [""]
  {
    hide Contents, Encode, LinesOf, IsListing, NameOf;
    ListingIsSealOrder(files, live, chunks, list);
    ContentsAreLines(files, live, chunks);
    EncodeAppend(LinesOf(chunks), liveLines);
    from := |written| - |LinesOf(chunks) + liveLines|;
    if FreeOf(written, NEWLINE) { EncodeReadsBack(written[from..]); }
  }

  ghost predicate AllPlain(chunks: seq<Chunk>) { forall i :: 0 <= i < |chunks| ==> !chunks[i].gz }

  /** Uncompressed chunks take up on disk what a reader gets from them. */
  lemma {:induction false} PlainBytes(files: Files, live: string, chunks: seq<Chunk>)
    requires forall i :: 0 <= i < |chunks| ==> HoldsChunk(files, live, chunks[i])
    requires forall i, j :: 0 <= i < j < |chunks| ==> NameOf(live, chunks[i]) != NameOf(live, chunks[j])
    requires AllPlain(chunks)
    ensures forall n :: n in Names(live, chunks) ==> n in files
    ensures Total(files, Elems(Names(live, chunks))) == |Contents(files, Names(live, chunks))|
  {
    hide NameOf, Encode;
    ContentsAreLines(files, live, chunks);
    if chunks != [] {
      var front, last := chunks[..|chunks| - 1], chunks[|chunks| - 1];
      var names, name := Names(live, chunks), NameOf(live, last);
      assert names == Names(live, front) + [name];
      PlainBytes(files, live, front);
      assert HoldsChunk(files, live, last);
      assert Elems(names) - {name} == Elems(Names(live, front));
      TotalCounts(files, Elems(names), name);
    }
  }

  /** What a reader of the log gets stays within the bound. */
  ghost predicate ReadsWithin(files: Files, live: string, bound: nat) {
    live in files
    && forall list :: IsListing(list, Siblings(files, live)) ==> ReadBytes(files, live, list, bound)
  }

  ghost predicate ReadBytes(files: Files, live: string, list: seq<string>, bound: nat)
    requires live in files
  {
    (forall n :: n in list ==> n in files) && |Contents(files, list)| + |files[live].content| < bound
  }

  lemma PlainWithin(files: Files, live: string, chunks: seq<Chunk>, liveLines: seq<string>, written: seq<string>,
                    now: nat, bound: nat)
    requires IsLog(files, live, chunks, liveLines, written, now) && live in files && AllPlain(chunks)
    requires SizeOf(files, live) + Total(files, Siblings(files, live)) < bound
    ensures ReadsWithin(files, live, bound)
  {
    forall i, j | 0 <= i < j < |chunks| ensures NameOf(live, chunks[i]) != NameOf(live, chunks[j]) {
      KeyOfName(live, chunks[i].ts, chunks[i].gz);
      KeyOfName(live, chunks[j].ts, chunks[j].gz);
    }
    hide SortKey, Encode, Contents, IsRotatedSibling, SealedName;
    PlainBytes(files, live, chunks);
    forall list | IsListing(list, Siblings(files, live)) ensures ReadBytes(files, live, list, bound) {
      ListingIsSealOrder(files, live, chunks, list);
    }
  }

  /** A rotation: the live file becomes the newest chunk, and the shortest oldest-first run of `k`
      chunks that brings the log within its budget is gone. */
  ghost predicate IsRotation(files: Files, after: Files, live: string, chunk: Chunk, file: File,
                             before: seq<Chunk>, chunks: seq<Chunk>, k: nat, budget: nat)
  {
    var all := before + [chunk];
    var sealed := (files - {live})[NameOf(live, chunk) := file];
    && k <= |all| && chunks == all[k..]
    && after == Removed(sealed, Names(live, all), k, {})
    && IsShortestPrune(sealed, Names(live, all), k, {}, Siblings(sealed, live) + {live}, budget)
  }

  // ---------- the log ----------

  class AlertsFile {
    const dir: Directory
    const live: string
    const maxBytes: nat
    const maxTotalBytes: nat
    const gzipRotated: bool

    /** The clock at each rotation. */
    const clock: nat -> u128
    /** Size of each chunk after compression; a chunk whose compression fails stays as it is. */
    const compressed: nat -> Option<nat>
    var rotations: nat

    /** Every line ever written, the retained chunks, and the lines of the live file. */
    ghost var written: seq<string>
    ghost var chunks: seq<Chunk>
    ghost var liveLines: seq<string>

    /** Every chunk so far was sealed before this time. */
    ghost var sealedBefore: nat

    /** Names, order and contents: chunks then live file are a suffix of all lines written. */
    ghost predicate Consistent()
      reads this, dir
    {
      && dir.undeletable == {} && IsLog(dir.files, live, chunks, liveLines, written, sealedBefore)
      && (gzipRotated || AllPlain(chunks))
    }

    /** The next rotation reads a later time than every earlier one. */
    ghost predicate ClockMovedOn()
      reads this`rotations, this`sealedBefore
    {
      sealedBefore <= clock(rotations)
    }

    /** The live file has reached its limit. */
    predicate Due()
      reads this, dir
    {
      maxBytes > 0 && live in dir.files && dir.files[live].size >= maxBytes
    }

    /** Between writes: the live file exists, below its limit, and the chunks are within budget. */
    ghost predicate Valid()
      reads this, dir
    {
      && Consistent()
      && live in dir.files && dir.files[live].size < maxBytes
      && Total(dir.files, Siblings(dir.files, live)) <= maxTotalBytes
    }

    /** Open the log in a directory that holds none of it yet. */
    constructor (dir: Directory, live: string, maxBytes: nat, maxTotalBytes: nat, gzipRotated: bool,
                 clock: nat -> u128, compressed: nat -> Option<nat>)
      requires dir.undeletable == {} && Siblings(dir.files, live) == {} && live !in dir.files && maxBytes > 0
      modifies dir
      ensures Valid() && this.dir == dir && this.live == live && this.maxBytes == maxBytes
      ensures this.maxTotalBytes == maxTotalBytes && this.gzipRotated == gzipRotated && this.clock == clock
      ensures this.compressed == compressed && written == [] && rotations == 0 && sealedBefore == 0
    {
      this.dir, this.live, this.maxBytes, this.maxTotalBytes := dir, live, maxBytes, maxTotalBytes;
      this.gzipRotated, this.clock, this.compressed, rotations := gzipRotated, clock, compressed, 0;
      written, chunks, liveLines, sealedBefore := [], [], [], 0;
      new;
      hide Consistent, Valid, IsLog, Holds, OthersUntouched, Plain, Total, Siblings, IsRotatedSibling, IsRotation;
      ghost var before := dir.files;
      StartsConsistent();
      OpenAppend();
      OpensValid(before);
    }

    lemma StartsConsistent()
      requires dir.undeletable == {} && Siblings(dir.files, live) == {} && live !in dir.files
      requires chunks == [] && liveLines == [] && written == [] && sealedBefore == 0
      ensures Consistent()
    {
      EmptyLog(dir.files, live, 0);
    }

    lemma OpensValid(before: Files)
      requires Consistent() && maxBytes > 0
      requires Siblings(before, live) == {} && live !in before && dir.files == before[live := Plain([])]
      ensures Valid()
    {
      hide IsLog, IsRotatedSibling;
      EmptyLog(before, live, 0);
      OpeningKeepsTotal(before, live, Plain([]));
      EmptyFile();
    }

    method TotalBytes() returns (total: nat)
      ensures total == Total(dir.files, Siblings(dir.files, live) + {live})
    {
      var list := dir.ListRotated(live);
      total := dir.SumSizes(list);
      LiveIsNoSibling(live);
      TotalPick(dir.files, Siblings(dir.files, live) + {live}, live);
      assert Siblings(dir.files, live) + {live} - {live} == Siblings(dir.files, live);
      if live in dir.files { total := total + dir.files[live].size; }
    }

    /** Remove the shortest oldest-first run of chunks that brings the log within its budget, or all
        of them. A removal that fails is skipped, so this always ends. */
    method PruneToBudget() returns (ghost list: seq<string>, ghost k: nat)
      modifies dir
      ensures IsListing(list, old(Siblings(dir.files, live))) && k <= |list|
      ensures dir.files == Removed(old(dir.files), list, k, dir.undeletable)
      ensures IsShortestPrune(old(dir.files), list, k, dir.undeletable,
                              old(Siblings(dir.files, live)) + {live}, maxTotalBytes)
    {
      hide Siblings, Total, Removed, IsListing;
      var siblings := dir.ListRotated(live);
      list, k := siblings, 0;
      ghost var before, counted := dir.files, Siblings(dir.files, live) + {live};
      RemovedNone(before, list, dir.undeletable);
      while true
        invariant k <= |list| && siblings == list[k..]
        invariant dir.files == Removed(before, list, k, dir.undeletable)
        invariant forall j :: 0 <= j < k ==> Total(Removed(before, list, j, dir.undeletable), counted) > maxTotalBytes
        decreases |siblings|
      {
        var total := TotalBytes();
        TotalLeft(before, list, k, dir.undeletable, live);
        if total <= maxTotalBytes || siblings == [] { return; }
        var oldest := siblings[0];
        siblings := siblings[1..];
        dir.Remove(oldest);
        RemovedNext(before, list, k, dir.undeletable);
        k := k + 1;
      }
    }

    /** Compress a sealed chunk; on failure it is kept as it is. */
    method Seal(name: string, size: Option<nat>) returns (gz: bool)
      requires name in dir.files
      modifies dir
      ensures gz <==> size.Some?
      ensures dir.files == if gz
        then (old(dir.files) - {name})[name + GZ := File(old(dir.files)[name].content, size.value)]
        else old(dir.files)
    {
      gz := size.Some?;
      if gz {
        var content := dir.files[name].content;
        assert |name + GZ| != |name|;
        dir.files := dir.files[name + GZ := File(content, size.value)] - {name};
      }
    }

    /** The chunk the next rotation makes of the live lines, and its file. */
    ghost function NextChunk(lines: seq<string>): Chunk
      reads this`rotations
    {
      Chunk(clock(rotations), gzipRotated && compressed(rotations).Some?, lines)
    }

    ghost function NextFile(file: File): File
      reads this`rotations
    {
      if NextChunk([]).gz then File(file.content, compressed(rotations).value) else file
    }

    /** One clock reading if a rotation was due, none otherwise. */
    ghost predicate Reading(before: nat, sealed: nat, due: bool)
      reads this`rotations, this`sealedBefore
    {
      if due then rotations == before + 1 && sealedBefore == clock(before) + 1
      else rotations == before && sealedBefore == sealed
    }

    /** Rename the live file to a chunk name, and compress it. */
    method SealLive()
      requires Consistent() && live in dir.files && ClockMovedOn()
      modifies this`rotations, this`chunks, this`liveLines, this`sealedBefore, dir
      ensures rotations == old(rotations) + 1 && sealedBefore == clock(old(rotations)) + 1
      ensures Consistent() && OthersUntouched(old(dir.files), dir.files, live)
      ensures live !in dir.files && liveLines == [] && chunks == old(chunks) + [old(NextChunk(liveLines))]
      ensures dir.files
        == (old(dir.files) - {live})[NameOf(live, old(NextChunk(liveLines))) := old(NextFile(dir.files[live]))]
    {
      hide IsShortestPrune, OthersUntouched, IsLog, NameOf, RotatedName, Encode;
      var ts: nat := clock(rotations);
      ghost var before, lines := dir.files, liveLines;
      LaterLog(before, live, chunks, lines, written, sealedBefore, ts);
      var rotated := RotatedName(live, ts);
      if rotated in dir.files { rotated := RotatedName(live, ts + 1); }
      BeforeSealing(before, live, chunks, lines, written, ts);
      dir.Rename(live, rotated);
      var gz := false;
      if gzipRotated { gz := Seal(rotated, compressed(rotations)); }
      ghost var chunk, file := NextChunk(lines), NextFile(before[live]);
      assert dir.files == (before - {live})[NameOf(live, chunk) := file];
      rotations, sealedBefore := rotations + 1, ts + 1;
      SealingKeeps(before, live, chunks, chunk, file, written, sealedBefore);
      chunks, liveLines := chunks + [chunk], [];
    }

    method RotateIfNeeded() returns (ghost k: nat)
      requires Consistent() && (Due() ==> ClockMovedOn())
      modifies this`rotations, this`chunks, this`liveLines, this`sealedBefore, dir
      ensures Reading(old(rotations), old(sealedBefore), old(Due()))
      ensures Consistent() && OthersUntouched(old(dir.files), dir.files, live)
      ensures if old(Due()) then
          && live !in dir.files && liveLines == [] && Total(dir.files, Siblings(dir.files, live)) <= maxTotalBytes
          && IsRotation(old(dir.files), dir.files, live, old(NextChunk(liveLines)), old(NextFile(dir.files[live])),
                        old(chunks), chunks, k, maxTotalBytes)
        else dir.files == old(dir.files) && chunks == old(chunks) && liveLines == old(liveLines)
    {
      hide IsLog, Holds, OthersUntouched, NextChunk, NextFile, IsListing, Removed;
      k := 0;
      OthersSame(dir.files, live);
      if maxBytes == 0 || live !in dir.files { return; }
      if dir.files[live].size < maxBytes { return; }
      SealLive();
      ghost var sealed := dir.files;
      ghost var list;
      list, k := PruneToBudget();
      PruningKeeps(sealed, list, k, live, chunks, written, sealedBefore, maxTotalBytes);
      OthersCompose(old(dir.files), sealed, dir.files, live);
      chunks := chunks[k..];
    }

    method OpenAppend()
      requires Consistent() && (Due() ==> ClockMovedOn())
      modifies this`rotations, this`chunks, this`liveLines, this`sealedBefore, dir
      ensures Reading(old(rotations), old(sealedBefore), old(Due()))
      ensures Consistent() && OthersUntouched(old(dir.files), dir.files, live) && live in dir.files
      ensures old(live !in dir.files) ==>
        dir.files == old(dir.files)[live := Plain([])] && chunks == old(chunks) && liveLines == old(liveLines)
    {
      ghost var k := RotateIfNeeded();
      if live !in dir.files {
        OpeningKeeps(dir.files, live, chunks, liveLines, written, sealedBefore);
        dir.files := dir.files[live := Plain([])];
      }
    }

    /** Append one line; when the live file crosses its limit, seal it, prune, and start a new one.
        The live file stays below its limit, and live plus sealed bytes below the sum of both limits. */
    method WriteLine(line: string) returns (ghost k: nat)
      requires Valid() && (dir.files[live].size + |line| + 1 >= maxBytes ==> ClockMovedOn())
      modifies this`rotations, this`chunks, this`liveLines, this`sealedBefore, this`written, dir
      ensures Reading(old(rotations), old(sealedBefore), old(dir.files[live].size) + |line| + 1 >= maxBytes)
      ensures Valid() && written == old(written) + [line]
      ensures OthersUntouched(old(dir.files), dir.files, live)
      ensures SizeOf(dir.files, live) < maxBytes
      ensures SizeOf(dir.files, live) + Total(dir.files, Siblings(dir.files, live)) < maxTotalBytes + maxBytes
      ensures var file := Extended(old(dir.files)[live], line);
        var files := old(dir.files)[live := file];
        if file.size < maxBytes then
          dir.files == files && chunks == old(chunks) && liveLines == old(liveLines) + [line]
        else
          && liveLines == []
          && IsRotation(files, dir.files - {live}, live, old(NextChunk(liveLines + [line])), old(NextFile(file)),
                        old(chunks), chunks, k, maxTotalBytes)
    {
      hide IsLog, OthersUntouched, Plain, IsRotation;
      k := 0;
      AppendingKeeps(dir.files, live, chunks, liveLines, written, sealedBefore, line);
      dir.files := dir.files[live := Extended(dir.files[live], line)];
      liveLines, written := liveLines + [line], written + [line];
      if dir.files[live].size >= maxBytes {
        ghost var appended := dir.files;
        k := RotateIfNeeded();
        ghost var rotated := dir.files;
        OthersCompose(old(dir.files), appended, rotated, live);
        OpenAppend();
        OpeningKeepsTotal(rotated, live, Plain([]));
        OthersCompose(old(dir.files), rotated, dir.files, live);
        assert dir.files - {live} == rotated;
        assert Plain([]).size == 0 by { EmptyFile(); }
      }
    }
  }

  // ---------- whole runs ----------

  /** Any run of writes on a log in a directory that held none of it. After every line the live file
      is below its limit and all bytes below the sum of both limits, and a reader gets a suffix of
      the lines. At most one rotation per line, so that many clock readings have to increase. */
  method WriteAll(dir: Directory, live: string, maxBytes: nat, maxTotalBytes: nat, gzipRotated: bool,
                  clock: nat -> u128, compressed: nat -> Option<nat>, lines: seq<string>)
    returns (log: AlertsFile)
    requires dir.undeletable == {} && Siblings(dir.files, live) == {} && live !in dir.files && maxBytes > 0
    requires forall i, j :: 0 <= i < j < |lines| ==> clock(i) < clock(j)
    modifies dir
    ensures fresh(log) && log.dir == dir && log.live == live && log.maxBytes == maxBytes
    ensures log.Valid() && log.written == lines
    ensures SizeOf(dir.files, live) < maxBytes
    ensures SizeOf(dir.files, live) + Total(dir.files, Siblings(dir.files, live)) < maxTotalBytes + maxBytes
    ensures ReadsSuffix(dir.files, live, lines)
    ensures !gzipRotated ==> ReadsWithin(dir.files, live, maxTotalBytes + maxBytes)
  {
    hide ReadsWithin, AllPlain, IsLog, Holds, OthersUntouched, IsRotation, ReadsSuffix;
    log := new AlertsFile(dir, live, maxBytes, maxTotalBytes, gzipRotated, clock, compressed);
    for n := 0 to |lines|
      invariant log.Valid() && log.written == lines[..n] && log.rotations <= n
      invariant log.sealedBefore == if log.rotations == 0 then 0 else clock(log.rotations - 1) + 1
    {
      var k := log.WriteLine(lines[n]);
      assert lines[..n + 1] == lines[..n] + [lines[n]];
    }
    assert lines[..|lines|] == lines;
    SuffixForAll(log.dir.files, live, log.chunks, log.liveLines, lines, log.sealedBefore);
    if !gzipRotated {
      PlainWithin(log.dir.files, live, log.chunks, log.liveLines, lines, log.sealedBefore, maxTotalBytes + maxBytes);
    }
  }

  /** Whatever order the directory is read in, chunks by key and then the live file are the encoding of
      a suffix of the lines. */
  ghost predicate ReadsSuffix(files: Files, live: string, lines: seq<string>) {
    live in files
    && forall list :: IsListing(list, Siblings(files, live)) ==> ReadsFrom(files, live, list, lines)
  }

  /** The bytes are those of the lines from this one on, and without newlines in them they read back. */
  ghost predicate ReadsAs(content: string, lines: seq<string>, from: nat)
    requires from <= |lines|
  {
    && content == Encode(lines[from..])
    && (FreeOf(lines, NEWLINE) ==> Split(content, NEWLINE) == lines[from..] + [""])
  }

  ghost predicate ReadsFrom(files: Files, live: string, list: seq<string>, lines: seq<string>)
    requires live in files
  {
    (forall n :: n in list ==> n in files)
    && exists from: nat :: from <= |lines| && ReadsAs(Contents(files, list) + files[live].content, lines, from)
  }

  lemma SuffixForAll(files: Files, live: string, chunks: seq<Chunk>, liveLines: seq<string>, written: seq<string>, now: nat)
    requires IsLog(files, live, chunks, liveLines, written, now) && live in files
    ensures ReadsSuffix(files, live, written)
  {
    hide IsLog, Contents, Encode, IsListing;
    forall list | IsListing(list, Siblings(files, live)) ensures ReadsFrom(files, live, list, written) {
      var from := RetainedIsSuffix(files, live, chunks, liveLines, written, now, list);
      assert ReadsAs(Contents(files, list) + files[live].content, written, from);
    }
  }

  /** A log of at most four live bytes, two lines, two rotations. */
  method FirstRotations() returns (log: AlertsFile)
    ensures log.Valid() && log.written == ["abc", "def"] && log.liveLines == [] && log.rotations == 2
    ensures ReadsSuffix(log.dir.files, log.live, ["abc", "def"])
  {
    hide IsLog, Holds, OthersUntouched, IsRotation, ReadsSuffix, Plain;
    var dir := new Directory(map[], {});
    log := new AlertsFile(dir, "alerts.jsonl", 4, 100, false, i => if i <= 7 then i else 7, i => None);
    var k := log.WriteLine("abc");
    k := log.WriteLine("def");
    SuffixForAll(dir.files, log.live, log.chunks, log.liveLines, log.written, log.sealedBefore);
  }
}
