/** The offline pipeline: scan a directory, parse and chunk each file, embed every chunk,
    build the vector store and write the index, the chunk texts and the chunk metadata. The
    directory listing, the parsers, the TF-IDF weighting and the embedding service are inputs. */
module OfflineProcessing {
  import opened Common
  import opened Storage
  import ParserFactory
  import ChunkerFactory
  import opened Embeddings
  import opened FaissStore

  // ---------------------------------------------------------------------------
  // Paths

  /** `os.path.join(a, b)` on POSIX. */
  function PathJoin(a: string, b: string): string {
    if b != [] && b[0] == '/' then b
    else if a == [] || a[|a| - 1] == '/' then a + b
    else a + "/" + b
  }

  /** `os.path.basename(p)`: what follows the last separator. */
  function Basename(p: string): (r: string)
    ensures |r| <= |p| && r == p[|p| - |r|..] && '/' !in r
  {
    var r := p[RFind(p, '/') + 1..];
    assert forall k :: 0 <= k < |r| ==> r[k] == p[RFind(p, '/') + 1 + k];
    r
  }

  /** Characters after the last occurrence do not move it. */
  lemma {:induction false} RFindPastSuffix(prefix: string, suffix: string, c: char)
    requires c !in suffix
    ensures RFind(prefix + suffix, c) == RFind(prefix, c)
    decreases |suffix|
  {
    if suffix != [] {
      var s := prefix + suffix;
      assert s[..|s| - 1] == prefix + suffix[..|suffix| - 1];
      assert s[|s| - 1] == suffix[|suffix| - 1];
      RFindPastSuffix(prefix, suffix[..|suffix| - 1], c);
    } else {
      assert prefix + suffix == prefix;
    }
  }

  /** The base name of a joined path is the name joined on, when that name is a plain name. */
  lemma BasenameOfJoin(dir: string, name: string)
    requires name != [] && '/' !in name
    ensures Basename(PathJoin(dir, name)) == name
  {
    var prefix := if dir == [] || dir[|dir| - 1] == '/' then dir else dir + "/";
    assert PathJoin(dir, name) == prefix + name;
    RFindPastSuffix(prefix, name, '/');
    assert prefix == [] || prefix[|prefix| - 1] == '/';
    assert RFind(prefix, '/') == |prefix| - 1;
    assert (prefix + name)[|prefix|..] == name;
  }

  /** Joining two different plain names to the same directory gives two different paths. */
  lemma JoinDistinct(dir: string, a: string, b: string)
    requires a != b && a != [] && b != [] && a[0] != '/' && b[0] != '/'
    ensures PathJoin(dir, a) != PathJoin(dir, b)
  {
    var prefix := if dir == [] || dir[|dir| - 1] == '/' then dir else dir + "/";
    assert PathJoin(dir, a) == prefix + a && PathJoin(dir, b) == prefix + b;
    assert (prefix + a)[|prefix|..] == a && (prefix + b)[|prefix|..] == b;
  }

  const IndexFileName: string := "faiss_index.bin"
  const DocumentsFileName: string := "documents.pkl"
  const MetadataFileName: string := "metadata.pkl"

  function IndexPath(outputDir: string): string { PathJoin(outputDir, IndexFileName) }
  function DocumentsPath(outputDir: string): string { PathJoin(outputDir, DocumentsFileName) }
  function MetadataPath(outputDir: string): string { PathJoin(outputDir, MetadataFileName) }

  /** The three output files of one directory are three different files. */
  lemma OutputPathsDistinct(outputDir: string)
    ensures IndexPath(outputDir) != DocumentsPath(outputDir)
    ensures IndexPath(outputDir) != MetadataPath(outputDir)
    ensures DocumentsPath(outputDir) != MetadataPath(outputDir)
  {
    assert IndexFileName[0] == 'f' && DocumentsFileName[0] == 'd' && MetadataFileName[0] == 'm';
    JoinDistinct(outputDir, IndexFileName, DocumentsFileName);
    JoinDistinct(outputDir, IndexFileName, MetadataFileName);
    JoinDistinct(outputDir, DocumentsFileName, MetadataFileName);
  }

  // ---------------------------------------------------------------------------
  // String order and `sorted`

  /** Python's ordering of strings: code point by code point, a proper prefix first. */
  predicate StrLe(a: string, b: string)
    decreases |a|
  {
    a == [] || (b != [] && (a[0] < b[0] || (a[0] == b[0] && StrLe(a[1..], b[1..]))))
  }

  lemma {:induction false} StrLeTotal(a: string, b: string)
    ensures StrLe(a, b) || StrLe(b, a)
    decreases |a|
  {
    if a != [] && b != [] && a[0] == b[0] {
      StrLeTotal(a[1..], b[1..]);
    }
  }

  lemma {:induction false} StrLeAntisymmetric(a: string, b: string)
    requires StrLe(a, b) && StrLe(b, a)
    ensures a == b
    decreases |a|
  {
    if a != [] {
      StrLeAntisymmetric(a[1..], b[1..]);
      assert a == [a[0]] + a[1..] && b == [b[0]] + b[1..];
    }
  }

  lemma {:induction false} StrLeTransitive(a: string, b: string, c: string)
    requires StrLe(a, b) && StrLe(b, c)
    ensures StrLe(a, c)
    decreases |a|
  {
    if a != [] && a[0] == b[0] && b[0] == c[0] {
      StrLeTransitive(a[1..], b[1..], c[1..]);
    }
  }

  lemma {:induction false} StrLeReflexive(a: string)
    ensures StrLe(a, a)
    decreases |a|
  {
    if a != [] {
      StrLeReflexive(a[1..]);
    }
  }

  predicate Sorted(s: seq<string>) {
    forall i :: 0 < i < |s| ==> StrLe(s[i - 1], s[i])
  }

  function InsertString(x: string, s: seq<string>): (r: seq<string>)
    ensures multiset(r) == multiset(s) + multiset{x}
  {
    if s == [] then [x]
    else if StrLe(x, s[0]) then [x] + s
    else
      assert s == [s[0]] + s[1..];
      [s[0]] + InsertString(x, s[1..])
  }

  /** `sorted(files)`. */
  function SortStrings(s: seq<string>): (r: seq<string>)
    ensures multiset(r) == multiset(s)
  {
    if s == [] then []
    else
      assert s == [s[0]] + s[1..];
      InsertString(s[0], SortStrings(s[1..]))
  }

  lemma {:induction false} InsertStringSorted(x: string, s: seq<string>)
    requires Sorted(s)
    ensures Sorted(InsertString(x, s))
    ensures s != [] ==> InsertString(x, s)[0] == x || InsertString(x, s)[0] == s[0]
  {
    if s != [] && !StrLe(x, s[0]) {
      StrLeTotal(x, s[0]);
      InsertStringSorted(x, s[1..]);
    }
  }

  lemma {:induction false} SortStringsSorted(s: seq<string>)
    ensures Sorted(SortStrings(s))
  {
    if s != [] {
      SortStringsSorted(s[1..]);
      InsertStringSorted(s[0], SortStrings(s[1..]));
    }
  }

  /** The head of a sorted list is below everything in it. */
  lemma {:induction false} SortedHeadLeast(s: seq<string>, x: string)
    requires Sorted(s) && x in s
    ensures StrLe(s[0], x)
  {
    if s[0] == x {
      StrLeReflexive(x);
    } else {
      assert x in s[1..];
      SortedTail(s);
      SortedHeadLeast(s[1..], x);
      assert StrLe(s[0], s[1]);
      StrLeTransitive(s[0], s[1], x);
    }
  }

  lemma SortedTail(s: seq<string>)
    requires Sorted(s) && s != []
    ensures Sorted(s[1..])
  {
    forall i | 0 < i < |s[1..]| ensures StrLe(s[1..][i - 1], s[1..][i]) {
      assert s[1..][i - 1] == s[i] && s[1..][i] == s[i + 1];
    }
  }

  lemma MultisetTail(s: seq<string>)
    requires s != []
    ensures multiset(s[1..]) == multiset(s) - multiset{s[0]}
  {
    assert s == [s[0]] + s[1..];
  }

  /** Two sorted lists holding the same strings start with the same string. */
  lemma SortedHeadsEqual(a: seq<string>, b: seq<string>)
    requires Sorted(a) && Sorted(b) && multiset(a) == multiset(b) && a != []
    ensures b != [] && a[0] == b[0]
  {
    assert |a| == |multiset(a)| == |multiset(b)| == |b|;
    assert a[0] in multiset(b) && b[0] in multiset(a);
    SortedHeadLeast(a, b[0]);
    SortedHeadLeast(b, a[0]);
    StrLeAntisymmetric(a[0], b[0]);
  }

  /** Two sorted lists holding the same strings are equal. */
  lemma {:induction false} SortedUnique(a: seq<string>, b: seq<string>)
    requires Sorted(a) && Sorted(b) && multiset(a) == multiset(b)
    ensures a == b
  {
    if a == [] {
      assert |b| == |multiset(b)| == 0;
    } else {
      SortedHeadsEqual(a, b);
      MultisetTail(a);
      MultisetTail(b);
      SortedTail(a);
      SortedTail(b);
      SortedUnique(a[1..], b[1..]);
      assert a == [a[0]] + a[1..] && b == [b[0]] + b[1..];
    }
  }

  // ---------------------------------------------------------------------------
  // _scan_directory

  /** One name `os.listdir` returns, and whether `os.path.isfile` holds for it. */
  datatype DirEntry = DirEntry(name: string, isFile: bool)

  const DefaultFileTypes: seq<string> := [".pdf", ".txt"]

  predicate Wanted(entry: DirEntry, fileTypes: seq<string>) {
    entry.isFile && Lower(ParserFactory.Extension(entry.name)) in fileTypes
  }

  /** The joined paths of the wanted entries, in listing order. */
  function Selected(dataDir: string, listing: seq<DirEntry>, fileTypes: seq<string>): seq<string> {
    if listing == [] then []
    else
      var rest := Selected(dataDir, listing[..|listing| - 1], fileTypes);
      var last := listing[|listing| - 1];
      if Wanted(last, fileTypes) then rest + [PathJoin(dataDir, last.name)] else rest
  }

  /** What `_scan_directory(file_types)` returns. */
  function Scanned(dataDir: string, listing: seq<DirEntry>, fileTypes: Option<seq<string>>): seq<string> {
    SortStrings(Selected(dataDir, listing, fileTypes.GetOr(DefaultFileTypes)))
  }

  method ScanDirectory(dataDir: string, listing: seq<DirEntry>, fileTypes: Option<seq<string>>)
    returns (files: seq<string>)
    ensures files == Scanned(dataDir, listing, fileTypes)
  {
    var types := if fileTypes.Some? then fileTypes.value else DefaultFileTypes;
    var found: seq<string> := [];
    for i := 0 to |listing|
      invariant found == Selected(dataDir, listing[..i], types)
    {
      assert listing[..i + 1][..i] == listing[..i];
      var entry := listing[i];
      if Wanted(entry, types) {
        found := found + [PathJoin(dataDir, entry.name)];
      }
    }
    assert listing[..|listing|] == listing;
    files := SortStrings(found);
  }

  /** Every selected path comes from a wanted entry. */
  lemma {:induction false} SelectedSource(dataDir: string, listing: seq<DirEntry>, fileTypes: seq<string>, p: string)
    returns (k: nat)
    requires p in Selected(dataDir, listing, fileTypes)
    ensures k < |listing| && Wanted(listing[k], fileTypes) && p == PathJoin(dataDir, listing[k].name)
  {
    var init := listing[..|listing| - 1];
    if p in Selected(dataDir, init, fileTypes) {
      k := SelectedSource(dataDir, init, fileTypes, p);
      assert listing[k] == init[k];
    } else {
      k := |listing| - 1;
    }
  }

  /** Every wanted entry is selected. */
  lemma {:induction false} SelectedIncludes(dataDir: string, listing: seq<DirEntry>, fileTypes: seq<string>, k: nat)
    requires k < |listing| && Wanted(listing[k], fileTypes)
    ensures PathJoin(dataDir, listing[k].name) in Selected(dataDir, listing, fileTypes)
  {
    var init := listing[..|listing| - 1];
    if k < |init| {
      assert init[k] == listing[k];
      SelectedIncludes(dataDir, init, fileTypes, k);
    }
  }

  /** The scan is sorted and lists exactly the joined paths of the regular files whose
      lower-cased extension is one of the wanted types (`.pdf` and `.txt` by default), each
      as often as it is listed. */
  lemma ScanSpec(dataDir: string, listing: seq<DirEntry>, fileTypes: Option<seq<string>>, p: string)
    ensures Sorted(Scanned(dataDir, listing, fileTypes))
    ensures multiset(Scanned(dataDir, listing, fileTypes)) ==
            multiset(Selected(dataDir, listing, fileTypes.GetOr(DefaultFileTypes)))
    ensures p in Scanned(dataDir, listing, fileTypes) <==>
      exists k :: 0 <= k < |listing| && Wanted(listing[k], fileTypes.GetOr([".pdf", ".txt"]))
                  && p == PathJoin(dataDir, listing[k].name)
  {
    var selected := Selected(dataDir, listing, fileTypes.GetOr(DefaultFileTypes));
    SortStringsSorted(selected);
    assert p in Scanned(dataDir, listing, fileTypes) <==> p in multiset(selected);
    if p in selected {
      var k := SelectedSource(dataDir, listing, fileTypes.GetOr(DefaultFileTypes), p);
    }
    if exists k :: 0 <= k < |listing| && Wanted(listing[k], fileTypes.GetOr([".pdf", ".txt"]))
                   && p == PathJoin(dataDir, listing[k].name) {
      var k :| 0 <= k < |listing| && Wanted(listing[k], fileTypes.GetOr([".pdf", ".txt"]))
               && p == PathJoin(dataDir, listing[k].name);
      SelectedIncludes(dataDir, listing, fileTypes.GetOr(DefaultFileTypes), k);
    }
  }

  /** The order in which `os.listdir` happens to return the names does not matter. */
  lemma ScanIgnoresListingOrder(dataDir: string, l1: seq<DirEntry>, l2: seq<DirEntry>, fileTypes: Option<seq<string>>)
    requires multiset(Selected(dataDir, l1, fileTypes.GetOr(DefaultFileTypes))) ==
             multiset(Selected(dataDir, l2, fileTypes.GetOr(DefaultFileTypes)))
    ensures Scanned(dataDir, l1, fileTypes) == Scanned(dataDir, l2, fileTypes)
  {
    SortStringsSorted(Selected(dataDir, l1, fileTypes.GetOr(DefaultFileTypes)));
    SortStringsSorted(Selected(dataDir, l2, fileTypes.GetOr(DefaultFileTypes)));
    SortedUnique(Scanned(dataDir, l1, fileTypes), Scanned(dataDir, l2, fileTypes));
  }

  // ---------------------------------------------------------------------------
  // The per-file loop of process_directory

  type Parse = (ParserFactory.ParserKind, string) -> ParserFactory.ParseOutcome

  /** The chunks one file contributes: none when parsing fails or gives an empty text. */
  function FileChunks(parse: Parse, chunker: ChunkerFactory.Chunker, path: string): seq<string> {
    var text := ParserFactory.ParseDocument(parse, path);
    if text.None? || text.value == [] then [] else ChunkerFactory.ChunksOf(chunker, text.value)
  }

  /** The entry of `files_details` for a processed file. */
  datatype FileDetail = FileDetail(filename: string, chunks: nat, chars: nat)

  function Detail(parse: Parse, chunker: ChunkerFactory.Chunker, path: string): FileDetail {
    var text := ParserFactory.ParseDocument(parse, path);
    FileDetail(Basename(path), |FileChunks(parse, chunker, path)|, if text.Some? then |text.value| else 0)
  }

  /** The metadata of `n` chunks of one file, numbered on from `first`. */
  function Entries(path: string, first: nat, n: nat): (r: seq<ChunkMetadata>)
    ensures |r| == n
    ensures forall j :: 0 <= j < n ==> r[j] == ChunkMetadata(Basename(path), path, first + j)
  {
    seq(n, j requires 0 <= j < n => ChunkMetadata(Basename(path), path, first + j))
  }

  /** What the loop has gathered: `all_chunks`, `all_metadata` and the counters of `stats`. */
  datatype Accumulation = Accumulation(
    chunks: seq<string>, metadata: seq<ChunkMetadata>, processed: nat, failed: nat, details: seq<FileDetail>)

  /** One iteration: a file without chunks counts as failed, any other adds its chunks, their
      metadata and its detail. */
  function Visit(parse: Parse, chunker: ChunkerFactory.Chunker, acc: Accumulation, path: string): Accumulation {
    var chunks := FileChunks(parse, chunker, path);
    if chunks == [] then acc.(failed := acc.failed + 1)
    else Accumulation(acc.chunks + chunks, acc.metadata + Entries(path, |acc.chunks|, |chunks|),
                      acc.processed + 1, acc.failed, acc.details + [Detail(parse, chunker, path)])
  }

  /** The loop over `files`. */
  function Accumulate(parse: Parse, chunker: ChunkerFactory.Chunker, files: seq<string>): Accumulation {
    if files == [] then Accumulation([], [], 0, 0, [])
    else Visit(parse, chunker, Accumulate(parse, chunker, files[..|files| - 1]), files[|files| - 1])
  }

  /** The files that contributed chunks, in scan order. */
  function ProcessedFiles(parse: Parse, chunker: ChunkerFactory.Chunker, files: seq<string>): seq<string> {
    if files == [] then []
    else
      var rest := ProcessedFiles(parse, chunker, files[..|files| - 1]);
      var path := files[|files| - 1];
      if FileChunks(parse, chunker, path) == [] then rest else rest + [path]
  }

  function TotalChunks(details: seq<FileDetail>): nat {
    if details == [] then 0 else TotalChunks(details[..|details| - 1]) + details[|details| - 1].chunks
  }

  /** The chunks of each of `files`, file by file. */
  function ChunkLists(parse: Parse, chunker: ChunkerFactory.Chunker, files: seq<string>): (r: seq<seq<string>>)
    ensures |r| == |files|
    ensures forall i :: 0 <= i < |files| ==> r[i] == FileChunks(parse, chunker, files[i])
  {
    seq(|files|, i requires 0 <= i < |files| => FileChunks(parse, chunker, files[i]))
  }

  /** Every file is counted once, as processed or failed, and the details list exactly the
      processed files. */
  lemma {:induction false} AccumulateCounts(parse: Parse, chunker: ChunkerFactory.Chunker, files: seq<string>)
    ensures var acc := Accumulate(parse, chunker, files);
      acc.processed + acc.failed == |files|
      && acc.processed == |ProcessedFiles(parse, chunker, files)| == |acc.details|
  {
    if files != [] {
      AccumulateCounts(parse, chunker, files[..|files| - 1]);
    }
  }

  /** One more file, in terms of the chunks it has. */
  lemma AccumulateStep(parse: Parse, chunker: ChunkerFactory.Chunker, files: seq<string>)
    requires files != []
    ensures var init, path := files[..|files| - 1], files[|files| - 1];
      var chunks := FileChunks(parse, chunker, path);
      var before, acc := Accumulate(parse, chunker, init), Accumulate(parse, chunker, files);
      (chunks == [] ==> acc == before.(failed := before.failed + 1)
                        && ProcessedFiles(parse, chunker, files) == ProcessedFiles(parse, chunker, init))
      && (chunks != [] ==>
            acc.chunks == before.chunks + chunks
            && acc.metadata == before.metadata + Entries(path, |before.chunks|, |chunks|)
            && acc.details == before.details + [Detail(parse, chunker, path)]
            && ProcessedFiles(parse, chunker, files) == ProcessedFiles(parse, chunker, init) + [path])
  {
  }

  lemma ChunkListsSnoc(parse: Parse, chunker: ChunkerFactory.Chunker, files: seq<string>, path: string)
    ensures Flatten(ChunkLists(parse, chunker, files + [path])) ==
            Flatten(ChunkLists(parse, chunker, files)) + FileChunks(parse, chunker, path)
  {
    assert ChunkLists(parse, chunker, files + [path]) ==
           ChunkLists(parse, chunker, files) + [FileChunks(parse, chunker, path)];
    FlattenSnoc(ChunkLists(parse, chunker, files), FileChunks(parse, chunker, path));
  }

  /** `all_chunks` is the processed files' chunks, one file after another in scan order. */
  lemma {:induction false} AccumulateChunks(parse: Parse, chunker: ChunkerFactory.Chunker, files: seq<string>)
    ensures Accumulate(parse, chunker, files).chunks ==
            Flatten(ChunkLists(parse, chunker, ProcessedFiles(parse, chunker, files)))
  {
    if files != [] {
      var init := files[..|files| - 1];
      AccumulateChunks(parse, chunker, init);
      AccumulateStep(parse, chunker, files);
      ChunkListsSnoc(parse, chunker, ProcessedFiles(parse, chunker, init), files[|files| - 1]);
    }
  }

  /** `details[k]` describes `done[k]`, for every `k`. */
  predicate Describes(parse: Parse, chunker: ChunkerFactory.Chunker, details: seq<FileDetail>, done: seq<string>) {
    |details| == |done| && forall k :: 0 <= k < |done| ==> details[k] == Detail(parse, chunker, done[k])
  }

  lemma DescribesSnoc(parse: Parse, chunker: ChunkerFactory.Chunker, details: seq<FileDetail>, done: seq<string>,
                      path: string)
    requires Describes(parse, chunker, details, done)
    ensures Describes(parse, chunker, details + [Detail(parse, chunker, path)], done + [path])
  {
    var d', p' := details + [Detail(parse, chunker, path)], done + [path];
    assert forall k :: 0 <= k < |done| ==> d'[k] == details[k] && p'[k] == done[k];
  }

  lemma {:induction false} DetailsDescribe(parse: Parse, chunker: ChunkerFactory.Chunker, files: seq<string>)
    ensures Describes(parse, chunker, Accumulate(parse, chunker, files).details, ProcessedFiles(parse, chunker, files))
  {
    if files != [] {
      var init := files[..|files| - 1];
      DetailsDescribe(parse, chunker, init);
      AccumulateStep(parse, chunker, files);
      if FileChunks(parse, chunker, files[|files| - 1]) != [] {
        DescribesSnoc(parse, chunker, Accumulate(parse, chunker, init).details, ProcessedFiles(parse, chunker, init),
                      files[|files| - 1]);
      }
    }
  }

  lemma {:induction false} DetailsTotal(parse: Parse, chunker: ChunkerFactory.Chunker, files: seq<string>)
    ensures TotalChunks(Accumulate(parse, chunker, files).details) == |Accumulate(parse, chunker, files).chunks|
  {
    if files != [] {
      var init := files[..|files| - 1];
      DetailsTotal(parse, chunker, init);
      AccumulateStep(parse, chunker, files);
      var acc := Accumulate(parse, chunker, files);
      if FileChunks(parse, chunker, files[|files| - 1]) != [] {
        assert acc.details[..|acc.details| - 1] == Accumulate(parse, chunker, init).details;
      }
    }
  }

  /** `files_details[k]` describes the `k`-th processed file, and the per-file chunk counts add
      up to `total_chunks`. */
  lemma AccumulateDetails(parse: Parse, chunker: ChunkerFactory.Chunker, files: seq<string>)
    ensures var acc := Accumulate(parse, chunker, files);
      var done := ProcessedFiles(parse, chunker, files);
      |acc.details| == |done|
      && (forall k :: 0 <= k < |done| ==> acc.details[k] == Detail(parse, chunker, done[k]))
      && TotalChunks(acc.details) == |acc.chunks|
  {
    DetailsDescribe(parse, chunker, files);
    DetailsTotal(parse, chunker, files);
  }

  lemma {:induction false} MetadataLength(parse: Parse, chunker: ChunkerFactory.Chunker, files: seq<string>)
    ensures |Accumulate(parse, chunker, files).metadata| == |Accumulate(parse, chunker, files).chunks|
  {
    if files != [] {
      MetadataLength(parse, chunker, files[..|files| - 1]);
      AccumulateStep(parse, chunker, files);
    }
  }

  lemma {:induction false} MetadataAt(parse: Parse, chunker: ChunkerFactory.Chunker, files: seq<string>, i: nat)
    requires i < |Accumulate(parse, chunker, files).chunks|
    ensures var acc := Accumulate(parse, chunker, files);
      i < |acc.metadata| && acc.metadata[i].chunkIndex == i
      && acc.metadata[i].sourceFile == Basename(acc.metadata[i].filePath)
      && acc.metadata[i].filePath in ProcessedFiles(parse, chunker, files)
      && acc.chunks[i] in FileChunks(parse, chunker, acc.metadata[i].filePath)
  {
    MetadataLength(parse, chunker, files);
    var init, path := files[..|files| - 1], files[|files| - 1];
    AccumulateStep(parse, chunker, files);
    MetadataLength(parse, chunker, init);
    var before, acc := Accumulate(parse, chunker, init), Accumulate(parse, chunker, files);
    var chunks := FileChunks(parse, chunker, path);
    if chunks == [] || i < |before.chunks| {
      MetadataAt(parse, chunker, init, i);
      assert acc.metadata[i] == before.metadata[i] && acc.chunks[i] == before.chunks[i];
    } else {
      var j := i - |before.chunks|;
      assert acc.metadata[i] == Entries(path, |before.chunks|, |chunks|)[j];
      assert acc.chunks[i] == chunks[j];
    }
  }

  /** `all_metadata` runs alongside `all_chunks`: entry `i` carries the global index `i`, the
      path of a processed file that produced chunk `i`, and that path's base name. */
  lemma MetadataAligned(parse: Parse, chunker: ChunkerFactory.Chunker, files: seq<string>)
    ensures var acc := Accumulate(parse, chunker, files);
      |acc.metadata| == |acc.chunks|
      && forall i :: 0 <= i < |acc.chunks| ==>
           acc.metadata[i].chunkIndex == i
           && acc.metadata[i].sourceFile == Basename(acc.metadata[i].filePath)
           && acc.metadata[i].filePath in ProcessedFiles(parse, chunker, files)
           && acc.chunks[i] in FileChunks(parse, chunker, acc.metadata[i].filePath)
  {
    MetadataLength(parse, chunker, files);
    var acc := Accumulate(parse, chunker, files);
    forall i | 0 <= i < |acc.chunks|
      ensures acc.metadata[i].chunkIndex == i
      ensures acc.metadata[i].sourceFile == Basename(acc.metadata[i].filePath)
      ensures acc.metadata[i].filePath in ProcessedFiles(parse, chunker, files)
      ensures acc.chunks[i] in FileChunks(parse, chunker, acc.metadata[i].filePath)
    {
      MetadataAt(parse, chunker, files, i);
    }
  }

  // ---------------------------------------------------------------------------
  // Building and publishing the store

  /** The `stats` dict that `process_directory` returns. */
  datatype ProcessStats = ProcessStats(
    totalFiles: nat, processedFiles: nat, failedFiles: nat, totalChunks: nat, filesDetails: seq<FileDetail>)

  function Summary(acc: Accumulation, totalFiles: nat): ProcessStats {
    ProcessStats(totalFiles, acc.processed, acc.failed, |acc.chunks|, acc.details)
  }

  const NoFilesFound: string := "没有找到可处理的文件"

  /** `{"error": ...}` when nothing was found to process, the statistics otherwise. */
  datatype DirectoryReport = NoFiles(error: string) | Report(stats: ProcessStats)

  /** The store built from the embeddings, and the file store after the three writes (or the
      error that stopped them). */
  datatype Published = Published(store: StoreState, files: Result<FileStore>)

  /** `FaissVectorStore(dimension=embeddings.shape[1])`, `add_documents`, `save` and the
      metadata pickle. */
  function Publish(m: Matrix, acc: Accumulation, fs: FileStore, outputDir: string): Published
    requires m.Rectangular()
  {
    var added := Add(Initial(Some(m.width)), m, acc.chunks);
    if added.error.Some? then Published(added.state, Err(added.error.value))
    else match Saved(added.state, fs, IndexPath(outputDir), DocumentsPath(outputDir))
      case Err(e) => Published(added.state, Err(e))
      case Ok(saved) => Published(added.state, Ok(saved[MetadataPath(outputDir) := PickleFile(Records(acc.metadata))]))
  }

  /** When the embedding has one row per chunk, publishing succeeds with an aligned store, and
      loading the two written files into any store gives back exactly that store; the
      metadata file holds the chunk metadata. */
  lemma PublishRoundTrip(m: Matrix, acc: Accumulation, fs: FileStore, outputDir: string, other: StoreState)
    requires m.Rectangular() && |m.rows| == |acc.chunks|
    ensures var p := Publish(m, acc, fs, outputDir);
      p.files.Ok? && p.store.Aligned() && p.store.documents == acc.chunks
      && p.store.index == Some(FlatIndex(m.width, m.rows)) && p.store.dimension == Some(m.width)
      && p.files.value[MetadataPath(outputDir)] == PickleFile(Records(acc.metadata))
      && LoadableAt(p.files.value, IndexPath(outputDir), DocumentsPath(outputDir))
      && LoadFrom(other, p.files.value, IndexPath(outputDir), DocumentsPath(outputDir)) == Update(None, p.store)
  {
    OutputPathsDistinct(outputDir);
    var added := Add(Initial(Some(m.width)), m, acc.chunks);
    assert added.error.None?;
    assert [] + m.rows == m.rows;
    SaveLoadRoundTrip(added.state, fs, IndexPath(outputDir), DocumentsPath(outputDir), other);
  }

  // ---------------------------------------------------------------------------
  // process_single_file

  const ParseFailed: string := "解析失败"
  const ChunkFailed: string := "分块失败"

  datatype SingleFileReport =
    | FileError(error: string)
    | FileSummary(filename: string, chunks: nat, chars: nat, sampleChunks: seq<string>)

  function SingleFile(parse: Parse, chunker: ChunkerFactory.Chunker, path: string): SingleFileReport {
    var text := ParserFactory.ParseDocument(parse, path);
    if text.None? || text.value == [] then FileError(ParseFailed)
    else
      var chunks := ChunkerFactory.ChunksOf(chunker, text.value);
      if chunks == [] then FileError(ChunkFailed)
      else FileSummary(Basename(path), |chunks|, |text.value|, Take(chunks, 3))
  }

  /** A single file reports a parse failure, a chunking failure, or up to three leading sample
      chunks with the same counts its entry in `files_details` would have; it is processed by
      the directory loop exactly when it gives a summary. */
  lemma SingleFileSpec(parse: Parse, chunker: ChunkerFactory.Chunker, path: string)
    ensures var r := SingleFile(parse, chunker, path);
      var text := ParserFactory.ParseDocument(parse, path);
      (r == FileError(ParseFailed) <==> text.None? || text.value == [])
      && (r == FileError(ChunkFailed) <==>
            text.Some? && text.value != [] && ChunkerFactory.ChunksOf(chunker, text.value) == [])
      && (r.FileSummary? <==> FileChunks(parse, chunker, path) != [])
      && (r.FileSummary? ==>
            1 <= |r.sampleChunks| <= 3 && r.sampleChunks == FileChunks(parse, chunker, path)[..|r.sampleChunks|]
            && Detail(parse, chunker, path) == FileDetail(r.filename, r.chunks, r.chars))
  {
    assert ParseFailed != ChunkFailed by { assert ParseFailed[0] != ChunkFailed[0]; }
  }

  // ---------------------------------------------------------------------------
  // The processor object

  const DefaultOutputDir: string := "knowledge/vector_store"
  const DefaultChunkerType: string := "semantic"
  const DefaultChunkSize: int := 500
  const DefaultChunkOverlap: int := 50
  const DefaultEmbedderType: string := "simple"

  /** The chunker arguments `__init__` passes: always `chunk_size` and `chunk_overlap`. */
  function ChunkerArgsOf(chunkSize: int, chunkOverlap: int): ChunkerFactory.ChunkerArgs {
    ChunkerFactory.ChunkerArgs(Some(chunkSize), Some(chunkOverlap), None, None)
  }

  class OfflineProcessor {
    const dataDir: string
    const outputDir: string
    const chunker: ChunkerFactory.Chunker
    const embedder: Embedder
    var vectorStore: Option<FaissVectorStore>

    constructor(dataDir: string, outputDir: string, chunker: ChunkerFactory.Chunker, embedder: Embedder)
      ensures this.dataDir == dataDir && this.outputDir == outputDir
      ensures this.chunker == chunker && this.embedder == embedder && vectorStore.None?
    {
      this.dataDir := dataDir;
      this.outputDir := outputDir;
      this.chunker := chunker;
      this.embedder := embedder;
      vectorStore := None;
    }

    /** The per-file loop of `process_directory`. */
    method CollectChunks(parse: Parse, files: seq<string>) returns (acc: Accumulation)
      ensures acc == Accumulate(parse, chunker, files)
    {
      acc := Accumulation([], [], 0, 0, []);
      for i := 0 to |files|
        invariant acc == Accumulate(parse, chunker, files[..i])
      {
        assert files[..i + 1][..i] == files[..i];
        acc := VisitFile(parse, acc, files[i]);
      }
      assert files[..|files|] == files;
    }

    /** The body of the per-file loop. */
    method VisitFile(parse: Parse, acc: Accumulation, path: string) returns (next: Accumulation)
      ensures next == Visit(parse, chunker, acc, path)
    {
      var filename := Basename(path);
      var text := ParserFactory.ParseDocument(parse, path);
      if text.None? || text.value == [] {
        return acc.(failed := acc.failed + 1);
      }
      var chunks := ChunkerFactory.Chunk(chunker, text.value);
      if chunks == [] {
        return acc.(failed := acc.failed + 1);
      }
      var allChunks, allMetadata := AppendChunks(acc.chunks, acc.metadata, path, chunks);
      next := Accumulation(allChunks, allMetadata, acc.processed + 1, acc.failed,
                           acc.details + [FileDetail(filename, |chunks|, |text.value|)]);
    }

    /** The inner loop: each chunk, with metadata numbered by the running chunk count. */
    static method AppendChunks(allChunks: seq<string>, allMetadata: seq<ChunkMetadata>, path: string,
                               chunks: seq<string>)
      returns (newChunks: seq<string>, newMetadata: seq<ChunkMetadata>)
      ensures newChunks == allChunks + chunks
      ensures newMetadata == allMetadata + Entries(path, |allChunks|, |chunks|)
    {
      var filename := Basename(path);
      newChunks, newMetadata := allChunks, allMetadata;
      for j := 0 to |chunks|
        invariant newChunks == allChunks + chunks[..j]
        invariant newMetadata == allMetadata + Entries(path, |allChunks|, j)
      {
        newChunks := newChunks + [chunks[j]];
        newMetadata := newMetadata + [ChunkMetadata(filename, path, |newChunks| - 1)];
        assert chunks[..j + 1] == chunks[..j] + [chunks[j]];
        assert Entries(path, |allChunks|, j + 1) == Entries(path, |allChunks|, j) + [ChunkMetadata(filename, path, |allChunks| + j)];
      }
      assert chunks[..|chunks|] == chunks;
    }

    /** `process_directory(file_types)`, given the directory listing, the parsers, the TF-IDF
        weighting and the embedding service; it returns the report or the exception that
        escaped, and the file store after the writes. */
    method ProcessDirectory(listing: seq<DirEntry>, fileTypes: Option<seq<string>>, parse: Parse,
                            tfidf: Tfidf, service: (ApiEmbedder, seq<string>) -> ServiceReply, fs: FileStore)
      returns (r: Result<DirectoryReport>, files: FileStore)
      modifies this, Trainees(embedder)
      ensures Scanned(dataDir, listing, fileTypes) == [] ==>
        r == Ok(NoFiles(NoFilesFound)) && files == fs && vectorStore == old(vectorStore)
        && unchanged(Trainees(embedder))
      ensures var scanned := Scanned(dataDir, listing, fileTypes);
        var acc := Accumulate(parse, chunker, scanned);
        scanned != [] && acc.chunks == [] ==>
          r == Ok(Report(Summary(acc, |scanned|))) && files == fs && vectorStore == old(vectorStore)
          && unchanged(Trainees(embedder))
      ensures var scanned := Scanned(dataDir, listing, fileTypes);
        var acc := Accumulate(parse, chunker, scanned);
        acc.chunks != [] ==>
          (HasFit(embedder) ==> Trainee(embedder).fitted && Trainee(embedder).corpus == acc.chunks)
          && match Embed(embedder, tfidf, service, Many(acc.chunks))
             case Err(e) => r == Err(e) && files == fs && vectorStore == old(vectorStore)
             case Ok(m) =>
               vectorStore.Some? && fresh(vectorStore.value)
               && var p := Publish(m, acc, fs, outputDir);
               vectorStore.value.State() == p.store
               && match p.files
                  case Err(e) => r == Err(e) && files == fs
                  case Ok(written) => r == Ok(Report(Summary(acc, |scanned|))) && files == written
    {
      files := fs;
      var scanned := ScanDirectory(dataDir, listing, fileTypes);
      if scanned == [] {
        return Ok(NoFiles(NoFilesFound)), fs;
      }
      var acc := CollectChunks(parse, scanned);
      var stats := Summary(acc, |scanned|);
      if acc.chunks == [] {
        return Ok(Report(stats)), fs;
      }
      var err;
      err, files := IndexChunks(acc, tfidf, service, fs);
      r := if err.Some? then Err(err.value) else Ok(Report(stats));
    }

    /** The tail of `process_directory`: fit when the embedder can be fitted, embed every
        chunk, build the store sized by the embedding width, and write the index, the texts
        and the metadata. */
    method IndexChunks(acc: Accumulation, tfidf: Tfidf, service: (ApiEmbedder, seq<string>) -> ServiceReply,
                       fs: FileStore)
      returns (err: Option<Error>, files: FileStore)
      modifies this, Trainees(embedder)
      ensures HasFit(embedder) && acc.chunks != [] ==>
        Trainee(embedder).fitted && Trainee(embedder).corpus == acc.chunks
      ensures match Embed(embedder, tfidf, service, Many(acc.chunks))
        case Err(e) => err == Some(e) && files == fs && vectorStore == old(vectorStore)
        case Ok(m) =>
          vectorStore.Some? && fresh(vectorStore.value)
          && var p := Publish(m, acc, fs, outputDir);
          vectorStore.value.State() == p.store
          && match p.files
             case Err(e) => err == Some(e) && files == fs
             case Ok(written) => err == None && files == written
    {
      files := fs;
      if HasFit(embedder) {
        var _ := FitEmbedder(embedder, acc.chunks);
      }
      var embedded := Embed(embedder, tfidf, service, Many(acc.chunks));
      if embedded.Err? {
        return Some(embedded.error), fs;
      }
      var m := embedded.value;
      var store := new FaissVectorStore(Some(m.width));
      vectorStore := Some(store);
      err := store.AddDocuments(m, acc.chunks);
      if err.Some? {
        return err, fs;
      }
      var saved := Saved(store.State(), fs, IndexPath(outputDir), DocumentsPath(outputDir));
      assert saved.Ok?;
      files := saved.value[MetadataPath(outputDir) := PickleFile(Records(acc.metadata))];
    }

    /** `process_single_file(file_path)`. */
    function ProcessSingleFile(parse: Parse, path: string): SingleFileReport {
      SingleFile(parse, chunker, path)
    }
  }

  /** `OfflineProcessor(data_dir, output_dir, chunker_type, chunk_size, chunk_overlap,
      embedder_type, **embedder_kwargs)`: the chunker is built first, so its errors win. */
  method NewOfflineProcessor(dataDir: string, outputDir: string, chunkerType: string, chunkSize: int,
                             chunkOverlap: int, embedderType: string, args: EmbedderArgs,
                             config: EmbeddingConfig)
    returns (r: Result<OfflineProcessor>)
    ensures var c := ChunkerFactory.CreateChunker(Some(chunkerType), ChunkerArgsOf(chunkSize, chunkOverlap));
      var e := CreationOutcome(Some(embedderType), args, config);
      (c.Err? ==> r == Err(c.error))
      && (c.Ok? && e.Err? ==> r == Err(e.error))
      && (c.Ok? && e.Ok? ==> r.Ok? && fresh(r.value) && r.value.chunker == c.value
                             && r.value.dataDir == dataDir && r.value.outputDir == outputDir
                             && r.value.vectorStore.None?
                             && BuiltAs(r.value.embedder, e.value, args, config)
                             && fresh(Footprint(r.value.embedder))
                             && (HasFit(r.value.embedder) ==> !Trainee(r.value.embedder).fitted))
  {
    var c := ChunkerFactory.CreateChunker(Some(chunkerType), ChunkerArgsOf(chunkSize, chunkOverlap));
    if c.Err? {
      return Err(c.error);
    }
    var e := CreateEmbedder(Some(embedderType), args, config);
    if e.Err? {
      return Err(e.error);
    }
    var p := new OfflineProcessor(dataDir, outputDir, c.value, e.value);
    r := Ok(p);
  }

  /** With the defaults the processor writes exactly the files the online retriever reads by
      default. */
  lemma DefaultOutputPaths()
    ensures IndexPath(DefaultOutputDir) == "knowledge/vector_store/faiss_index.bin"
    ensures DocumentsPath(DefaultOutputDir) == "knowledge/vector_store/documents.pkl"
    ensures MetadataPath(DefaultOutputDir) == "knowledge/vector_store/metadata.pkl"
  {
    assert DefaultOutputDir[|DefaultOutputDir| - 1] == 'e';
  }
}
