/** Choosing a chunker by name, with keyword arguments that fall back to each chunker's
    defaults. */
module ChunkerFactory {
  import opened Common
  import FixedSizeChunking
  import SemanticChunking

  const Fixed: string := "fixed"
  const Semantic: string := "semantic"

  /** The type name the factory uses when none is given. */
  const DefaultType: string := Fixed

  /** The keyword arguments the factory reads; any others are accepted and ignored. */
  datatype ChunkerArgs = ChunkerArgs(
    chunkSize: Option<int>,
    chunkOverlap: Option<int>,
    maxChunkSize: Option<int>,
    minChunkSize: Option<int>)

  const NoArgs: ChunkerArgs := ChunkerArgs(None, None, None, None)

  /** A chunker of either kind. */
  datatype Chunker =
    | FixedChunker(fixed: FixedSizeChunking.ValidChunker)
    | SemanticChunker(semantic: SemanticChunking.SemanticChunker)

  function UnknownType(chunkerType: string): string {
    "未知的分块器类型: " + chunkerType
  }

  /** `create_chunker(chunker_type, **kwargs)`; `None` stands for the omitted type. */
  function CreateChunker(chunkerType: Option<string>, args: ChunkerArgs): (r: Result<Chunker>)
    ensures chunkerType.GetOr(DefaultType) == Fixed ==>
      var size := args.chunkSize.GetOr(FixedSizeChunking.DefaultChunkSize);
      var overlap := args.chunkOverlap.GetOr(FixedSizeChunking.DefaultChunkOverlap);
      match FixedSizeChunking.New(size, overlap)
      case Ok(f) => r == Ok(FixedChunker(f))
      case Err(e) => r == Err(e)
    ensures chunkerType.GetOr(DefaultType) == Semantic ==>
      r == Ok(SemanticChunker(SemanticChunking.SemanticChunker(
        args.maxChunkSize.GetOr(SemanticChunking.DefaultMaxChunkSize),
        args.minChunkSize.GetOr(SemanticChunking.DefaultMinChunkSize))))
    ensures chunkerType.GetOr(DefaultType) !in {Fixed, Semantic} ==>
      r == Err(ValueError(UnknownType(chunkerType.GetOr(DefaultType))))
  {
    var t := chunkerType.GetOr(DefaultType);
    if t == Fixed then
      var f :- FixedSizeChunking.New(args.chunkSize.GetOr(FixedSizeChunking.DefaultChunkSize),
                                     args.chunkOverlap.GetOr(FixedSizeChunking.DefaultChunkOverlap));
      Ok(FixedChunker(f))
    else if t == Semantic then
      Ok(SemanticChunker(SemanticChunking.SemanticChunker(
        args.maxChunkSize.GetOr(SemanticChunking.DefaultMaxChunkSize),
        args.minChunkSize.GetOr(SemanticChunking.DefaultMinChunkSize))))
    else
      Err(ValueError(UnknownType(t)))
  }

  /** `get_available_chunkers()`: each type name with its description. */
  function AvailableChunkers(): (r: map<string, string>)
    ensures r.Keys == {Fixed, Semantic}
  {
    map[Fixed := "固定大小分块器，支持重叠", Semantic := "语义分块器，按段落和句子分割"]
  }

  /** What `chunk(text)` returns for a chunker of either kind. */
  function ChunksOf(c: Chunker, text: string): seq<string> {
    match c
    case FixedChunker(f) => FixedSizeChunking.FixedChunks(f, text)
    case SemanticChunker(s) => SemanticChunking.SemanticChunks(s, text)
  }

  /** `chunker.chunk(text)`, dispatched on the kind. */
  method Chunk(c: Chunker, text: string) returns (chunks: seq<string>)
    ensures chunks == ChunksOf(c, text)
  {
    match c
    case FixedChunker(f) => chunks := FixedSizeChunking.Chunk(f, text);
    case SemanticChunker(s) => chunks := SemanticChunking.Chunk(s, text);
  }

  /** The listed names are exactly the names the factory accepts: a listed name never fails
      as unknown, and with default arguments it always builds a chunker. */
  lemma AvailableMatchesCreate(t: string, args: ChunkerArgs)
    ensures t in AvailableChunkers() <==> CreateChunker(Some(t), args) != Err(ValueError(UnknownType(t)))
    ensures t in AvailableChunkers() <==> CreateChunker(Some(t), NoArgs).Ok?
  {
    var size := args.chunkSize.GetOr(FixedSizeChunking.DefaultChunkSize);
    var overlap := args.chunkOverlap.GetOr(FixedSizeChunking.DefaultChunkOverlap);
    if t == Fixed {
      assert UnknownType(t)[..|UnknownType("")|] == UnknownType("");
      var e := FixedSizeChunking.New(size, overlap);
      assert e.Err? ==> e.error.reason[0] == 'c';
    }
  }

  /** The semantic branch reads only its own two arguments: `chunk_size` and `chunk_overlap`,
      which the offline processor always passes, change nothing. */
  lemma SemanticIgnoresChunkSize(args: ChunkerArgs, size: Option<int>, overlap: Option<int>)
    ensures CreateChunker(Some(Semantic), args) ==
            CreateChunker(Some(Semantic), args.(chunkSize := size, chunkOverlap := overlap))
    ensures CreateChunker(Some(Semantic), args).Ok?
  {
  }

  /** With no type the factory builds the fixed-size chunker, 500 by 50 unless told otherwise. */
  lemma DefaultIsFixed(args: ChunkerArgs)
    ensures CreateChunker(None, args) == CreateChunker(Some(Fixed), args)
    ensures CreateChunker(None, NoArgs) == Ok(FixedChunker(FixedSizeChunking.FixedSizeChunker(500, 50)))
  {
  }
}
