/** The values the pipeline keeps in memory and on disk: embedding matrices, the flat L2 index,
    chunk metadata, and a file store that maps paths to saved artifacts. */
module Storage {

  type Vector = seq<real>

  /** A two-dimensional array: its rows and `shape[1]`. */
  datatype Matrix = Matrix(rows: seq<Vector>, width: nat) {
    predicate Rectangular() {
      forall i :: 0 <= i < |rows| ==> |rows[i]| == width
    }
  }

  /** A FAISS `IndexFlatL2`: its dimension `d` and the vectors added to it, in order. */
  datatype FlatIndex = FlatIndex(d: nat, rows: seq<Vector>) {
    predicate Valid() {
      forall i :: 0 <= i < |rows| ==> |rows[i]| == d
    }
  }

  /** An index whose every row has the index's dimension, as FAISS guarantees. */
  type ValidIndex = i: FlatIndex | i.Valid() witness FlatIndex(0, [])

  /** The metadata the offline processor records for each chunk. */
  datatype ChunkMetadata = ChunkMetadata(sourceFile: string, filePath: string, chunkIndex: int)

  /** What a pickle file holds: the list of chunk texts or the list of metadata records. */
  datatype Pickle = Texts(texts: seq<string>) | Records(records: seq<ChunkMetadata>)

  datatype Artifact = IndexFile(index: ValidIndex) | PickleFile(pickle: Pickle)

  /** The file system, as far as the pipeline reads and writes it. */
  type FileStore = map<string, Artifact>
}
