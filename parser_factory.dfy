/** Choosing a document parser by file extension. The parsers themselves (file reading with an
    encoding fallback, PDF text extraction) are an oracle. */
module ParserFactory {
  import opened Common

  datatype ParserKind = TxtParser | PdfParser

  /** What constructing a parser and calling `parse` on it gives: the text, or an exception. */
  datatype ParseOutcome = Parsed(text: string) | Raised

  /** The class-level registry `_parsers`. */
  const Parsers: map<string, ParserKind> := map[".txt" := TxtParser, ".pdf" := PdfParser]

  /** Whether `s[lo..hi]` holds a character other than a dot. */
  function HasNonDot(s: string, lo: nat, hi: nat): (b: bool)
    requires lo <= hi <= |s|
    ensures b <==> exists k :: lo <= k < hi && s[k] != '.'
    decreases hi - lo
  {
    if lo == hi then false else s[lo] != '.' || HasNonDot(s, lo + 1, hi)
  }

  /** The extension `os.path.splitext` returns on POSIX: from the last dot of the last path
      component on, unless every character of that component before the dot is a dot. */
  function Extension(path: string): string {
    var sep := RFind(path, '/');
    var dot := RFind(path, '.');
    if dot > sep && HasNonDot(path, sep + 1, dot) then path[dot..] else ""
  }

  /** The extension is a suffix of the path that is empty or is a dot followed by no dot and
      no separator; it is empty exactly when the last component has no dot after its first
      non-dot character. */
  lemma ExtensionSpec(path: string)
    ensures var e := Extension(path);
      |e| <= |path| && e == path[|path| - |e|..]
      && (e != [] ==> e[0] == '.' && forall k :: 0 <= k < |e| ==> e[k] != '/' && (k > 0 ==> e[k] != '.'))
    ensures Extension(path) == [] <==>
      var sep := RFind(path, '/');
      var dot := RFind(path, '.');
      !(dot > sep && exists k :: sep + 1 <= k < dot && path[k] != '.')
  {
    var sep := RFind(path, '/');
    var dot := RFind(path, '.');
    if dot > sep && HasNonDot(path, sep + 1, dot) {
      var e := path[dot..];
      assert forall k :: 0 <= k < |e| ==> e[k] == path[dot + k];
    }
  }

  /** `parse_document(file_path)`: unsupported extensions and any exception give `None`. */
  function ParseDocument(parse: (ParserKind, string) -> ParseOutcome, path: string): (r: Option<string>)
    ensures Lower(Extension(path)) !in Parsers ==> r == None
    ensures Lower(Extension(path)) in Parsers ==>
      match parse(Parsers[Lower(Extension(path))], path)
      case Parsed(text) => r == Some(text)
      case Raised => r == None
  {
    var ext := Lower(Extension(path));
    if ext !in Parsers then None
    else
      match parse(Parsers[ext], path)
      case Parsed(text) => Some(text)
      case Raised => None
  }

  /** `get_parser(file_type)`: the registered parser kind for the lower-cased type. */
  function GetParser(fileType: string): (r: Option<ParserKind>)
    ensures r.Some? <==> Lower(fileType) in {".txt", ".pdf"}
    ensures r == Some(TxtParser) <==> Lower(fileType) == ".txt"
  {
    if Lower(fileType) in Parsers then Some(Parsers[Lower(fileType)]) else None
  }

  /** Only `.txt` and `.pdf` are registered; lower-casing makes the lookup case-blind for
      them. */
  lemma RegistryIsTxtAndPdf(ext: string)
    ensures Parsers.Keys == {".txt", ".pdf"}
    ensures (|ext| == 4 && Lower(ext) == ".txt") <==>
      (|ext| == 4 && ext[0] == '.' && ext[1] in {'t', 'T'} && ext[2] in {'x', 'X'} && ext[3] in {'t', 'T'})
  {
    if |ext| == 4 {
      assert Lower(ext)[1] == LowerChar(ext[1]);
    }
  }

  /** `a.TXT` goes to the text parser. */
  lemma UpperCaseExtension()
    ensures Extension("a.TXT") == ".TXT" && Lower(".TXT") == ".txt"
  {
    var p := "a.TXT";
    assert p[0] != '/' && p[1] == '.' && p[2] != '.' && p[3] != '.' && p[4] != '.';
    assert RFind("a.TXT", '/') == -1;
    assert RFind("a.TXT", '.') == 1;
    assert HasNonDot("a.TXT", 0, 1);
    assert "a.TXT"[1..] == ".TXT";
  }

  /** Dot files and dot-only names have no extension. */
  lemma HiddenFileHasNoExtension()
    ensures Extension(".txt") == "" && Extension("dir/..pdf") == ""
  {
    var a, b := ".txt", "dir/..pdf";
    assert a[0] == '.' && a[1] != '.' && a[2] != '.' && a[3] != '.' && a[0] != '/';
    assert b[3] == '/' && b[4] == '.' && b[5] == '.' && b[6] != '.' && b[7] != '.' && b[8] != '.';
    assert b[4..] != [] && b[6] != '/' && b[7] != '/' && b[8] != '/' && b[5] != '/' && b[4] != '/';
    assert RFind(".txt", '/') == -1;
    assert RFind(".txt", '.') == 0;
    assert RFind("dir/..pdf", '/') == 3;
    assert RFind("dir/..pdf", '.') == 5;
    assert !HasNonDot("dir/..pdf", 4, 5);
  }

  /** An unsupported extension never consults a parser: the result is `None` whatever the
      parsers would do. */
  lemma UnsupportedNeverParses(p1: (ParserKind, string) -> ParseOutcome,
                               p2: (ParserKind, string) -> ParseOutcome, path: string)
    requires Lower(Extension(path)) !in Parsers
    ensures ParseDocument(p1, path) == None == ParseDocument(p2, path)
  {
  }

  /** The result depends only on the lower-cased extension's parser and the path. */
  lemma SameParserSameResult(p1: (ParserKind, string) -> ParseOutcome,
                             p2: (ParserKind, string) -> ParseOutcome, path: string)
    requires forall k: ParserKind :: p1(k, path) == p2(k, path)
    ensures ParseDocument(p1, path) == ParseDocument(p2, path)
  {
  }

  /** `parse_document` uses exactly the parser `get_parser` returns for the path's extension. */
  lemma ParseUsesGetParser(parse: (ParserKind, string) -> ParseOutcome, path: string)
    ensures ParseDocument(parse, path) ==
      match GetParser(Extension(path))
      case None => None
      case Some(k) => (match parse(k, path) case Parsed(t) => Some(t) case Raised => None)
  {
  }
}
