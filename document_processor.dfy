/** Loading a PDF into pages and cutting the pages into chunks for embedding. The PDF reader and
    the text splitter are parameters; the file system is the set of paths that exist. A document
    is a page of text with its metadata, a map from key to JSON value. A path is the text
    `str(path)` of a `pathlib.Path`, which is already normalised: no trailing '/', no repeated
    '/' and no "." components. */
module DocumentProcessing {
  import opened Wrappers
  import opened Strings
  import opened JsonValues

  /** A LangChain `Document`: its text and its metadata. */
  datatype Document = Document(pageContent: string, metadata: map<string, Json>)

  /** What the processor raises. */
  datatype DocError = FileNotFoundError(message: string) | ValueError(message: string)
                    | ZeroDivisionError(message: string)

  /** `PyPDFLoader(path).load()`: one document per page, or the text of what it raised. */
  type PdfReader = string -> Result<seq<Document>, string>

  /** The text splitter's cutting of one text into pieces. */
  type TextSplitter = string -> seq<string>

  /** The last component of a normalised path: `path.name`. */
  function PathName(path: string): (name: string)
    ensures '/' !in name
    ensures |name| <= |path| && name == path[|path| - |name|..]
    decreases |path|
  {
    if path == [] then ""
    else if path[|path| - 1] == '/' then ""
    else PathName(path[..|path| - 1]) + [path[|path| - 1]]
  }

  /** The position of the last '.' in a name, if there is one. */
  function LastDot(name: string): (r: Option<nat>)
    ensures r.Some? ==> r.value < |name| && name[r.value] == '.' && '.' !in name[r.value + 1..]
    ensures r.None? ==> '.' !in name
    decreases |name|
  {
    if name == [] then None
    else if name[|name| - 1] == '.' then Some(|name| - 1)
    else LastDot(name[..|name| - 1])
  }

  /** `path.suffix`: from the last '.' of the name on, unless that dot starts or ends the name. */
  function Suffix(path: string): (suffix: string)
    ensures suffix == "" || (suffix[0] == '.' && '.' !in suffix[1..] && |suffix| >= 2)
    ensures suffix != "" ==> exists i :: 0 < i < |PathName(path)| && suffix == PathName(path)[i..]
  {
    var name := PathName(path);
    match LastDot(name)
    case Some(i) => if 0 < i < |name| - 1 then name[i..] else ""
    case None => ""
  }

  const PdfSuffix: string := ".pdf"

  /** `load_pdf`: a missing file first, then a suffix other than `.pdf` in any letter case, then a
      reader failure; the pages read get the file's name and path in their metadata. */
  function LoadPdf(path: string, existing: set<string>, read: PdfReader): (r: Result<seq<Document>, DocError>)
    ensures path !in existing ==> r == Err(FileNotFoundError("PDF file not found: " + path))
    ensures path in existing && Lower(Suffix(path)) != PdfSuffix ==>
              r == Err(ValueError("File must be a PDF, got: " + Suffix(path)))
    ensures path in existing && Lower(Suffix(path)) == PdfSuffix && read(path).Err? ==>
              r == Err(ValueError("Failed to load PDF " + path + ": " + read(path).error))
    ensures r.Ok? ==> path in existing && Lower(Suffix(path)) == PdfSuffix && read(path).Ok?
                      && |r.value| == |read(path).value|
                      && forall i :: 0 <= i < |r.value| ==> r.value[i] == WithSource(read(path).value[i], path)
  {
    if path !in existing then Err(FileNotFoundError("PDF file not found: " + path))
    else if Lower(Suffix(path)) != PdfSuffix then Err(ValueError("File must be a PDF, got: " + Suffix(path)))
    else match read(path)
      case Err(e) => Err(ValueError("Failed to load PDF " + path + ": " + e))
      case Ok(pages) => Ok(seq(|pages|, i requires 0 <= i < |pages| => WithSource(pages[i], path)))
  }

  /** A page with its file's name and path recorded. */
  function WithSource(d: Document, path: string): Document {
    Sourced(d, PathName(path), path)
  }

  /** A page with the given file name and path recorded. */
  function Sourced(d: Document, name: string, path: string): Document {
    d.(metadata := d.metadata["source_file" := JString(name)]["source_path" := JString(path)])
  }

  /** The loop of `load_pdf` that writes the source keys into each page. */
  method AddSource(pages: seq<Document>, path: string) returns (docs: seq<Document>)
    ensures |docs| == |pages| && forall i :: 0 <= i < |pages| ==> docs[i] == WithSource(pages[i], path)
  {
    docs := SourceEach(pages, PathName(path), path);
  }

  /** Every page gets the same file name and path. */
  method SourceEach(pages: seq<Document>, name: string, path: string) returns (docs: seq<Document>)
    ensures |docs| == |pages| && forall i :: 0 <= i < |pages| ==> docs[i] == Sourced(pages[i], name, path)
  {
    docs := pages;
    for i := 0 to |docs|
      invariant |docs| == |pages|
      invariant forall j :: 0 <= j < i ==> docs[j] == Sourced(pages[j], name, path)
      invariant forall j :: i <= j < |pages| ==> docs[j] == pages[j]
    {
      docs := docs[i := Sourced(docs[i], name, path)];
    }
  }

  /** `split_documents`: every document cut into pieces in order, each piece keeping a copy of its
      document's metadata. */
  function SplitDocuments(documents: seq<Document>, split: TextSplitter): seq<Document>
    decreases |documents|
  {
    if documents == [] then []
    else
      var d := documents[0];
      var pieces := split(d.pageContent);
      seq(|pieces|, i requires 0 <= i < |pieces| => Document(pieces[i], d.metadata)) + SplitDocuments(documents[1..], split)
  }

  /** A chunk numbered `i`: its position and its length in its metadata. */
  function Numbered(chunk: Document, i: nat): Document {
    chunk.(metadata := chunk.metadata["chunk_index" := JNumber(i)]["chunk_size" := JNumber(|chunk.pageContent|)])
  }

  /** `chunk_documents`: nothing for no documents (the splitter is not called); otherwise the
      pieces, numbered in order. */
  function ChunkDocuments(documents: seq<Document>, split: TextSplitter): (chunks: seq<Document>)
    ensures documents == [] ==> chunks == []
    ensures documents != [] ==> |chunks| == |SplitDocuments(documents, split)|
    ensures documents != [] ==>
              forall i :: 0 <= i < |chunks| ==> chunks[i] == Numbered(SplitDocuments(documents, split)[i], i)
  {
    if documents == [] then []
    else
      var pieces := SplitDocuments(documents, split);
      seq(|pieces|, i requires 0 <= i < |pieces| => Numbered(pieces[i], i))
  }

  /** The `enumerate` loop of `chunk_documents`. */
  method NumberChunks(pieces: seq<Document>) returns (chunks: seq<Document>)
    ensures |chunks| == |pieces| && forall i :: 0 <= i < |pieces| ==> chunks[i] == Numbered(pieces[i], i)
  {
    chunks := pieces;
    for i := 0 to |chunks|
      invariant |chunks| == |pieces|
      invariant forall j :: 0 <= j < i ==> chunks[j] == Numbered(pieces[j], j)
      invariant forall j :: i <= j < |pieces| ==> chunks[j] == pieces[j]
    {
      chunks := chunks[i := Numbered(chunks[i], i)];
    }
  }

  /** Numbering writes exactly the two chunk keys: the i-th chunk has index i and its own length,
      and every other key of its metadata, with its value, is the one its piece had. */
  lemma NumberedKeepsOtherKeys(chunk: Document, i: nat)
    ensures Numbered(chunk, i).pageContent == chunk.pageContent
    ensures Numbered(chunk, i).metadata["chunk_index"] == JNumber(i)
    ensures Numbered(chunk, i).metadata["chunk_size"] == JNumber(|chunk.pageContent|)
    ensures Numbered(chunk, i).metadata.Keys == chunk.metadata.Keys + {"chunk_index", "chunk_size"}
    ensures forall k :: k in chunk.metadata && k != "chunk_index" && k != "chunk_size" ==>
              Numbered(chunk, i).metadata[k] == chunk.metadata[k]
  {
  }

  /** Split pieces keep, in order, the text pieces of each document and that document's metadata:
      the pieces of `a + b` are those of `a`, then those of `b`. */
  lemma {:induction false} SplitDocumentsAppend(a: seq<Document>, b: seq<Document>, split: TextSplitter)
    ensures SplitDocuments(a + b, split) == SplitDocuments(a, split) + SplitDocuments(b, split)
    decreases |a|
  {
    if a == [] {
      assert a + b == b;
    } else {
      assert (a + b)[0] == a[0] && (a + b)[1..] == a[1..] + b;
      SplitDocumentsAppend(a[1..], b, split);
    }
  }

  /** A single document's chunks are its text's pieces, each with the document's metadata plus
      its number and size. */
  lemma OneDocumentChunks(d: Document, split: TextSplitter)
    ensures var chunks := ChunkDocuments([d], split);
            && |chunks| == |split(d.pageContent)|
            && forall i :: 0 <= i < |chunks| ==>
                 chunks[i] == Document(split(d.pageContent)[i],
                                       d.metadata["chunk_index" := JNumber(i)]
                                                 ["chunk_size" := JNumber(|split(d.pageContent)[i]|)])
  {
    var pieces := split(d.pageContent);
    var own := seq(|pieces|, i requires 0 <= i < |pieces| => Document(pieces[i], d.metadata));
    assert [d][1..] == [];
    assert SplitDocuments([d], split) == own + SplitDocuments([], split);
    assert SplitDocuments([d], split) == own;
  }

  /** The `chunk_documents` method: the early return for no documents, then the numbering loop. */
  method ChunkDocumentsMethod(documents: seq<Document>, split: TextSplitter) returns (chunks: seq<Document>)
    ensures chunks == ChunkDocuments(documents, split)
  {
    if documents == [] {
      return [];
    }
    chunks := NumberChunks(SplitDocuments(documents, split));
  }

  /** `extract_metadata`: a copy of the metadata with the text's length and word count, and the page
      under a second key when there is one. */
  function ExtractMetadata(d: Document): (m: map<string, Json>)
    ensures m.Keys == d.metadata.Keys + {"content_length", "word_count"}
                      + (if "page" in d.metadata then {"page_number"} else {})
    ensures m["content_length"] == JNumber(|d.pageContent|)
    ensures m["word_count"] == JNumber(|Words(d.pageContent)|)
    ensures "page" in d.metadata ==> m["page_number"] == d.metadata["page"]
    ensures forall k :: k in d.metadata && k !in {"content_length", "word_count", "page_number"} ==>
              m[k] == d.metadata[k]
    ensures "page" !in d.metadata && "page_number" in d.metadata ==> m["page_number"] == d.metadata["page_number"]
  {
    var m := d.metadata["content_length" := JNumber(|d.pageContent|)]["word_count" := JNumber(|Words(d.pageContent)|)];
    if "page" in m then m["page_number" := m["page"]] else m
  }

  /** `process_pdf` as meant: the loaded pages, chunked. */
  function ProcessPdf(path: string, existing: set<string>, read: PdfReader, split: TextSplitter)
    : (r: Result<seq<Document>, DocError>)
    ensures LoadPdf(path, existing, read).Err? ==> r == Err(LoadPdf(path, existing, read).error)
    ensures LoadPdf(path, existing, read).Ok? ==> r == Ok(ChunkDocuments(LoadPdf(path, existing, read).value, split))
  {
    var pages :- LoadPdf(path, existing, read);
    Ok(ChunkDocuments(pages, split))
  }

  const ZeroDivisionText: string := "integer division or modulo by zero"

  /** `process_pdf` as written: the average chunk size it prints divides by the number of chunks,
      so a document that gives no chunks raises instead of returning them. */
  function ProcessPdfAsWritten(path: string, existing: set<string>, read: PdfReader, split: TextSplitter)
    : (r: Result<seq<Document>, DocError>)
    ensures ProcessPdf(path, existing, read, split) == Ok([]) ==> r == Err(ZeroDivisionError(ZeroDivisionText))
    ensures ProcessPdf(path, existing, read, split) != Ok([]) ==> r == ProcessPdf(path, existing, read, split)
  {
    var pages :- LoadPdf(path, existing, read);
    var chunks := ChunkDocuments(pages, split);
    if |chunks| == 0 then Err(ZeroDivisionError(ZeroDivisionText)) else Ok(chunks)
  }

  /** An existing PDF the reader finds no pages in: the code as written raises, while the pipeline
      as meant returns no chunks. */
  lemma EmptyPdfRaises(path: string, existing: set<string>, read: PdfReader, split: TextSplitter)
    requires path in existing && Lower(Suffix(path)) == PdfSuffix && read(path) == Ok([])
    ensures ProcessPdf(path, existing, read, split) == Ok([])
    ensures ProcessPdfAsWritten(path, existing, read, split) == Err(ZeroDivisionError(ZeroDivisionText))
  {
    assert LoadPdf(path, existing, read) == Ok([]);
  }

  /** `load_pdf`: the three checks in order, then the source keys written into every page. */
  method LoadPdfMethod(path: string, existing: set<string>, read: PdfReader) returns (r: Result<seq<Document>, DocError>)
    ensures r == LoadPdf(path, existing, read)
  {
    if path !in existing {
      return Err(FileNotFoundError("PDF file not found: " + path));
    }
    if Lower(Suffix(path)) != PdfSuffix {
      return Err(ValueError("File must be a PDF, got: " + Suffix(path)));
    }
    var loaded := read(path);
    if loaded.Err? {
      return Err(ValueError("Failed to load PDF " + path + ": " + loaded.error));
    }
    var pages := AddSource(loaded.value, path);
    assert LoadPdf(path, existing, read).value == pages;
    r := Ok(pages);
  }

  /** The method form of `process_pdf` as meant. */
  method ProcessPdfMethod(path: string, existing: set<string>, read: PdfReader, split: TextSplitter)
    returns (r: Result<seq<Document>, DocError>)
    ensures r == ProcessPdf(path, existing, read, split)
  {
    var pages := LoadPdfMethod(path, existing, read);
    if pages.Err? {
      return Err(pages.error);
    }
    var chunks := ChunkDocumentsMethod(pages.value, split);
    r := Ok(chunks);
  }
}
