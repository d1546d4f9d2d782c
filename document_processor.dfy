/** The document processor: one status record per uploaded file, keyed by a
    file id, holding the file's chunks or the reason it could not be chunked;
    and the supported-type check. Reading a PDF, chunking, the hash behind
    file ids and the clock are parameters. */
module DocumentProcessor {
  import opened Wrappers
  import Py

  /** A chunk of text produced by the chunker (node.dict()). */
  datatype Node = Node(text: string)

  /** What the chunker is given: a file path, or the text read from a PDF. */
  datatype ChunkSource = FilePath(path: string) | PdfText(text: string)

  /** The per-file record; `error` is present only on failed records. */
  datatype FileInfo = FileInfo(
    fileId: string,
    filename: string,
    path: string,
    fileType: string,
    status: string,
    error: Option<string>,
    createdAt: int,
    nodes: seq<Node>)

  const SupportedTypes: set<string> := {"pdf", "txt", "md", "docx"}

  /** file.split(".")[-1].lower() */
  function FileType(path: string): string {
    Py.Lower(Py.LastPiece(path, "."))
  }

  /** validate_file_type */
  predicate ValidateFileType(path: string) {
    FileType(path) in SupportedTypes
  }

  /** A path whose last '.' is followed by `ext` is supported exactly when the
      lowercased `ext` is one of pdf, txt, md and docx. */
  lemma ValidateByExtension(stem: string, ext: string)
    requires '.' !in ext
    ensures ValidateFileType(stem + "." + ext) <==> Py.Lower(ext) in SupportedTypes
  {
    assert stem + "." + ext == stem + ['.'] + ext;
    Py.LastPieceAfter(stem, '.', ext);
  }

  lemma ValidateUpperCaseExtension()
    ensures ValidateFileType("Report.PDF")
  {
    ValidateByExtension("Report", "PDF");
    assert "Report" + "." + "PDF" == "Report.PDF";
    assert Py.LowerChar('P') == 'p' && Py.LowerChar('D') == 'd' && Py.LowerChar('F') == 'f';
    assert Py.Lower("PDF") == "pdf";
  }

  lemma ValidateOnlyLastExtension()
    ensures !ValidateFileType("a.md.gz")
  {
    ValidateByExtension("a.md", "gz");
    assert "a.md" + "." + "gz" == "a.md.gz";
    assert Py.LowerChar('g') == 'g' && Py.LowerChar('z') == 'z';
    assert Py.Lower("gz") == "gz";
    assert "gz"[0] !in {'p', 't', 'm', 'd'};
    assert "gz" !in SupportedTypes;
  }

  /** The nodes of one file: pdf text is read first and then chunked, any
      other file is chunked from its path; the first exception is the
      outcome. */
  function Chunked(file: string, readText: string -> Result<string>, chunk: ChunkSource -> Result<seq<Node>>)
    : (r: Result<seq<Node>>)
    ensures FileType(file) == "pdf" && readText(file).Failure? ==> r == Failure(readText(file).error)
    ensures FileType(file) == "pdf" && readText(file).Success? ==> r == chunk(PdfText(readText(file).value))
    ensures FileType(file) != "pdf" ==> r == chunk(FilePath(file))
  {
    if FileType(file) == "pdf" then
      (match readText(file)
       case Failure(e) => Failure(e)
       case Success(texts) => chunk(PdfText(texts)))
    else chunk(FilePath(file))
  }

  /** The record for one file: "waiting" with the chunked nodes when reading
      and chunking succeed; otherwise "failed", no nodes, and the exception's
      text as the error. */
  function Record(file: string, fileId: string, now: int,
                  readText: string -> Result<string>, chunk: ChunkSource -> Result<seq<Node>>): (info: FileInfo)
    ensures info.fileId == fileId && info.path == file && info.createdAt == now
    ensures info.filename == Py.Basename(file) && info.fileType == FileType(file)
    ensures info.status == "waiting" || info.status == "failed"
    ensures info.status == "failed" <==> info.error.Some?
    ensures info.status == "failed" ==> info.nodes == []
    ensures Chunked(file, readText, chunk).Success? ==>
              info.status == "waiting" && info.error.None? && info.nodes == Chunked(file, readText, chunk).value
    ensures Chunked(file, readText, chunk).Failure? ==>
              info.status == "failed" && info.error == Some(Message(Chunked(file, readText, chunk).error))
  {
    match Chunked(file, readText, chunk)
    case Success(ns) => FileInfo(fileId, Py.Basename(file), file, FileType(file), "waiting", None, now, ns)
    case Failure(e) => FileInfo(fileId, Py.Basename(file), file, FileType(file), "failed", Some(Message(e)), now, [])
  }

  /** A waiting record carries what the chunker returned, for pdf files
      from the text read out of the file. */
  lemma RecordNodes(file: string, fileId: string, now: int,
                    readText: string -> Result<string>, chunk: ChunkSource -> Result<seq<Node>>)
    ensures var info := Record(file, fileId, now, readText, chunk);
            info.status == "waiting" ==>
              if FileType(file) == "pdf" then readText(file).Success? && chunk(PdfText(readText(file).value)) == Success(info.nodes)
              else chunk(FilePath(file)) == Success(info.nodes)
  {
  }

  /** The records after the first n files: file_infos[file_id] = record. */
  function Records(files: seq<string>, ids: seq<string>, times: seq<int>,
                   readText: string -> Result<string>, chunk: ChunkSource -> Result<seq<Node>>)
    : seq<(string, FileInfo)>
    requires |ids| == |files| && |times| == |files|
  {
    if files == [] then []
    else
      var n := |files| - 1;
      Py.DictSet(Records(files[..n], ids[..n], times[..n], readText, chunk),
                 ids[n], Record(files[n], ids[n], times[n], readText, chunk))
  }

  /** The records after n + 1 files are those after n with one more set. */
  lemma RecordsSnoc(files: seq<string>, ids: seq<string>, times: seq<int>,
                    readText: string -> Result<string>, chunk: ChunkSource -> Result<seq<Node>>, n: nat)
    requires |ids| == |files| && |times| == |files| && n < |files|
    ensures Records(files[..n + 1], ids[..n + 1], times[..n + 1], readText, chunk)
            == Py.DictSet(Records(files[..n], ids[..n], times[..n], readText, chunk),
                          ids[n], Record(files[n], ids[n], times[n], readText, chunk))
  {
    assert files[..n + 1][..n] == files[..n] && ids[..n + 1][..n] == ids[..n] && times[..n + 1][..n] == times[..n];
  }

  /** process_files: `ids[i]` is "file_" followed by the hash of the i-th
      path and the time, and `times[i]` the clock when its record is made. */
  method ProcessFiles(files: seq<string>, ids: seq<string>, times: seq<int>,
                      readText: string -> Result<string>, chunk: ChunkSource -> Result<seq<Node>>)
    returns (fileInfos: seq<(string, FileInfo)>)
    requires |ids| == |files| && |times| == |files|
    ensures fileInfos == Records(files, ids, times, readText, chunk)
  {
    fileInfos := [];
    var i := 0;
    while i < |files|
      invariant 0 <= i <= |files|
      invariant fileInfos == Records(files[..i], ids[..i], times[..i], readText, chunk)
    {
      RecordsSnoc(files, ids, times, readText, chunk, i);
      fileInfos := Py.DictSet(fileInfos, ids[i], Record(files[i], ids[i], times[i], readText, chunk));
      i := i + 1;
    }
    assert files[..i] == files && ids[..i] == ids && times[..i] == times;
  }

  /** With distinct file ids there is one record per input file, in input
      order, under its own id. */
  lemma {:induction false} OneRecordPerFile(files: seq<string>, ids: seq<string>, times: seq<int>,
                                            readText: string -> Result<string>, chunk: ChunkSource -> Result<seq<Node>>)
    requires |ids| == |files| && |times| == |files|
    requires forall i, j :: 0 <= i < j < |ids| ==> ids[i] != ids[j]
    ensures var r := Records(files, ids, times, readText, chunk);
            |r| == |files|
            && forall i :: 0 <= i < |files| ==> r[i] == (ids[i], Record(files[i], ids[i], times[i], readText, chunk))
  {
    if files != [] {
      var n := |files| - 1;
      OneRecordPerFile(files[..n], ids[..n], times[..n], readText, chunk);
      var init := Records(files[..n], ids[..n], times[..n], readText, chunk);
      forall j | 0 <= j < |init| ensures Py.DictKeys(init)[j] != ids[n] {
        assert ids[..n][j] == ids[j];
      }
      var r := Records(files, ids, times, readText, chunk);
      assert r == init + [(ids[n], Record(files[n], ids[n], times[n], readText, chunk))];
      forall i | 0 <= i < n ensures r[i] == (ids[i], Record(files[i], ids[i], times[i], readText, chunk)) {
        assert files[..n][i] == files[i] && ids[..n][i] == ids[i] && times[..n][i] == times[i];
      }
    }
  }

  /** Whatever the ids, the records are keyed by distinct file ids (a
      repeated id keeps only the later file's record). */
  lemma {:induction false} RecordsDistinct(files: seq<string>, ids: seq<string>, times: seq<int>,
                                           readText: string -> Result<string>, chunk: ChunkSource -> Result<seq<Node>>)
    requires |ids| == |files| && |times| == |files|
    ensures Py.DistinctKeys(Records(files, ids, times, readText, chunk))
  {
    if files != [] {
      var n := |files| - 1;
      RecordsDistinct(files[..n], ids[..n], times[..n], readText, chunk);
      Py.DictSetDistinct(Records(files[..n], ids[..n], times[..n], readText, chunk),
                         ids[n], Record(files[n], ids[n], times[n], readText, chunk));
    }
  }

  /** process_url */
  function ProcessUrl(url: string): (r: Result<seq<(string, FileInfo)>>)
    ensures r == Failure(NotImplementedError("URL processing not implemented yet"))
  {
    Failure(NotImplementedError("URL processing not implemented yet"))
  }
}
