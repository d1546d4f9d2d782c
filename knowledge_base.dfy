/** The knowledge-base facade: registering databases, adding files with
    their processing status, listing databases with their vector-store
    statistics, and choosing the retrievers whose embedding model matches.
    The relational tables are in-memory fields; the vector store, the
    embedding manager and the hash behind database ids are parameters. */
module KnowledgeBase {
  import opened Wrappers
  import Py
  import DocumentProcessor

  type Node = DocumentProcessor.Node
  type ChunkSource = DocumentProcessor.ChunkSource
  type FileInfo = DocumentProcessor.FileInfo

  /** A knowledge_database row. */
  datatype DbRecord = DbRecord(dbId: string, name: string, description: string, embedModel: string, dimension: Option<int>)

  /** A knowledge_file row. */
  datatype FileRow = FileRow(dbId: string, filename: string, path: string, fileType: string, status: string)

  /** What the vector store reports about a collection. */
  datatype CollectionInfo = CollectionInfo(rowCount: nat, fields: seq<(string, string)>)

  /** A database as listed (statistics under "metadata"), as detailed
      (statistics merged in), or with the fallback fields when the vector
      store could not be asked. */
  datatype DbView =
    | WithMetadata(db: DbRecord, info: CollectionInfo)
    | WithStats(db: DbRecord, info: CollectionInfo)
    | Disconnected(db: DbRecord, rowCount: nat, status: string, error: string)

  datatype StatusMessage = StatusMessage(message: string, status: string)

  /** get_retrievers' entry; the retriever is QueryEngine's closure for dbId. */
  datatype RetrieverEntry = RetrieverEntry(name: string, description: string, retrieverFor: string, embedModel: string)

  /** The collaborators the facade calls. */
  datatype Services = Services(
    collectionInfo: string -> Result<CollectionInfo>,   // milvus_manager.get_collection_info
    compatible: string -> bool,                         // embedding_manager.check_model_compatibility
    modelName: string,                                  // embedding_manager.get_model_name()
    insert: (string, seq<Node>) -> Result<()>,          // _add_documents_to_milvus for one file
    readText: string -> Result<string>,                 // read_text for pdf files
    chunk: ChunkSource -> Result<seq<Node>>)            // chunk

  const DatabaseNotFound := StatusMessage("Database not found", "failed")
  const KbDisabled := "Knowledge base is not enabled"

  function MismatchMessage(current: string, required: string): string {
    "Model mismatch: current=" + current + ", required=" + required
  }

  /** get_database_by_id: the first row with that id. */
  function FindDb(dbs: seq<DbRecord>, dbId: string): (r: Option<DbRecord>)
    ensures r.Some? <==> exists i :: 0 <= i < |dbs| && dbs[i].dbId == dbId
    ensures r.Some? ==> r.value in dbs && r.value.dbId == dbId
  {
    if dbs == [] then None
    else if dbs[0].dbId == dbId then Some(dbs[0])
    else
      var r := FindDb(dbs[1..], dbId);
      assert forall i :: 1 <= i < |dbs| ==> dbs[i] == dbs[1..][i - 1];
      r
  }

  /** _initialize: nothing to do with the knowledge base off; otherwise the
      vector store must connect. */
  function Initialize(enableKb: bool, connected: bool): (r: Result<()>)
    ensures r.Failure? <==> enableKb && !connected
    ensures r.Failure? ==> r.error == ConnectionError("Failed to connect to Milvus")
  {
    if !enableKb then Success(())
    else if !connected then Failure(ConnectionError("Failed to connect to Milvus"))
    else Success(())
  }

  /** `dimension or fallback`: None and 0 are falsy. */
  function DimensionOr(dimension: Option<int>, fallback: Option<int>): (d: Option<int>)
    ensures d == dimension || d == fallback
    ensures dimension.Some? && dimension.value != 0 ==> d == dimension
    ensures (dimension.None? || dimension == Some(0)) ==> d == fallback
  {
    if dimension.Some? && dimension.value != 0 then dimension else fallback
  }

  /** The status a file ends with: done once its nodes are stored, failed
      if storing them raised. */
  function FinalStatus(svc: Services, fileId: string, info: FileInfo): string {
    if svc.insert(fileId, info.nodes).Success? then "done" else "failed"
  }

  function Row(dbId: string, info: FileInfo, status: string): FileRow {
    FileRow(dbId, info.filename, info.path, info.fileType, status)
  }

  /** The file table after the records, in order, are added and stored. */
  function Stored(files: map<string, FileRow>, svc: Services, dbId: string, records: seq<(string, FileInfo)>): map<string, FileRow> {
    if records == [] then files
    else
      var n := |records| - 1;
      var (fid, info) := records[n];
      Stored(files, svc, dbId, records[..n])[fid := Row(dbId, info, FinalStatus(svc, fid, info))]
  }

  lemma AddStep(files: map<string, FileRow>, svc: Services, dbId: string, records: seq<(string, FileInfo)>, i: nat)
    requires i < |records|
    ensures Stored(files, svc, dbId, records[..i + 1])
            == Stored(files, svc, dbId, records[..i])[records[i].0 := Row(dbId, records[i].1, FinalStatus(svc, records[i].0, records[i].1))]
    ensures StatusWrites(svc, records[..i + 1])
            == StatusWrites(svc, records[..i]) + [(records[i].0, "processing"), (records[i].0, FinalStatus(svc, records[i].0, records[i].1))]
  {
    assert records[..i + 1][..i] == records[..i];
  }

  /** Appending to a log that already holds earlier writes. */
  lemma AppendAssoc(start: seq<(string, string)>, writes: seq<(string, string)>, log: seq<(string, string)>, step: seq<(string, string)>)
    requires log == start + writes
    ensures log + step == start + (writes + step)
  {
  }

  /** The status writes the records cause: "processing", then the outcome. */
  function StatusWrites(svc: Services, records: seq<(string, FileInfo)>): seq<(string, string)> {
    if records == [] then []
    else
      var n := |records| - 1;
      var (fid, info) := records[n];
      StatusWrites(svc, records[..n]) + [(fid, "processing"), (fid, FinalStatus(svc, fid, info))]
  }

  /** Every record's file ends with its own outcome, whatever happened to
      the others. */
  lemma {:induction false} StoredRows(files: map<string, FileRow>, svc: Services, dbId: string, records: seq<(string, FileInfo)>)
    requires Py.DistinctKeys(records)
    ensures forall i :: 0 <= i < |records| ==>
              records[i].0 in Stored(files, svc, dbId, records)
              && Stored(files, svc, dbId, records)[records[i].0] == Row(dbId, records[i].1, FinalStatus(svc, records[i].0, records[i].1))
  {
    if records != [] {
      var n := |records| - 1;
      var init := records[..n];
      StoredRows(files, svc, dbId, init);
      forall i | 0 <= i < n ensures init[i] == records[i] && records[i].0 != records[n].0 {
      }
    }
  }

  /** The table gains exactly the records' ids, and a file outside the batch
      keeps its row. */
  lemma {:induction false} StoredOthers(files: map<string, FileRow>, svc: Services, dbId: string, records: seq<(string, FileInfo)>)
    ensures forall f :: f in Stored(files, svc, dbId, records) <==> f in files || f in Py.DictKeys(records)
    ensures forall f :: f in files && f !in Py.DictKeys(records) ==> Stored(files, svc, dbId, records)[f] == files[f]
  {
    if records != [] {
      var n := |records| - 1;
      StoredOthers(files, svc, dbId, records[..n]);
      assert Py.DictKeys(records) == Py.DictKeys(records[..n]) + [records[n].0];
    }
  }

  /** Each file's status is written twice, first "processing" and then
      "done" or "failed". */
  lemma {:induction false} StatusWritesPairs(svc: Services, records: seq<(string, FileInfo)>)
    ensures var w := StatusWrites(svc, records);
            && |w| == 2 * |records|
            && forall i :: 0 <= i < |records| ==>
                 w[2 * i] == (records[i].0, "processing")
                 && w[2 * i + 1] == (records[i].0, FinalStatus(svc, records[i].0, records[i].1))
                 && (w[2 * i + 1].1 == "done" || w[2 * i + 1].1 == "failed")
  {
    if records != [] {
      var n := |records| - 1;
      StatusWritesPairs(svc, records[..n]);
      assert forall i :: 0 <= i < n ==> records[..n][i] == records[i];
    }
  }

  /** The filter get_retrievers applies, keyed by db_id. */
  function Retrievers(dbs: seq<DbRecord>, compatible: string -> bool): seq<(string, RetrieverEntry)> {
    if dbs == [] then []
    else
      var n := |dbs| - 1;
      var db := dbs[n];
      var init := Retrievers(dbs[..n], compatible);
      if compatible(db.embedModel) then Py.DictSet(init, db.dbId, Entry(db))
      else init
  }

  function Entry(db: DbRecord): RetrieverEntry {
    RetrieverEntry(db.name, db.description, db.dbId, db.embedModel)
  }

  /** The compatible databases, in registration order. */
  function CompatibleDbs(dbs: seq<DbRecord>, compatible: string -> bool): (r: seq<(string, RetrieverEntry)>)
    ensures forall p :: p in r ==> exists db :: db in dbs && p == (db.dbId, Entry(db)) && compatible(db.embedModel)
    ensures forall db :: db in dbs && compatible(db.embedModel) ==> (db.dbId, Entry(db)) in r
  {
    if dbs == [] then []
    else
      var n := |dbs| - 1;
      assert dbs == dbs[..n] + [dbs[n]];
      var init := CompatibleDbs(dbs[..n], compatible);
      if compatible(dbs[n].embedModel) then init + [(dbs[n].dbId, Entry(dbs[n]))] else init
  }

  /** With distinct database ids (db_id is the table's key), the retrievers
      are exactly the compatible databases, in registration order. */
  lemma {:induction false} RetrieversCompatible(dbs: seq<DbRecord>, compatible: string -> bool)
    requires forall i, j :: 0 <= i < j < |dbs| ==> dbs[i].dbId != dbs[j].dbId
    ensures Retrievers(dbs, compatible) == CompatibleDbs(dbs, compatible)
  {
    if dbs != [] {
      var n := |dbs| - 1;
      var init := CompatibleDbs(dbs[..n], compatible);
      RetrieversCompatible(dbs[..n], compatible);
      forall k | 0 <= k < |init| ensures Py.DictKeys(init)[k] != dbs[n].dbId {
        assert init[k] in init;
        var db :| db in dbs[..n] && init[k] == (db.dbId, Entry(db));
        var i :| 0 <= i < n && dbs[..n][i] == db;
        assert dbs[..n][i] == dbs[i];
      }
    }
  }

  class KnowledgeBase {
    /** The registered databases, in registration order. */
    var databases: seq<DbRecord>
    /** The file table, by file id. */
    var files: map<string, FileRow>
    /** Every file status written, in order. */
    ghost var statusLog: seq<(string, string)>

    constructor(databases: seq<DbRecord>, files: map<string, FileRow>)
      ensures this.databases == databases && this.files == files && statusLog == []
    {
      this.databases := databases;
      this.files := files;
      statusLog := [];
    }

    /** create_database: the id is "kb_" followed by the salted hash of the
        name; a falsy dimension is replaced by the embedding model's. The
        row is registered before the collection is created, so it stays
        when creating the collection raises. */
    method CreateDatabase(svc: Services, name: string, description: string, dimension: Option<int>,
                          embedDimension: Option<int>, saltedHash: string,
                          createCollection: (string, Option<int>) -> Result<()>)
      returns (r: Result<DbRecord>)
      modifies this
      ensures var rec := DbRecord("kb_" + saltedHash, name, description, svc.modelName, DimensionOr(dimension, embedDimension));
              && databases == old(databases) + [rec]
              && r == (if createCollection(rec.dbId, rec.dimension).Success? then Success(rec)
                       else Failure(createCollection(rec.dbId, rec.dimension).error))
      ensures files == old(files) && statusLog == old(statusLog)
    {
      var dim := DimensionOr(dimension, embedDimension);
      var rec := DbRecord("kb_" + saltedHash, name, description, svc.modelName, dim);
      databases := databases + [rec];
      var created := createCollection(rec.dbId, dim);
      if created.Failure? {
        return Failure(created.error);
      }
      r := Success(rec);
    }

    /** add_files: an unknown database or an incompatible embedding model
        returns a failed status and touches no file; otherwise every
        processed file is added as "processing" and then set to "done" or
        "failed", one file's failure not stopping the next. */
    method AddFiles(svc: Services, dbId: string, paths: seq<string>, ids: seq<string>, times: seq<int>)
      returns (r: Option<StatusMessage>)
      requires |ids| == |paths| && |times| == |paths|
      modifies this
      ensures databases == old(databases)
      ensures FindDb(databases, dbId).None? ==>
                r == Some(DatabaseNotFound) && files == old(files) && statusLog == old(statusLog)
      ensures FindDb(databases, dbId).Some? && !svc.compatible(FindDb(databases, dbId).value.embedModel) ==>
                r == Some(StatusMessage(MismatchMessage(svc.modelName, FindDb(databases, dbId).value.embedModel), "failed"))
                && files == old(files) && statusLog == old(statusLog)
      ensures FindDb(databases, dbId).Some? && svc.compatible(FindDb(databases, dbId).value.embedModel) ==>
                var records := DocumentProcessor.Records(paths, ids, times, svc.readText, svc.chunk);
                && r == None
                && files == Stored(old(files), svc, dbId, records)
                && statusLog == old(statusLog) + StatusWrites(svc, records)
    {
      var db := FindDb(databases, dbId);
      if db.None? {
        return Some(DatabaseNotFound);
      }
      if !svc.compatible(db.value.embedModel) {
        return Some(StatusMessage(MismatchMessage(svc.modelName, db.value.embedModel), "failed"));
      }
      var records := DocumentProcessor.ProcessFiles(paths, ids, times, svc.readText, svc.chunk);
      var i := 0;
      while i < |records|
        invariant 0 <= i <= |records|
        invariant databases == old(databases)
        invariant files == Stored(old(files), svc, dbId, records[..i])
        invariant statusLog == old(statusLog) + StatusWrites(svc, records[..i])
      {
        AddStep(old(files), svc, dbId, records, i);
        ghost var log := statusLog;
        StoreFile(svc, dbId, records[i].0, records[i].1);
        AppendAssoc(old(statusLog), StatusWrites(svc, records[..i]), log,
                    [(records[i].0, "processing"), (records[i].0, FinalStatus(svc, records[i].0, records[i].1))]);
        i := i + 1;
      }
      assert records[..i] == records;
      r := None;
    }

    /** One file of add_files' loop: its row is added as "processing",
        its nodes are stored, and the row is set to the outcome. */
    method StoreFile(svc: Services, dbId: string, fid: string, info: FileInfo)
      modifies this
      ensures databases == old(databases)
      ensures files == old(files)[fid := Row(dbId, info, FinalStatus(svc, fid, info))]
      ensures statusLog == old(statusLog) + [(fid, "processing"), (fid, FinalStatus(svc, fid, info))]
    {
      files := files[fid := Row(dbId, info, "processing")];
      statusLog := statusLog + [(fid, "processing")];
      var stored := svc.insert(fid, info.nodes);
      var status := if stored.Success? then "done" else "failed";
      files := files[fid := Row(dbId, info, status)];
      statusLog := statusLog + [(fid, status)];
    }

    /** get_databases: one entry per registered database, in order, with its
        collection statistics or the disconnected fallback. */
    method GetDatabases(svc: Services, enableKb: bool) returns (r: Result<seq<DbView>>)
      ensures !enableKb ==> r == Failure(AssertionError(KbDisabled))
      ensures enableKb ==> r.Success? && |r.value| == |databases|
      ensures enableKb ==> forall i :: 0 <= i < |databases| ==> r.value[i] == Listed(svc, databases[i])
    {
      if !enableKb {
        return Failure(AssertionError(KbDisabled));
      }
      var out: seq<DbView> := [];
      var i := 0;
      while i < |databases|
        invariant 0 <= i <= |databases|
        invariant |out| == i
        invariant forall k :: 0 <= k < i ==> out[k] == Listed(svc, databases[k])
      {
        var info := svc.collectionInfo(databases[i].dbId);
        var view := if info.Success? then WithMetadata(databases[i], info.value)
                    else Disconnected(databases[i], 0, "Disconnected", Message(info.error));
        out := out + [view];
        i := i + 1;
      }
      r := Success(out);
    }

    /** get_database_info */
    function GetDatabaseInfo(svc: Services, dbId: string): (r: Option<DbView>)
      reads this
      ensures FindDb(databases, dbId).None? <==> r.None?
      ensures r.Some? ==> r.value.db == FindDb(databases, dbId).value
      ensures r.Some? ==> (r.value.WithStats? || r.value.Disconnected?)
    {
      match FindDb(databases, dbId)
      case None => None
      case Some(db) => Some(Detailed(svc, db))
    }

    /** get_retrievers */
    method GetRetrievers(svc: Services) returns (r: seq<(string, RetrieverEntry)>)
      ensures r == Retrievers(databases, svc.compatible)
    {
      r := [];
      var i := 0;
      while i < |databases|
        invariant 0 <= i <= |databases|
        invariant r == Retrievers(databases[..i], svc.compatible)
      {
        var db := databases[i];
        assert databases[..i + 1][..i] == databases[..i];
        if svc.compatible(db.embedModel) {
          r := Py.DictSet(r, db.dbId, Entry(db));
        }
        i := i + 1;
      }
      assert databases[..i] == databases;
    }
  }

  /** A database as get_databases lists it. */
  function Listed(svc: Services, db: DbRecord): DbView {
    match svc.collectionInfo(db.dbId)
    case Success(info) => WithMetadata(db, info)
    case Failure(e) => Disconnected(db, 0, "Disconnected", Message(e))
  }

  /** A database as get_database_info details it. */
  function Detailed(svc: Services, db: DbRecord): DbView {
    match svc.collectionInfo(db.dbId)
    case Success(info) => WithStats(db, info)
    case Failure(e) => Disconnected(db, 0, "Disconnected", Message(e))
  }

  /** Listing and detailing agree: the same statistics, or the same
      fallback carrying the same error, with row count 0. */
  lemma ListedAgreesWithDetailed(svc: Services, db: DbRecord)
    ensures Listed(svc, db).Disconnected? <==> svc.collectionInfo(db.dbId).Failure?
    ensures Listed(svc, db).Disconnected? ==>
              Listed(svc, db) == Detailed(svc, db) && Listed(svc, db).rowCount == 0
              && Listed(svc, db).error == Message(svc.collectionInfo(db.dbId).error)
    ensures Listed(svc, db).WithMetadata? ==> Detailed(svc, db) == WithStats(db, Listed(svc, db).info)
  {
  }

  /** KnowledgeBase(): the facade over the stored databases and files, whose
      construction ends with _initialize and so raises ConnectionError when
      the knowledge base is on and the vector store does not connect. */
  method NewKnowledgeBase(enableKb: bool, connected: bool, databases: seq<DbRecord>, files: map<string, FileRow>)
    returns (r: Result<KnowledgeBase>)
    ensures r.Success? <==> !enableKb || connected
    ensures r.Failure? ==> r.error == ConnectionError("Failed to connect to Milvus")
    ensures r.Success? ==> fresh(r.value) && r.value.databases == databases && r.value.files == files
                           && r.value.statusLog == []
  {
    var kb := new KnowledgeBase(databases, files);
    var init := Initialize(enableKb, connected);
    if init.Failure? {
      return Failure(init.error);
    }
    r := Success(kb);
  }
}
