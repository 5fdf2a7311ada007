/** The run of xlMongo.py: look up (or create) the application's Drive folder, scan the databases,
    fetch the collections, write one CSV file per collection into the upload directory, and upload
    the directory's files on a first run only. */
module XlMongo {
  import opened Wrappers
  import opened Seqs
  import opened PosixPath
  import opened Documents
  import opened Tabular
  import opened MongoUtils
  import opened GoogleAuth

  /** The parts of the configuration file the run reads. */
  datatype Config = Config(
    appName: string,
    baseDir: string,
    dbType: string,
    databases: Option<seq<string>>)   // DATABASE.databases, when the key is present

  /** The upload directory: file name to the rows written into it. */
  type Staging = map<string, seq<seq<Value>>>

  /** Why a run ended early: by sys.exit() (credentials, connection, upload) or by an uncaught
      exception (a lookup without a files service, the unbound collection list). */
  datatype Halt = CredentialsFailed | LookupRaised | ConnectionFailed | NoCollectionList | UploadFailed

  datatype RunStatus =
    | Completed(firstRun: bool)  // the export ran to its end
    | Stopped(firstRun: bool)    // run returned before scanning: no mongo database, or an empty server_info()
    | Exited(halt: Halt)

  function UploadDirectory(config: Config): string
  {
    Join(config.baseDir, "upload")
  }

  /** Python truth of a folder id: None and the empty string are false. */
  predicate Truthy(id: Option<string>)
  {
    id.Some? && id.value != ""
  }

  /** Python truth of the configured database list: None and [] are false. */
  predicate NonEmptyList(dbs: Option<seq<string>>)
  {
    dbs.Some? && dbs.value != []
  }

  /** What the folder lookup of a run finds: the first folder of the listing page with that name. */
  ghost function FolderOnDrive(remote: seq<Entry>, name: string): Option<string>
  {
    Lookup(Page(remote), FolderNamed(name)).value
  }

  /** The folder lookup raises: the cache is empty, there is no service object, and none can be built. */
  ghost predicate LookupFails(cache: seq<Entry>, files: bool, serviceAvailable: bool)
  {
    cache == [] && !files && !serviceAvailable
  }

  /** The create calls a run sends before its export: the folder, unless the lookup found one. */
  ghost function FolderRequests(remote: seq<Entry>, appName: string): seq<Request>
  {
    if Truthy(FolderOnDrive(remote, appName)) then [] else [FolderRequest(appName)]
  }

  /** The databases the run scans: the configured list, or all of them when it is missing or empty. */
  ghost function ScanTargets(config: Config, server: Server): Option<seq<string>>
  {
    if NonEmptyList(config.databases) then config.databases else server.databaseNames
  }

  /** The dictionary scanCollections gives the run; iterating over None raises inside its try,
      so a failed database listing yields the empty dictionary. */
  ghost function Collections(config: Config, server: Server): map<string, seq<string>>
  {
    match ScanTargets(config, server)
    case None => map[]
    case Some(dbs) => Scanned(dbs, DefaultIgnored, server.collectionNames)
  }

  /** The collection objects of one database. */
  function Handles(db: string, names: seq<string>): seq<Handle>
  {
    seq(|names|, i requires 0 <= i < |names| => Handle(db, names[i]))
  }

  /** The loop over collections.items() rebinds collectionList on every pass, so what leaves it
      is the collection list of whichever database came last, and nothing when there was none. */
  method SelectCollections(collections: map<string, seq<string>>)
    returns (collectionList: Option<seq<Handle>>, ghost lastDb: string)
    ensures collectionList.None? <==> collections == map[]
    ensures collectionList.Some? ==> lastDb in collections && collectionList.value == Handles(lastDb, collections[lastDb])
  {
    var items := ListOf(collections.Keys);
    collectionList := None;
    lastDb := "";
    for k := 0 to |items|
      invariant k == 0 ==> collectionList.None?
      invariant k > 0 ==> lastDb == items[k - 1] && collectionList == Some(Handles(lastDb, collections[lastDb]))
    {
      var db := items[k];
      collectionList := Some(Handles(db, collections[db]));
      lastDb := db;
    }
    if collections != map[] {
      var some :| some in collections;
      assert some in items;
    }
  }

  /** The fetch threads: each fills the slot named after its collection with that collection's
      documents, or leaves it empty when its cursor raises. */
  method FetchAll(server: Server, collectionList: seq<Handle>) returns (collDict: map<string, seq<Document>>)
    ensures collDict.Keys == set h | h in collectionList :: QualifiedName(h)
    ensures forall name :: name in collDict ==> collDict[name] == Collected(server.documents(name))
  {
    collDict := map[];
    for k := 0 to |collectionList|
      invariant collDict.Keys == set h | h in collectionList[..k] :: QualifiedName(h)
      invariant forall name :: name in collDict ==> collDict[name] == Collected(server.documents(name))
    {
      var coll := collectionList[k];
      var name := QualifiedName(coll);
      assert collectionList[..k + 1] == collectionList[..k] + [coll];
      collDict := collDict[name := Collected(server.documents(name))];
    }
    assert collectionList[..|collectionList|] == collectionList;
  }

  /** The headings dictionary: compareKeys of every fetched collection. */
  method DeriveHeadings(collDict: map<string, seq<Document>>) returns (headings: map<string, seq<string>>)
    ensures headings.Keys == collDict.Keys
    ensures forall key :: key in headings ==> IsColumnSet(headings[key], collDict[key])
  {
    var keys := ListOf(collDict.Keys);
    headings := map[];
    for k := 0 to |keys|
      invariant forall key :: key in headings <==> key in keys[..k]
      invariant forall key :: key in headings ==> key in collDict && IsColumnSet(headings[key], collDict[key])
    {
      var key := keys[k];
      var cols := CompareKeys(collDict[key]);
      assert keys[..k + 1] == keys[..k] + [key];
      headings := headings[key := cols];
    }
    assert keys[..|keys|] == keys;
  }

  /** The names of the files written for a set of collection names. */
  ghost function CsvNames(keys: set<string>): set<string>
  {
    set key | key in keys :: key + ".csv"
  }

  /** Different collection names give different file names. */
  lemma CsvNameInjective(a: string, b: string)
    requires a + ".csv" == b + ".csv"
    ensures a == b
  {
    assert a == (a + ".csv")[..|a|];
    assert b == (b + ".csv")[..|b|];
  }

  /** Adding the file of a collection not yet written keeps the files of the others. */
  lemma AddExport(exported: Staging, done: set<string>, key: string, rows: seq<seq<Value>>)
    requires exported.Keys == CsvNames(done) && key !in done
    ensures exported[key + ".csv" := rows].Keys == CsvNames(done + {key})
    ensures forall other :: other in done ==> exported[key + ".csv" := rows][other + ".csv"] == exported[other + ".csv"]
  {
    assert CsvNames(done + {key}) == CsvNames(done) + {key + ".csv"};
    forall other | other in done ensures other + ".csv" != key + ".csv" {
      if other + ".csv" == key + ".csv" {
        CsvNameInjective(other, key);
      }
    }
  }

  /** The jsonToCsv threads: one file per collection, named after it, holding its heading and its
      documents. */
  method WriteExports(collDict: map<string, seq<Document>>, headings: map<string, seq<string>>)
    returns (exported: Staging)
    requires collDict.Keys <= headings.Keys
    ensures exported.Keys == CsvNames(collDict.Keys)
    ensures forall key :: key in collDict ==> exported[key + ".csv"] == Table(headings[key], collDict[key])
  {
    exported := map[];
    var pending := collDict.Keys;
    ghost var done: set<string> := {};
    while pending != {}
      invariant done + pending == collDict.Keys && done !! pending
      invariant exported.Keys == CsvNames(done)
      invariant forall key {:trigger key in done} :: key in done ==> exported[key + ".csv"] == Table(headings[key], collDict[key])
      decreases pending
    {
      var key :| key in pending;
      var file := JsonToCsv(key, headings[key], collDict[key]);
      AddExport(exported, done, key, file.rows);
      exported := exported[file.fileName := file.rows];
      done := done + {key};
      pending := pending - {key};
    }
  }

  /** The requests createFile sends for the listed files of a directory. */
  function UploadsOf(dir: string, names: seq<string>, parent: Option<string>): seq<Request>
  {
    seq(|names|, i requires 0 <= i < |names| => UploadRequest(Join(dir, names[i]), parent))
  }

  lemma UploadsOfExtend(dir: string, names: seq<string>, parent: Option<string>, k: nat)
    requires k < |names|
    ensures UploadsOf(dir, names[..k + 1], parent) == UploadsOf(dir, names[..k], parent) + [UploadRequest(Join(dir, names[k]), parent)]
  {
  }

  /** The create calls numbered from `from` to `from + count - 1` all returned normally. */
  ghost predicate AllReturned(respond: nat -> Response, from: nat, count: nat)
  {
    forall n: nat :: from <= n < from + count ==> respond(n).Returned?
  }

  /** The first-run upload loop: createFile for each file of the directory listing, in listing
      order, until one of them ends the process. */
  method UploadAll(drive: GDrive, uploadDirectory: string, listing: seq<string>, folderId: Option<string>)
    returns (ok: bool, uploaded: nat)
    requires drive.Valid() && drive.files
    modifies drive
    ensures drive.Valid() && drive.files && drive.cache == old(drive.cache)
    ensures uploaded <= |listing|
    ensures drive.requests == old(drive.requests) + UploadsOf(uploadDirectory, listing[..uploaded], folderId)
    ensures ok ==> uploaded == |listing|
    ensures !ok ==> uploaded > 0 && drive.respond(|old(drive.requests)| + uploaded - 1).Raised?
    // every upload before the last one sent went through: the first failure ends the loop
    ensures AllReturned(drive.respond, |old(drive.requests)|, if ok then uploaded else uploaded - 1)
  {
    uploaded := 0;
    ghost var base := drive.requests;
    for k := 0 to |listing|
      invariant uploaded == k
      invariant drive.Valid() && drive.files && drive.cache == old(drive.cache)
      invariant drive.requests == base + UploadsOf(uploadDirectory, listing[..k], folderId)
      invariant AllReturned(drive.respond, |base|, k)
    {
      var filePath := Join(uploadDirectory, listing[k]);
      UploadsOfExtend(uploadDirectory, listing, folderId, k);
      assert |drive.requests| == |base| + k;
      var id := drive.CreateFile(filePath, folderId);
      uploaded := uploaded + 1;
      if id.Failure? {
        return false, uploaded;
      }
    }
    ok := true;
    assert listing[..uploaded] == listing;
  }

  /** The first-run upload: every file of the upload directory, in directory-listing order, until
      one upload fails; `uploaded` counts the create calls sent. */
  method UploadExports(drive: GDrive, uploadDirectory: string, staging: Staging, folderId: Option<string>)
    returns (ok: bool, ghost uploadOrder: seq<string>, ghost uploaded: nat)
    requires drive.Valid() && drive.files
    modifies drive
    ensures drive.Valid() && drive.files && drive.cache == old(drive.cache)
    ensures Distinct(uploadOrder) && (forall f :: f in uploadOrder <==> f in staging)
    ensures uploaded <= |uploadOrder|
    ensures drive.requests == old(drive.requests) + UploadsOf(uploadDirectory, uploadOrder[..uploaded], folderId)
    ensures ok ==> uploaded == |uploadOrder|
    ensures !ok ==> uploaded > 0 && drive.respond(|old(drive.requests)| + uploaded - 1).Raised?
    ensures AllReturned(drive.respond, |old(drive.requests)|, if ok then uploaded else uploaded - 1)
  {
    var listing := ListOf(staging.Keys);
    uploadOrder := listing;
    var sent;
    ok, sent := UploadAll(drive, uploadDirectory, listing, folderId);
    uploaded := sent;
  }

  /** What the export stage of a run leaves behind: the collections of one scanned database
      fetched, each with its heading and its file, and the directory's other files untouched. */
  ghost predicate ExportedFrom(config: Config, server: Server, staged: Staging, staging: Staging,
                               lastDb: string, fetched: map<string, seq<Document>>, headings: map<string, seq<string>>)
  {
    && lastDb in Collections(config, server)
    && fetched.Keys == (set h | h in Handles(lastDb, Collections(config, server)[lastDb]) :: QualifiedName(h))
    && (forall name :: name in fetched ==> fetched[name] == Collected(server.documents(name)))
    && headings.Keys == fetched.Keys
    && (forall key :: key in fetched ==> IsColumnSet(headings[key], fetched[key]))
    && staging.Keys == staged.Keys + CsvNames(fetched.Keys)
    && (forall key :: key in fetched ==> key + ".csv" in staging && staging[key + ".csv"] == Table(headings[key], fetched[key]))
    && (forall f :: f in staged && f !in CsvNames(fetched.Keys) ==> staging[f] == staged[f])
  }

  /** Writing the files into the upload directory: the collections' files are replaced or added,
      every other file is left as it was. */
  lemma MergedExports(staged: Staging, exported: Staging, fetched: map<string, seq<Document>>, headings: map<string, seq<string>>)
    requires fetched.Keys <= headings.Keys
    requires exported.Keys == CsvNames(fetched.Keys)
    requires forall key :: key in fetched ==> exported[key + ".csv"] == Table(headings[key], fetched[key])
    ensures (staged + exported).Keys == staged.Keys + CsvNames(fetched.Keys)
    ensures forall key :: key in fetched ==> key + ".csv" in staged + exported && (staged + exported)[key + ".csv"] == Table(headings[key], fetched[key])
    ensures forall f :: f in staged && f !in CsvNames(fetched.Keys) ==> (staged + exported)[f] == staged[f]
  {
    forall key | key in fetched ensures key + ".csv" in exported {
      assert key + ".csv" in CsvNames(fetched.Keys);
    }
  }

  /** How the export stage ended. */
  datatype Stage = Exported | Skipped | Halted(halt: Halt)

  /** The Mongo part of run: connect, scan, keep the last database's collections, fetch them,
      derive their headings and write their files. */
  method ExportCollections(config: Config, server: Server, staged: Staging)
    returns (stage: Stage, staging: Staging,
             ghost lastDb: string, ghost fetched: map<string, seq<Document>>, ghost headings: map<string, seq<string>>)
    ensures stage == Skipped <==> config.dbType != "mongo" || server.connect == Unresponsive
    ensures stage == Halted(ConnectionFailed) <==> config.dbType == "mongo" && server.connect == Unreachable
    ensures stage == Halted(NoCollectionList) <==>
              config.dbType == "mongo" && server.connect == Connected && Collections(config, server) == map[]
    ensures stage.Halted? ==> stage.halt == ConnectionFailed || stage.halt == NoCollectionList
    ensures stage != Exported ==> staging == staged
    ensures stage == Exported ==> ExportedFrom(config, server, staged, staging, lastDb, fetched, headings)
  {
    staging := staged;
    lastDb, fetched, headings := "", map[], map[];
    if config.dbType != "mongo" {
      return Skipped, staging, lastDb, fetched, headings;
    }
    if server.connect == Unreachable {
      return Halted(ConnectionFailed), staging, lastDb, fetched, headings;
    }
    if server.connect == Unresponsive {
      return Skipped, staging, lastDb, fetched, headings;
    }
    var mongoDatabases := config.databases;
    if !NonEmptyList(mongoDatabases) {
      mongoDatabases := server.databaseNames;
    }
    var collections: map<string, seq<string>> := map[];
    if mongoDatabases.Some? {
      collections := ScanCollections(server, mongoDatabases.value, DefaultIgnored);
    }
    assert collections == Collections(config, server);
    var collectionList;
    collectionList, lastDb := SelectCollections(collections);
    if collectionList.None? {
      return Halted(NoCollectionList), staging, lastDb, fetched, headings;
    }
    var collDict := FetchAll(server, collectionList.value);
    var hs := DeriveHeadings(collDict);
    var exported := WriteExports(collDict, hs);
    MergedExports(staging, exported, collDict, hs);
    // the files land in the upload directory, replacing earlier files of the same name
    staging := staging + exported;
    fetched, headings := collDict, hs;
    stage := Exported;
  }

  /** The Drive part before the export: without credentials the process exits; otherwise the
      folder named after the application is looked up, and created when the lookup gives nothing,
      which makes this a first run. */
  method LocateFolder(drive: GDrive, appName: string, credentialsOk: bool)
    returns (located: Result<Option<string>, Halt>, firstRun: bool)
    requires drive.Valid()
    modifies drive
    ensures drive.Valid()
    ensures located.Success? ==> drive.files
    ensures !credentialsOk ==> located == Failure(CredentialsFailed)
    ensures credentialsOk ==> (located.Failure? <==> LookupFails(old(drive.cache), old(drive.files), drive.serviceAvailable))
    ensures located.Failure? ==> drive.requests == old(drive.requests) && !firstRun
    ensures located.Failure? && credentialsOk ==> located == Failure(LookupRaised)
    ensures located.Success? ==> firstRun == !Truthy(FolderOnDrive(drive.remote, appName))
    ensures located.Success? && !firstRun ==> located.value == FolderOnDrive(drive.remote, appName)
                                              && drive.requests == old(drive.requests)
    ensures located.Success? && firstRun ==> located.value == CreatedId(drive.respond(|old(drive.requests)|))
                                             && drive.requests == old(drive.requests) + [FolderRequest(appName)]
  {
    firstRun := false;
    if !credentialsOk {
      return Failure(CredentialsFailed), firstRun;
    }
    var lookup := drive.GetFolderId(appName);
    if lookup.Failure? {
      return Failure(LookupRaised), firstRun;
    }
    var folderId := lookup.value;
    if !Truthy(folderId) {
      folderId := drive.CreateFolder(appName);
      firstRun := true;
    }
    located := Success(folderId);
  }

  /** The part of run after the folder lookup: the export, then on a first run the upload of the
      upload directory into the folder. */
  method ExportAndPublish(config: Config, drive: GDrive, server: Server, staged: Staging, firstRun: bool, folderId: Option<string>)
    returns (status: RunStatus, staging: Staging,
             ghost lastDb: string, ghost fetched: map<string, seq<Document>>,
             ghost headings: map<string, seq<string>>, ghost uploadOrder: seq<string>, ghost uploaded: nat)
    requires drive.Valid() && drive.files
    modifies drive
    ensures drive.Valid()
    ensures status.Stopped? <==> config.dbType != "mongo" || server.connect == Unresponsive
    ensures status == Exited(ConnectionFailed) <==> config.dbType == "mongo" && server.connect == Unreachable
    ensures status == Exited(NoCollectionList) <==>
              config.dbType == "mongo" && server.connect == Connected && Collections(config, server) == map[]
    ensures status.Completed? || status == Exited(UploadFailed) <==>
              config.dbType == "mongo" && server.connect == Connected && Collections(config, server) != map[]
    ensures status.Exited? ==> status.halt in {ConnectionFailed, NoCollectionList, UploadFailed}
    ensures !status.Exited? ==> status.firstRun == firstRun
    ensures status.Stopped? || status == Exited(ConnectionFailed) || status == Exited(NoCollectionList) ==>
              staging == staged && drive.requests == old(drive.requests)
    ensures !firstRun ==> drive.requests == old(drive.requests) && status != Exited(UploadFailed)
    ensures status == Completed(true) || status == Exited(UploadFailed) ==>
              && Distinct(uploadOrder) && (forall f :: f in uploadOrder <==> f in staging)
              && uploaded <= |uploadOrder|
              && drive.requests == old(drive.requests) + UploadsOf(UploadDirectory(config), uploadOrder[..uploaded], folderId)
    ensures status == Completed(true) ==>
              uploaded == |uploadOrder| && AllReturned(drive.respond, |old(drive.requests)|, uploaded)
    ensures status == Exited(UploadFailed) ==>
              && firstRun && uploaded > 0
              && drive.respond(|old(drive.requests)| + uploaded - 1).Raised?
              && AllReturned(drive.respond, |old(drive.requests)|, uploaded - 1)
    ensures status.Completed? || status == Exited(UploadFailed) ==>
              ExportedFrom(config, server, staged, staging, lastDb, fetched, headings)
  {
    uploadOrder, uploaded := [], 0;
    var stage;
    stage, staging, lastDb, fetched, headings := ExportCollections(config, server, staged);
    match stage {
      case Skipped =>
        return Stopped(firstRun), staging, lastDb, fetched, headings, uploadOrder, uploaded;
      case Halted(halt) =>
        return Exited(halt), staging, lastDb, fetched, headings, uploadOrder, uploaded;
      case Exported =>
    }
    if firstRun {
      var ok;
      ok, uploadOrder, uploaded := UploadExports(drive, UploadDirectory(config), staging, folderId);
      if !ok {
        return Exited(UploadFailed), staging, lastDb, fetched, headings, uploadOrder, uploaded;
      }
    }
    status := Completed(firstRun);
  }

  /** run: the whole export. */
  method Run(config: Config, drive: GDrive, credentialsOk: bool, server: Server, staged: Staging)
    returns (status: RunStatus, staging: Staging,
             ghost lastDb: string, ghost fetched: map<string, seq<Document>>,
             ghost headings: map<string, seq<string>>, ghost uploadOrder: seq<string>, ghost uploaded: nat)
    requires drive.Valid()
    modifies drive
    ensures drive.Valid()
    // without Drive credentials the process exits before anything else
    ensures status == Exited(CredentialsFailed) <==> !credentialsOk
    ensures !credentialsOk ==> staging == staged && drive.requests == old(drive.requests)
    // the folder lookup raises exactly when no service object is set or can be built
    ensures credentialsOk ==> (status == Exited(LookupRaised) <==> LookupFails(old(drive.cache), old(drive.files), drive.serviceAvailable))
    ensures status == Exited(LookupRaised) ==> staging == staged && drive.requests == old(drive.requests)
    // past the lookup, the database side decides how the run ends
    ensures status.Stopped? <==> credentialsOk && !LookupFails(old(drive.cache), old(drive.files), drive.serviceAvailable)
                                 && (config.dbType != "mongo" || server.connect == Unresponsive)
    ensures status == Exited(ConnectionFailed) <==> credentialsOk && !LookupFails(old(drive.cache), old(drive.files), drive.serviceAvailable)
                                                    && config.dbType == "mongo" && server.connect == Unreachable
    ensures status == Exited(NoCollectionList) <==> credentialsOk && !LookupFails(old(drive.cache), old(drive.files), drive.serviceAvailable)
                                                    && config.dbType == "mongo" && server.connect == Connected
                                                    && Collections(config, server) == map[]
    // otherwise the export runs to its end, and only an upload can still stop the run
    ensures status.Completed? || status == Exited(UploadFailed) <==>
              credentialsOk && !LookupFails(old(drive.cache), old(drive.files), drive.serviceAvailable)
              && config.dbType == "mongo" && server.connect == Connected && Collections(config, server) != map[]
    // those ends write nothing and send at most the folder request
    ensures status.Stopped? || status == Exited(ConnectionFailed) || status == Exited(NoCollectionList) ==>
              staging == staged && drive.requests == old(drive.requests) + FolderRequests(drive.remote, config.appName)
    // a folder found by the lookup means no create call at all: neither folder nor uploads
    ensures credentialsOk && Truthy(FolderOnDrive(drive.remote, config.appName)) ==> drive.requests == old(drive.requests)
    ensures (status.Completed? || status.Stopped?) ==> status.firstRun == !Truthy(FolderOnDrive(drive.remote, config.appName))
    // on a first run the folder is created, then the files of the upload directory are uploaded into it
    ensures status == Completed(true) || status == Exited(UploadFailed) ==>
              && !Truthy(FolderOnDrive(drive.remote, config.appName))
              && Distinct(uploadOrder) && (forall f :: f in uploadOrder <==> f in staging)
              && uploaded <= |uploadOrder|
              && drive.requests == old(drive.requests) + [FolderRequest(config.appName)]
                                   + UploadsOf(UploadDirectory(config), uploadOrder[..uploaded], CreatedId(drive.respond(|old(drive.requests)|)))
    // all of them when every upload goes through
    ensures status == Completed(true) ==>
              uploaded == |uploadOrder| && AllReturned(drive.respond, |old(drive.requests)| + 1, uploaded)
    // an upload that raises ends the process right after its request
    ensures status == Exited(UploadFailed) ==>
              && uploaded > 0
              && drive.respond(|old(drive.requests)| + uploaded).Raised?
              && AllReturned(drive.respond, |old(drive.requests)| + 1, uploaded - 1)
    // what a finished export wrote: one file per collection of the last scanned database
    ensures status.Completed? || status == Exited(UploadFailed) ==>
              ExportedFrom(config, server, staged, staging, lastDb, fetched, headings)
  {
    staging := staged;
    lastDb, fetched, headings, uploadOrder, uploaded := "", map[], map[], [], 0;
    var located, firstRun := LocateFolder(drive, config.appName, credentialsOk);
    if located.Failure? {
      return Exited(located.error), staging, lastDb, fetched, headings, uploadOrder, 0;
    }
    status, staging, lastDb, fetched, headings, uploadOrder, uploaded :=
      ExportAndPublish(config, drive, server, staged, firstRun, located.value);
  }

  /** A collection whose qualified name holds neither '/' nor ".csv" is uploaded under that name. */
  lemma UploadedUnderCollectionName(uploadDirectory: string, key: string)
    requires '/' !in key && !ContainsCsv(key)
    ensures UploadName(Join(uploadDirectory, key + ".csv")) == key
  {
    var fileName := key + ".csv";
    assert '/' !in fileName by {
      assert forall i :: 0 <= i < |key| ==> fileName[i] == key[i];
      assert fileName[|key|..] == ".csv";
    }
    BasenameOfJoin(uploadDirectory, fileName);
    CutAtCsvOfExtension(key, "");
    assert key + ".csv" + "" == fileName;
  }
}
