/** MongoUtils in xlMongo.py: which databases and collections are exported, and what a fetch
    thread leaves behind.  The server is a set of answers fixed for the run. */
module MongoUtils {
  import opened Wrappers
  import opened Documents

  /** The databases scanCollections skips unless told otherwise. */
  const DefaultIgnored: seq<string> := ["local", "config", "test", "admin"]

  /** The outcome of getConnection: server_info() answered, answered with nothing, or raised
      (which ends the process). */
  datatype Connect = Connected | Unresponsive | Unreachable

  /** The database server as the exporter sees it.  `None` stands for a call that raised. */
  datatype Server = Server(
    connect: Connect,
    databaseNames: Option<seq<string>>,               // database_names()
    collectionNames: string -> Option<seq<string>>,   // collection_names() of one database
    documents: string -> Option<seq<Document>>)       // find() over "<database>.<collection>", in cursor order

  /** A collection object: its database's name and its own. */
  datatype Handle = Handle(database: string, name: string)

  /** The name a fetch thread runs under and its slot in the result dictionary. */
  function QualifiedName(h: Handle): string
  {
    h.database + "." + h.name
  }

  /** The dictionary scanCollections returns: an entry per database not ignored, in list order,
      until a listing raises; what was gathered before that is kept. */
  function Scanned(dbs: seq<string>, ignored: seq<string>, listing: string -> Option<seq<string>>)
    : map<string, seq<string>>
    decreases |dbs|
  {
    if dbs == [] then map[]
    else if dbs[0] in ignored then Scanned(dbs[1..], ignored, listing)
    else match listing(dbs[0])
      case None => map[]
      case Some(names) => map[dbs[0] := names] + Scanned(dbs[1..], ignored, listing)
  }

  method ScanCollections(server: Server, databases: seq<string>, ignoredDatabases: seq<string>)
    returns (collectionDict: map<string, seq<string>>)
    ensures collectionDict == Scanned(databases, ignoredDatabases, server.collectionNames)
  {
    collectionDict := map[];
    var i := 0;
    while i < |databases|
      invariant 0 <= i <= |databases|
      invariant collectionDict + Scanned(databases[i..], ignoredDatabases, server.collectionNames)
             == Scanned(databases, ignoredDatabases, server.collectionNames)
    {
      var dbname := databases[i];
      assert databases[i..][1..] == databases[i + 1..];
      if dbname in ignoredDatabases {
        i := i + 1;
        continue;
      }
      var names := server.collectionNames(dbname);
      if names.None? {
        // the exception is caught around the whole loop: the partial dictionary is returned
        return;
      }
      var rest := Scanned(databases[i + 1..], ignoredDatabases, server.collectionNames);
      assert collectionDict[dbname := names.value] + rest == collectionDict + (map[dbname := names.value] + rest);
      collectionDict := collectionDict[dbname := names.value];
      i := i + 1;
    }
    assert databases[i..] == [];
  }

  /** Only requested databases outside the ignore list appear, each with its own listing. */
  lemma {:induction false} ScannedEntries(dbs: seq<string>, ignored: seq<string>, listing: string -> Option<seq<string>>, d: string)
    requires d in Scanned(dbs, ignored, listing)
    ensures d in dbs && d !in ignored
    ensures listing(d) == Some(Scanned(dbs, ignored, listing)[d])
    decreases |dbs|
  {
    var r := Scanned(dbs, ignored, listing);
    if dbs[0] in ignored {
      ScannedEntries(dbs[1..], ignored, listing, d);
    } else {
      var rest := Scanned(dbs[1..], ignored, listing);
      if d in rest {
        ScannedEntries(dbs[1..], ignored, listing, d);
      }
    }
  }

  /** When no listing raises, every requested database outside the ignore list appears. */
  lemma {:induction false} ScannedComplete(dbs: seq<string>, ignored: seq<string>, listing: string -> Option<seq<string>>, d: string)
    requires forall e :: e in dbs && e !in ignored ==> listing(e).Some?
    requires d in dbs && d !in ignored
    ensures d in Scanned(dbs, ignored, listing)
    decreases |dbs|
  {
    if dbs[0] != d {
      assert d in dbs[1..];
      ScannedComplete(dbs[1..], ignored, listing, d);
    }
  }

  /** What a fetch thread leaves in the result dictionary: its slot is set to an empty list before
      the cursor is read, so a cursor that raises leaves the collection empty. */
  function Collected(fetched: Option<seq<Document>>): seq<Document>
  {
    match fetched
    case None => []
    case Some(docs) => docs
  }
}
