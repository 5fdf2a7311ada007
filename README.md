# xlMongo exporter, modelled in Dafny

xlMongo exports MongoDB collections to Google Drive. A run reads its configuration, then:

- it looks up, in Drive, the folder named after the application, and creates that folder when the lookup finds nothing (a *first run*);
- it lists the databases and their collections, and fetches every document of the collections it keeps;
- it derives a header for each collection from the field names of its documents;
- it writes one CSV file per collection, `<database>.<collection>.csv`, into the `upload` directory under the base directory;
- on a first run only, it uploads every file of that directory into the folder as a Google spreadsheet.

The project models the exporter (`xlMongo.py`) and the Drive wrapper it uses (`googleAuth.py`):

- `documents.dfy`: schemaless documents (field name to value) and the union of their field names.
- `tabular.dfy`:
  - `compareKeys` as `CompareKeys`, a method that returns a header;
  - the rows `jsonToCsv` hands to the CSV writer, as the function `Table` and the method `JsonToCsv`;
  - the `'NULL'` sentinel for missing fields.
- `mongo_utils.dfy`: `scanCollections` and what a fetch thread leaves in the shared dictionary. The server is a value: a connection outcome, a database listing, per-database collection listings and per-collection cursor contents. `None` stands for a call that raised.
- `google_auth.dfy`: the `GDrive` class with its `files`, `cache` and sent `requests` state. It covers:
  - the lazily filled one-page listing cache;
  - the first-match lookups `getFolderId` and `getFileId`;
  - `createFolder` and `createFile`, including the name an uploaded spreadsheet gets (`basename(path).split('.csv')[0]`).

  The Drive account is fixed for a drive object: its listing, whether the service object can be built, and the response to the n-th create call.
- `xl_mongo.dfy`: `run`, split into its stages:
  - `LocateFolder`: credentials, folder lookup or creation;
  - `ExportAndPublish`: everything after the lookup, made of
    - `ExportCollections`: connection, scan, collection selection, fetch, headings and files;
    - `UploadExports`: the first-run upload.

  The upload directory is a map from file name to the rows written into it.
- `posix_path.dfy`: `os.path.basename` and `os.path.join` for POSIX paths.
- `seqs.dfy`: listing the elements of a set in some order. Python's set and dictionary iteration order is not fixed, so the model leaves the order open.

Behaviour of the code a reader might not expect, modelled as written:

- A collection whose cursor raises still gets an (empty) file: the fetch thread puts an empty list in its slot before reading (`Collected`, `FetchAll`). It is not dropped.
- Only the collections of one database are fetched. The loop over `collections.items()` rebinds `collectionList` on every pass, so the last database iterated wins (`SelectCollections`). When the scan yields no database at all, the later use of `collectionList` fails, and the run stops with `NoCollectionList`.
- A configured database list that is missing or empty means all databases (`ScanTargets`). A database listing that raises gives `None`; scanning `None` raises inside `scanCollections`' own `try`, so the result is an empty dictionary (`Collections`).
- `getFileId` reads the key `'mimetype'` whenever a name matches and the entry is not a spreadsheet. Drive listings carry `mimeType`, not `mimetype`, so that case raises a `KeyError` (`MissingMimetype`). `getFolderId` cannot raise this way.
- A missing field is written as the string `NULL`, which a stored string `"NULL"` also produces. The two can be told apart only when no document holds that string (`SentinelMarksAbsence`).
- An uploaded spreadsheet is named after the file up to the first `.csv` in its base name, not its last. `shop.csv_old.csv` is uploaded as `shop` (`CutAtCsvTruncatesInnerExtension`).
- An empty folder id counts as "no folder", like `None`, so it triggers a first run (`Truthy`).
- `run` returns without exporting when the database type is not `mongo`, or when `server_info()` answers with nothing. A connection error ends the process.

## Model

| member | source | states |
|---|---|---|
| Documents.KeyUnionMembers | xlMongo.py:171-172 | a name is in the union of field names exactly when some document has that field |
| Seqs.ListOf | xlMongo.py:173 | listing a set gives each element exactly once and nothing else, so the length equals the set's size |
| Tabular.CompareKeys | xlMongo.py:160-173 | the header holds every field name of the documents exactly once (single document or many) |
| Tabular.NoDocumentsNoColumns | xlMongo.py:167-173 | with no documents the header is empty, and only the empty header fits |
| Tabular.ColumnSetsAgree | xlMongo.py:168-173 | two headers for the same documents are permutations of each other: only the order is unspecified |
| Tabular.TableCells | xlMongo.py:186-197 | the header row comes first, then one row per document in order; each cell is the document's value or the sentinel when the field is missing |
| Tabular.SentinelMarksAbsence | xlMongo.py:192-196 | when no value of the document is the string "NULL", a cell is "NULL" exactly when the field is missing |
| Tabular.JsonToCsv | xlMongo.py:176-197 | the file is named `<name>.csv` and receives exactly the table of header and documents |
| MongoUtils.ScanCollections | xlMongo.py:70-85 | the dictionary has one entry per non-ignored requested database, in list order, up to the first listing that raises, keeping what came before |
| MongoUtils.ScannedEntries | xlMongo.py:76-81 | every entry is a requested, non-ignored database, holding that database's own collection listing |
| MongoUtils.ScannedComplete | xlMongo.py:76-81 | when no listing raises, every requested non-ignored database is present |
| GoogleAuth.FirstDecided | googleAuth.py:132-135 | the lookup loop stops at the first entry it does not pass over, and passes over every entry before it |
| GoogleAuth.Lookup | googleAuth.py:77-80 | a folder lookup never raises |
| GoogleAuth.LookupNoneIffAllPassed | googleAuth.py:132-135 | a lookup gives None exactly when every entry of the cache is passed over |
| GoogleAuth.LookupFindsFirst | googleAuth.py:77-79 | a matching entry preceded only by passed-over entries is the one whose id is returned |
| GoogleAuth.FolderLookupIsFirstMatch | googleAuth.py:77-79 | a folder id returned belongs to a folder with that name, and no earlier entry is a folder with that name |
| GoogleAuth.Page | googleAuth.py:123-124 | the cached page is the first min(20, n) entries of the listing |
| GoogleAuth.CutAtCsvIsPrefix | googleAuth.py:104 | the upload name is a prefix of the file's base name |
| GoogleAuth.CutAtCsvStopsAtFirst | googleAuth.py:104 | the name stops right at the first ".csv", or runs to the end when there is none |
| GoogleAuth.CutAtCsvIsFirstOccurrence | googleAuth.py:104 | the name is cut at the first ".csv"; it is the whole base name exactly when there is no ".csv"; it never holds ".csv" |
| GoogleAuth.CutAtCsvOfExtension | googleAuth.py:104 | a name without ".csv", followed by ".csv" and anything, is cut back to that name |
| GoogleAuth.CutAtCsvTruncatesInnerExtension | googleAuth.py:104 | "shop.csv_old.csv" is uploaded under the name "shop" |
| PosixPath.BasenameIsLastComponent | googleAuth.py:104 | the base name is the path's suffix after its last '/' and holds no '/' |
| PosixPath.BasenameOfJoin | xlMongo.py:303-304 | a listed file name joined onto the upload directory has that name as its base name again |
| GoogleAuth.GDrive.constructor | googleAuth.py:25-31 | a new drive object has no service object, an empty cache and has sent nothing |
| GoogleAuth.GDrive.GetFileObject | googleAuth.py:59-70 | reports whether the service could be built; sets it on success and leaves it as it was on failure |
| GoogleAuth.GDrive.FileList | googleAuth.py:123-125 | with a service, one files.list call is made and the cache becomes the listing page, which is returned; without one, the call raises and nothing changes |
| GoogleAuth.GDrive.FillCache | googleAuth.py:73-76 | a non-empty cache is kept and nothing is listed; an empty one is refilled by exactly one files.list call, building the service first when it is missing |
| GoogleAuth.GDrive.ScanCache | googleAuth.py:132-135 | the loop returns exactly the lookup result for the cache (first match, KeyError, or None) |
| GoogleAuth.GDrive.GetFolderId | googleAuth.py:72-80 | the id of the first folder with that name in the listing page, or None; the call raises without a service; the listing is fetched only when the cache is empty; nothing is sent |
| GoogleAuth.GDrive.GetFileId | googleAuth.py:127-135 | the first entry with that name that is a spreadsheet or has 'mimetype' text/csv; a KeyError at an earlier entry with that name that is neither; the call raises without a service; the listing is fetched only when the cache is empty |
| GoogleAuth.GDrive.CreateFolder | googleAuth.py:82-95 | sends exactly one folder request with that name and returns the response's id; without a service it sends nothing and returns None; the cache is not updated |
| GoogleAuth.GDrive.CreateFile | googleAuth.py:100-121 | sends exactly one spreadsheet request (cut name, parent folder, CSV media), building the service first if needed; any failure ends the process |
| XlMongo.SelectCollections | xlMongo.py:255-258 | the collection list is the one of some (the last iterated) database of the scan, and is unbound exactly when the scan is empty |
| XlMongo.FetchAll | xlMongo.py:259-275 | one slot per collection, named `<database>.<collection>`, holding its documents in cursor order, or nothing when the cursor raised |
| XlMongo.DeriveHeadings | xlMongo.py:276-284 | every fetched collection gets a heading holding each of its field names once |
| XlMongo.CsvNameInjective | xlMongo.py:182 | different collections give different file names |
| XlMongo.WriteExports | xlMongo.py:287-301 | one file per fetched collection, named after it, holding exactly its table |
| XlMongo.MergedExports | xlMongo.py:183-186 | writing the files into the upload directory replaces or adds the collections' files and keeps every other file |
| XlMongo.UploadAll | xlMongo.py:302-306 | one create request per listed file in listing order, each under the folder; every request before the last one sent went through, and the loop stops only after a request that raised |
| XlMongo.UploadExports | xlMongo.py:302-306 | the upload goes through the files of the upload directory, old files included, each once; it either uploads them all with every request going through, or ends right after the first request that raised |
| XlMongo.ExportCollections | xlMongo.py:240-301 | which inputs skip, halt or finish the export, and that a finished export writes one file per collection of one scanned database |
| XlMongo.LocateFolder | xlMongo.py:228-239 | no credentials ends the process; with credentials the lookup raises exactly when no service object is set or can be built; a folder found means no request; none found means one folder request and a first run |
| XlMongo.ExportAndPublish | xlMongo.py:240-306 | which inputs stop, halt or finish the export; early ends send and write nothing; a finished export on a first run uploads every file unless a request raises, which ends it right there |
| XlMongo.Run | xlMongo.py:207-306 | each end of a run tied to its inputs (credentials, lookup, database type, connection, scan, uploads); the requests sent on every end (none when the folder exists, otherwise the folder, then the uploads up to the first that raised); the upload directory after a finished export |
| XlMongo.UploadedUnderCollectionName | googleAuth.py:104 | a collection whose name holds neither '/' nor ".csv" is uploaded as a spreadsheet with the collection's own name |

## Left out

- Reading the YAML configuration, argument parsing, `abspath` of the base directory and creating the `upload`, `download` and `base` directories are left out. The run receives the parsed values in `Config`.
- `run` takes a parameter `confiFile` but reads the global `configFile`; the model takes the configuration directly.
- OAuth (`getCredentials`) is a boolean parameter of `Run`: whether obtaining credentials succeeded.
- The Drive HTTP service is represented by the drive object's fixed listing, its service-availability flag, and the response to each create call. The effect of a create on later listings is not modelled: every listing of a run sees the same page.
- `GoogleAuth.GDrive.FileList`: an `execute()` that raises when a service exists is not modelled, and neither are listings without a `files` key.
- The MongoDB connection, `get_database` and `get_collection` are the `Server` value. `parallel_scan` is commented out in the source.
- Threads and locks are modelled as sequential loops. The fetch threads write disjoint slots, each under its own lock, and the writer threads write distinct files, so the end state does not depend on interleaving.
- Order of dictionary and set iteration and of `os.listdir`: the model leaves it open rather than choosing one.
- CSV quoting, text encoding and `sys.exit()` inside a writer thread (an unencodable row) are left out. `JsonToCsv` states which rows the writer receives.
- Collection names holding '/' (which would put the file in a subdirectory) and non-file entries in the upload directory are left out.
- `updateFile` is a no-op in the source and is not modelled. The `Author` class and `test()` are not used by a run and are not part of this model.
- Printing and tracebacks are left out.
