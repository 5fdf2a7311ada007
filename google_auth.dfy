/** GDrive in googleAuth.py: a lazily filled, one-page cache of the Drive listing, first-match
    lookups in it, and the create calls for the application folder and the uploaded files. */
module GoogleAuth {
  import opened Wrappers
  import opened PosixPath

  const FolderMime := "application/vnd.google-apps.folder"
  const SpreadsheetMime := "application/vnd.google-apps.spreadsheet"
  const CsvMime := "text/csv"
  /** The page size of the one files.list call. */
  const PageSize := 20

  /** One file of a listing.  `mimetype` is the lower-case field getFileId also consults; Drive
      does not send it, so it is normally absent. */
  datatype Entry = Entry(id: string, name: string, mimeType: string, mimetype: Option<string>)

  /** The metadata sent with a create call; `parents` is absent for a folder. */
  datatype Metadata = Metadata(name: string, mimeType: string, parents: Option<seq<Option<string>>>)
  datatype Media = Media(fileName: string, mimetype: string, resumable: bool)
  datatype Request = Request(body: Metadata, media: Option<Media>)

  /** What a create call's execute() gave: the response's id (possibly missing), or an exception. */
  datatype Response = Returned(id: Option<string>) | Raised

  /** Why a call did not return normally: no files service object (an AttributeError), a missing
      'mimetype' key (a KeyError), or sys.exit(). */
  datatype Fault = NoFileService | MissingMimetype | Exit

  datatype Query = FolderNamed(name: string) | FileNamed(name: string)

  /** What a lookup loop does at one entry: return its id, go on, or raise. */
  datatype Verdict = Match | Skip | Raise

  function Judge(q: Query, e: Entry): Verdict
  {
    match q
    case FolderNamed(n) =>
      if e.name == n && e.mimeType == FolderMime then Match else Skip
    case FileNamed(n) =>
      if e.name != n then Skip
      else if e.mimeType == SpreadsheetMime then Match
      else match e.mimetype
        case None => Raise
        case Some(m) => if m == CsvMime then Match else Skip
  }

  /** The index at which a lookup loop started at `from` stops, or |cache| if it runs out. */
  function FirstDecided(cache: seq<Entry>, q: Query, from: nat): (k: nat)
    requires from <= |cache|
    ensures from <= k <= |cache|
    ensures k < |cache| ==> Judge(q, cache[k]) != Skip
    ensures forall i :: from <= i < k ==> Judge(q, cache[i]) == Skip
    decreases |cache| - from
  {
    if from == |cache| || Judge(q, cache[from]) != Skip then from
    else FirstDecided(cache, q, from + 1)
  }

  /** The result of a lookup loop over the cache. */
  function Lookup(cache: seq<Entry>, q: Query): (r: Result<Option<string>, Fault>)
    ensures q.FolderNamed? ==> r.Success?
  {
    var k := FirstDecided(cache, q, 0);
    if k == |cache| then Success(None)
    else if Judge(q, cache[k]) == Match then Success(Some(cache[k].id))
    else Failure(MissingMimetype)
  }

  /** A lookup gives None exactly when the loop passes over every entry. */
  lemma LookupNoneIffAllPassed(cache: seq<Entry>, q: Query)
    ensures Lookup(cache, q) == Success(None) <==> forall i :: 0 <= i < |cache| ==> Judge(q, cache[i]) == Skip
  {
    var k := FirstDecided(cache, q, 0);
  }

  /** A lookup returns the id of the first entry that matches when every entry before it is passed over. */
  lemma LookupFindsFirst(cache: seq<Entry>, q: Query, i: nat)
    requires i < |cache| && Judge(q, cache[i]) == Match
    requires forall j :: 0 <= j < i ==> Judge(q, cache[j]) == Skip
    ensures Lookup(cache, q) == Success(Some(cache[i].id))
  {
    var k := FirstDecided(cache, q, 0);
  }

  /** A folder lookup returns the id of the first folder entry with that name. */
  lemma {:induction false} FolderLookupIsFirstMatch(cache: seq<Entry>, name: string, id: string)
    requires Lookup(cache, FolderNamed(name)) == Success(Some(id))
    ensures exists i :: 0 <= i < |cache| && cache[i].id == id && cache[i].name == name
              && cache[i].mimeType == FolderMime
              && forall j :: 0 <= j < i ==> !(cache[j].name == name && cache[j].mimeType == FolderMime)
  {
    var k := FirstDecided(cache, FolderNamed(name), 0);
    assert forall j :: 0 <= j < k ==> Judge(FolderNamed(name), cache[j]) == Skip;
  }

  /** The listing page files.list(pageSize=20) returns: the first 20 entries at most. */
  function Page(listing: seq<Entry>): (r: seq<Entry>)
    ensures |r| == if |listing| <= PageSize then |listing| else PageSize
    ensures r == listing[..|r|]
  {
    if |listing| <= PageSize then listing else listing[..PageSize]
  }

  /** Whether `s` holds ".csv" starting at index i. */
  ghost predicate CsvAt(s: string, i: int)
  {
    0 <= i && i + 4 <= |s| && s[i..i + 4] == ".csv"
  }

  ghost predicate ContainsCsv(s: string)
  {
    exists i :: CsvAt(s, i)
  }

  /** `s.split('.csv')[0]`: `s` up to the first ".csv". */
  function CutAtCsv(s: string): string
    decreases |s|
  {
    if |s| < 4 then s
    else if s[..4] == ".csv" then ""
    else [s[0]] + CutAtCsv(s[1..])
  }

  /** The cut is a prefix of `s`. */
  lemma {:induction false} CutAtCsvIsPrefix(s: string)
    ensures |CutAtCsv(s)| <= |s| && CutAtCsv(s) == s[..|CutAtCsv(s)|]
    decreases |s|
  {
    if |s| >= 4 && s[..4] != ".csv" {
      CutAtCsvIsPrefix(s[1..]);
      assert s == [s[0]] + s[1..];
    }
  }

  /** ".csv" at i + 1 in `s` is ".csv" at i in the tail of `s`. */
  lemma CsvAtShift(s: string, i: nat)
    requires s != []
    ensures CsvAt(s, i + 1) <==> CsvAt(s[1..], i)
  {
    if i + 5 <= |s| {
      assert s[i + 1..i + 5] == s[1..][i..i + 4];
    }
  }

  /** The cut stops at the first ".csv" of `s`, and runs to the end of `s` when there is none. */
  lemma {:induction false} CutAtCsvStopsAtFirst(s: string)
    ensures forall i :: 0 <= i < |CutAtCsv(s)| ==> !CsvAt(s, i)
    ensures |CutAtCsv(s)| < |s| ==> CsvAt(s, |CutAtCsv(s)|)
    decreases |s|
  {
    if |s| < 4 {
    } else if s[..4] == ".csv" {
      assert CsvAt(s, 0);
    } else {
      var t := s[1..];
      CutAtCsvStopsAtFirst(t);
      var r, rt := CutAtCsv(s), CutAtCsv(t);
      assert |r| == |rt| + 1;
      assert !CsvAt(s, 0);
      forall i | 0 < i < |r| ensures !CsvAt(s, i) {
        CsvAtShift(s, i - 1);
      }
      if |r| < |s| {
        CsvAtShift(s, |rt|);
      }
    }
  }

  /** The cut is a prefix of `s` that ends at the first ".csv" of `s`, or all of `s` when it has
      none; the cut holds no ".csv". */
  lemma CutAtCsvIsFirstOccurrence(s: string)
    ensures var r := CutAtCsv(s);
      && |r| <= |s| && r == s[..|r|]
      && (forall i :: 0 <= i < |r| ==> !CsvAt(s, i))
      && (|r| < |s| ==> CsvAt(s, |r|))
      && (|r| == |s| <==> !ContainsCsv(s))
      && !ContainsCsv(r)
  {
    var r := CutAtCsv(s);
    CutAtCsvIsPrefix(s);
    CutAtCsvStopsAtFirst(s);
    forall i ensures CsvAt(r, i) ==> CsvAt(s, i) {
      if 0 <= i && i + 4 <= |r| {
        assert r[i..i + 4] == s[i..i + 4];
      }
    }
    if |r| == |s| {
      assert r == s;
    }
  }

  /** The cut of `name + ".csv" + rest` is `name` when `name` holds no ".csv": the first
      ".csv" wins, whatever follows it. */
  lemma CutAtCsvOfExtension(name: string, rest: string)
    requires !ContainsCsv(name)
    ensures CutAtCsv(name + ".csv" + rest) == name
  {
    var s := name + ".csv" + rest;
    CutAtCsvIsFirstOccurrence(s);
    assert s[|name|..|name| + 4] == ".csv";
    assert CsvAt(s, |name|);
    var r := CutAtCsv(s);
    forall i | 0 <= i < |name| ensures !CsvAt(s, i) {
      if i + 4 <= |name| {
        assert s[i..i + 4] == name[i..i + 4];
        assert !CsvAt(name, i);
      } else {
        // the '.' at |name| would have to stand where ".csv" has 'c', 's' or 'v'
        assert s[|name|] == '.';
        assert s[i..i + 4][|name| - i] == '.';
      }
    }
    assert |r| == |name|;
    assert r == s[..|name|] == name;
  }

  /** So the cut is not the file name without its extension once that name holds ".csv" itself. */
  lemma CutAtCsvTruncatesInnerExtension()
    ensures CutAtCsv("shop.csv_old.csv") == "shop"
  {
    var name := "shop";
    assert !ContainsCsv(name) by {
      forall i ensures !CsvAt(name, i) {
        if 0 <= i && i + 4 <= |name| {
          assert name[i..i + 4][0] == 's';
        }
      }
    }
    assert "shop.csv_old.csv" == name + ".csv" + "_old.csv";
    CutAtCsvOfExtension(name, "_old.csv");
  }

  /** The name createFile gives the uploaded spreadsheet: the path's base name cut at its first ".csv". */
  function UploadName(filePath: string): string
  {
    CutAtCsv(Basename(filePath))
  }

  /** The call createFolder sends. */
  function FolderRequest(folderName: string): Request
  {
    Request(Metadata(folderName, FolderMime, None), None)
  }

  /** The call createFile sends: a spreadsheet under the given parent, filled from the CSV file. */
  function UploadRequest(filePath: string, parentFolderId: Option<string>): Request
  {
    Request(Metadata(UploadName(filePath), SpreadsheetMime, Some([parentFolderId])),
            Some(Media(filePath, CsvMime, true)))
  }

  /** The id createFolder returns for a response. */
  function CreatedId(response: Response): Option<string>
  {
    match response
    case Returned(id) => id
    case Raised => None
  }

  class GDrive {
    /** The Drive listing that files.list reads from. */
    const remote: seq<Entry>
    /** Whether building the files service (getFileObject) succeeds. */
    const serviceAvailable: bool
    /** The outcome of the n-th create call of the run. */
    const respond: nat -> Response

    /** Whether the files service object is set. */
    var files: bool
    var cache: seq<Entry>
    /** The create calls sent so far, in order. */
    var requests: seq<Request>
    /** The files.list calls made so far. */
    var listCalls: nat

    /** The cache is empty or holds the listing page, and it is only filled through the service. */
    ghost predicate Valid()
      reads this
    {
      && (cache == [] || cache == Page(remote))
      && (cache != [] ==> files)
    }

    constructor (remote: seq<Entry>, serviceAvailable: bool, respond: nat -> Response)
      ensures Valid()
      ensures this.remote == remote && this.serviceAvailable == serviceAvailable && this.respond == respond
      ensures !files && cache == [] && requests == [] && listCalls == 0
    {
      this.remote := remote;
      this.serviceAvailable := serviceAvailable;
      this.respond := respond;
      files := false;
      cache := [];
      requests := [];
      listCalls := 0;
    }

    /** getFileObject: builds the files service; a failure leaves the field as it was. */
    method GetFileObject() returns (ok: bool)
      modifies this
      ensures ok == serviceAvailable
      ensures files == (old(files) || serviceAvailable)
      ensures cache == old(cache) && requests == old(requests) && listCalls == old(listCalls)
    {
      ok := serviceAvailable;
      if ok {
        files := true;
      }
    }

    /** fileList: replaces the cache with one listing page; without a service object it raises. */
    method FileList() returns (r: Result<seq<Entry>, Fault>)
      requires Valid()
      modifies this
      ensures Valid() && files == old(files) && requests == old(requests)
      ensures files ==> cache == Page(remote) && r == Success(cache) && listCalls == old(listCalls) + 1
      ensures !files ==> cache == old(cache) && r == Failure(NoFileService) && listCalls == old(listCalls)
    {
      if !files {
        return Failure(NoFileService);
      }
      listCalls := listCalls + 1;
      cache := Page(remote);
      r := Success(cache);
    }

    /** The lazy fill both lookups begin with: only an empty cache is refetched. */
    method FillCache() returns (r: Result<seq<Entry>, Fault>)
      requires Valid()
      modifies this
      ensures Valid() && requests == old(requests)
      // the listing is fetched only for an empty cache, and then exactly once
      ensures old(cache) != [] ==> listCalls == old(listCalls)
      ensures old(cache) == [] ==> listCalls == old(listCalls) + (if files then 1 else 0)
      ensures files == (old(files) || (old(cache) == [] && serviceAvailable))
      ensures old(cache) != [] ==> cache == old(cache)
      ensures files ==> cache == Page(remote) && r == Success(cache)
      ensures !files ==> cache == [] && r == Failure(NoFileService)
    {
      if cache != [] {
        return Success(cache);
      }
      if !files {
        var _ := GetFileObject();
      }
      r := FileList();
    }

    /** The loop of getFolderId and getFileId: the first entry the query accepts gives the id. */
    method ScanCache(q: Query) returns (r: Result<Option<string>, Fault>)
      ensures r == Lookup(cache, q)
    {
      var i := 0;
      while i < |cache|
        invariant 0 <= i <= |cache|
        invariant FirstDecided(cache, q, 0) == FirstDecided(cache, q, i)
      {
        var file := cache[i];
        match q {
        case FolderNamed(folderName) =>
          if file.name == folderName && file.mimeType == FolderMime {
            return Success(Some(file.id));
          }
        case FileNamed(fileName) =>
          if file.name == fileName {
            if file.mimeType == SpreadsheetMime {
              return Success(Some(file.id));
            }
            if file.mimetype.None? {
              return Failure(MissingMimetype);
            }
            if file.mimetype.value == CsvMime {
              return Success(Some(file.id));
            }
          }
        }
        i := i + 1;
      }
      r := Success(None);
    }

    /** getFolderId: the id of the first folder in the listing page with that name, or None.
        Every lookup that returns answers from the same page, so repeated lookups agree. */
    method GetFolderId(folderName: string) returns (r: Result<Option<string>, Fault>)
      requires Valid()
      modifies this
      ensures Valid() && requests == old(requests)
      // the listing is fetched only for an empty cache, and then exactly once
      ensures old(cache) != [] ==> listCalls == old(listCalls)
      ensures old(cache) == [] ==> listCalls == old(listCalls) + (if files then 1 else 0)
      ensures files == (old(files) || (old(cache) == [] && serviceAvailable))
      ensures files ==> cache == Page(remote) && r == Lookup(Page(remote), FolderNamed(folderName))
      ensures !files ==> cache == [] && r == Failure(NoFileService)
    {
      var filled := FillCache();
      if filled.Failure? {
        return Failure(filled.error);
      }
      r := ScanCache(FolderNamed(folderName));
    }

    /** getFileId: the id of the first entry with that name that is a spreadsheet, or else has a
        'mimetype' of text/csv; an entry with the name but neither field raises a KeyError. */
    method GetFileId(fileName: string) returns (r: Result<Option<string>, Fault>)
      requires Valid()
      modifies this
      ensures Valid() && requests == old(requests)
      // the listing is fetched only for an empty cache, and then exactly once
      ensures old(cache) != [] ==> listCalls == old(listCalls)
      ensures old(cache) == [] ==> listCalls == old(listCalls) + (if files then 1 else 0)
      ensures files == (old(files) || (old(cache) == [] && serviceAvailable))
      ensures files ==> cache == Page(remote) && r == Lookup(Page(remote), FileNamed(fileName))
      ensures !files ==> cache == [] && r == Failure(NoFileService)
    {
      var filled := FillCache();
      if filled.Failure? {
        return Failure(filled.error);
      }
      r := ScanCache(FileNamed(fileName));
    }

    /** createFolder: sends a folder with that name and returns its id, or None when the call
        fails.  The cache is left alone, so a filled cache does not show the new folder. */
    method CreateFolder(folderName: string) returns (r: Option<string>)
      requires Valid()
      modifies this
      ensures Valid() && files == old(files) && cache == old(cache) && listCalls == old(listCalls)
      ensures !files ==> requests == old(requests) && r == None
      ensures files ==> requests == old(requests) + [FolderRequest(folderName)]
                        && r == CreatedId(respond(|old(requests)|))
    {
      if !files {
        // self._files is None: the AttributeError is caught and None returned
        return None;
      }
      var n := |requests|;
      requests := requests + [FolderRequest(folderName)];
      r := CreatedId(respond(n));
    }

    /** createFile: uploads the CSV file as a spreadsheet named after it inside the parent folder;
        any failure ends the process. */
    method CreateFile(filePath: string, parentFolderId: Option<string>) returns (r: Result<Option<string>, Fault>)
      requires Valid()
      modifies this
      ensures Valid() && cache == old(cache) && listCalls == old(listCalls)
      ensures files == (old(files) || serviceAvailable)
      ensures !files ==> requests == old(requests) && r == Failure(Exit)
      ensures files ==> requests == old(requests) + [UploadRequest(filePath, parentFolderId)]
      ensures files ==> r == match respond(|old(requests)|)
                             case Raised => Failure(Exit)
                             case Returned(id) => Success(id)
    {
      var name := UploadName(filePath);
      var fileMetadata := Metadata(name, SpreadsheetMime, Some([parentFolderId]));
      var mediaBody := Media(filePath, CsvMime, true);
      if !files {
        var _ := GetFileObject();
      }
      if !files {
        return Failure(Exit);
      }
      var n := |requests|;
      requests := requests + [Request(fileMetadata, Some(mediaBody))];
      match respond(n)
      case Raised => r := Failure(Exit);
      case Returned(id) => r := Success(id);
    }
  }
}
