/** The exporter's tabular encoding: the header derived from the documents (compareKeys) and the
    rows written for them (jsonToCsv), in xlMongo.py. */
module Tabular {
  import opened Seqs
  import opened Documents

  /** The cell written for a field the document does not have. */
  const Sentinel: Value := Str("NULL")

  /** An exported file: its name in the upload directory and the rows the CSV writer received. */
  datatype ExportFile = ExportFile(fileName: string, rows: seq<seq<Value>>)

  /** `cols` is a header for `docs`: each field name of the documents once, in some order. */
  ghost predicate IsColumnSet(cols: seq<string>, docs: seq<Document>)
  {
    Distinct(cols) && forall k :: k in cols <==> k in KeyUnion(docs)
  }

  /** compareKeys: the keys of the only document when there is one, otherwise the keys
      gathered into a set over all documents; either way listed in no promised order. */
  method CompareKeys(jsonList: seq<Document>) returns (allKeys: seq<string>)
    ensures IsColumnSet(allKeys, jsonList)
  {
    if |jsonList| == 1 {
      assert KeyUnion(jsonList) == KeyUnion([]) + jsonList[0].Keys;
      allKeys := ListOf(jsonList[0].Keys);
      return;
    }
    var allKeysSet: set<string> := {};
    var i := 0;
    while i < |jsonList|
      invariant 0 <= i <= |jsonList|
      invariant allKeysSet == KeyUnion(jsonList[..i])
    {
      assert jsonList[..i + 1][..i] == jsonList[..i];
      allKeysSet := allKeysSet + jsonList[i].Keys;
      i := i + 1;
    }
    assert jsonList[..i] == jsonList;
    allKeys := ListOf(allKeysSet);
  }

  /** With no documents the only header is the empty one. */
  lemma NoDocumentsNoColumns(cols: seq<string>)
    ensures IsColumnSet(cols, []) <==> cols == []
  {
    if cols != [] {
      assert cols[0] in cols;
    }
  }

  /** Any two headers for the same documents hold the same names, so they differ at most in order. */
  lemma ColumnSetsAgree(a: seq<string>, b: seq<string>, docs: seq<Document>)
    requires IsColumnSet(a, docs) && IsColumnSet(b, docs)
    ensures multiset(a) == multiset(b) && |a| == |b|
  {
    SameElementsArePermutations(a, b);
  }

  /** The cell for column `key` of a document. */
  function Cell(key: string, doc: Document): Value
  {
    if key in doc then doc[key] else Sentinel
  }

  function HeaderRow(headerList: seq<string>): seq<Value>
  {
    seq(|headerList|, j requires 0 <= j < |headerList| => Str(headerList[j]))
  }

  function DataRow(headerList: seq<string>, doc: Document): seq<Value>
  {
    seq(|headerList|, j requires 0 <= j < |headerList| => Cell(headerList[j], doc))
  }

  /** What the CSV writer receives for a header and a list of documents: the header row, then a
      row per document. */
  function Table(headerList: seq<string>, docs: seq<Document>): seq<seq<Value>>
  {
    if docs == [] then [HeaderRow(headerList)]
    else Table(headerList, docs[..|docs| - 1]) + [DataRow(headerList, docs[|docs| - 1])]
  }

  /** The header row first, then one row per document in the documents' order; each row has a
      cell per column: the document's value, or the sentinel when the document lacks that field. */
  lemma {:induction false} TableCells(headerList: seq<string>, docs: seq<Document>)
    ensures |Table(headerList, docs)| == |docs| + 1
    ensures Table(headerList, docs)[0] == seq(|headerList|, j requires 0 <= j < |headerList| => Str(headerList[j]))
    ensures forall i :: 1 <= i < |docs| + 1 ==> |Table(headerList, docs)[i]| == |headerList|
    ensures forall i, j :: 1 <= i < |docs| + 1 && 0 <= j < |headerList| ==>
              Table(headerList, docs)[i][j] == if headerList[j] in docs[i - 1] then docs[i - 1][headerList[j]] else Sentinel
  {
    if docs != [] {
      var init := docs[..|docs| - 1];
      TableCells(headerList, init);
      forall i | 0 <= i < |init| ensures docs[i] == init[i] { }
    }
  }

  /** Unless a document holds the string "NULL" itself, a cell is the sentinel exactly when the
      document lacks that column. */
  lemma SentinelMarksAbsence(doc: Document, key: string)
    requires Sentinel !in doc.Values
    ensures Cell(key, doc) == Sentinel <==> key !in doc
  {
    if key in doc {
      assert doc[key] in doc.Values;
    }
  }

  /** jsonToCsv: writes `<name>.csv` with the header row first and then one row per document,
      in the documents' order, one cell per header column. */
  method JsonToCsv(name: string, headerList: seq<string>, dictList: seq<Document>) returns (file: ExportFile)
    ensures file.fileName == name + ".csv"
    ensures file.rows == Table(headerList, dictList)
  {
    var rows := [HeaderRow(headerList)];
    var i := 0;
    while i < |dictList|
      invariant 0 <= i <= |dictList|
      invariant rows == Table(headerList, dictList[..i])
    {
      var dictObject := dictList[i];
      var row: seq<Value> := [];
      var j := 0;
      while j < |headerList|
        invariant 0 <= j <= |headerList|
        invariant |row| == j
        invariant forall m :: 0 <= m < j ==> row[m] == Cell(headerList[m], dictObject)
      {
        var key := headerList[j];
        var val;
        if key !in dictObject {
          val := Str("NULL");
        } else {
          val := dictObject[key];
        }
        row := row + [val];
        j := j + 1;
      }
      assert row == DataRow(headerList, dictObject);
      assert dictList[..i + 1][..i] == dictList[..i];
      rows := rows + [row];
      i := i + 1;
    }
    assert dictList[..i] == dictList;
    file := ExportFile(name + ".csv", rows);
  }
}
