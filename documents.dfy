/** Documents as the exporter sees them: field name to value, with no fixed shape. */
module Documents {

  /** A field value.  The exporter never looks inside a value: it copies it into a cell. */
  datatype Value =
    | Str(s: string)
    | Int(i: int)
    | Bool(b: bool)
    | Nil                  // Python None
    | Opaque(repr: string) // any other stored value (an ObjectId, a date, a nested document, an array)

  type Document = map<string, Value>

  /** Every field name that occurs in at least one of the documents. */
  function KeyUnion(docs: seq<Document>): set<string>
  {
    if docs == [] then {} else KeyUnion(docs[..|docs| - 1]) + docs[|docs| - 1].Keys
  }

  /** A name is in the union exactly when some document has it as a key. */
  lemma {:induction false} KeyUnionMembers(docs: seq<Document>, k: string)
    ensures k in KeyUnion(docs) <==> exists i :: 0 <= i < |docs| && k in docs[i]
  {
    if docs != [] {
      var init := docs[..|docs| - 1];
      KeyUnionMembers(init, k);
      if k in KeyUnion(docs) && k !in docs[|docs| - 1] {
        var i :| 0 <= i < |init| && k in init[i];
        assert docs[i] == init[i];
      }
      if exists i :: 0 <= i < |docs| && k in docs[i] {
        var i :| 0 <= i < |docs| && k in docs[i];
        if i < |docs| - 1 {
          assert init[i] == docs[i];
        }
      }
    }
  }
}
