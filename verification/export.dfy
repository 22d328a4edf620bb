/** Tabular export: one projection of records onto columns, shared by the
    spreadsheet, the PDF table and the printable HTML page. */
module Export {
  import opened Text

  /** A record field as the exporter receives it. `Composite` stands for any other
      shape (an object, an array) and carries the text `JSON.stringify` gives it. */
  datatype Value = Undefined | Null | Bool(b: bool) | Num(n: int) | Str(s: string) | Composite(json: string)

  /** What a cell may hold: `string | number | boolean`. */
  datatype Cell = CellBool(b: bool) | CellNum(n: int) | CellStr(s: string)

  /** A record, read by field name. */
  type Row = map<string, Value>

  /** `{ header, key }`: the column title and the record field it shows. */
  datatype Column = Column(header: string, key: string)

  predicate IsPrimitive(v: Value)
  {
    v.Bool? || v.Num? || v.Str?
  }

  /** A cell read back as a field value. */
  function AsValue(c: Cell): (v: Value)
    ensures IsPrimitive(v)
  {
    match c
    case CellBool(b) => Bool(b)
    case CellNum(n) => Num(n)
    case CellStr(s) => Str(s)
  }

  /** `cellValue`: absent values become the empty string, primitives pass through,
      anything else becomes its serialisation. It is total over the shapes `Value`
      admits; the shapes on which serialisation fails are not among them. */
  function CellValue(v: Value): (c: Cell)
    ensures v.Undefined? || v.Null? ==> c == CellStr("")
    ensures IsPrimitive(v) ==> AsValue(c) == v
    ensures v.Composite? ==> c == CellStr(v.json)
  {
    match v
    case Undefined => CellStr("")
    case Null => CellStr("")
    case Bool(b) => CellBool(b)
    case Num(n) => CellNum(n)
    case Str(s) => CellStr(s)
    case Composite(json) => CellStr(json)
  }

  /** `row[key]`: a field the record lacks reads as `undefined`. A key is one of
      the record type's own fields (`keyof T`), so it is never a name the record
      inherits from `Object.prototype` (`Language.InheritedNames`), which would
      read the inherited member instead. */
  function Field(row: Row, key: string): Value
  {
    if key in row then row[key] else Undefined
  }

  function CellAt(row: Row, key: string): Cell
  {
    CellValue(Field(row, key))
  }

  /** A missing field exports as an empty cell. */
  lemma MissingFieldIsEmpty(row: Row, key: string)
    requires key !in row
    ensures CellAt(row, key) == CellStr("")
  {
  }

  // ---------------------------------------------------------------------------
  // The shared projection

  /** `columns.map(col => col.header)`. */
  function Head(columns: seq<Column>): (r: seq<string>)
    ensures |r| == |columns|
    ensures forall j | 0 <= j < |columns| :: r[j] == columns[j].header
  {
    seq(|columns|, j requires 0 <= j < |columns| => columns[j].header)
  }

  /** `columns.map(col => cellValue(row[col.key]))`. */
  function RowCells(row: Row, columns: seq<Column>): (r: seq<Cell>)
    ensures |r| == |columns|
    ensures forall j | 0 <= j < |columns| :: r[j] == CellAt(row, columns[j].key)
  {
    if columns == [] then [] else [CellAt(row, columns[0].key)] + RowCells(row, columns[1..])
  }

  /** `rows.map(row => columns.map(...))`: cell (i, j) is record i's field for column j. */
  function Body(rows: seq<Row>, columns: seq<Column>): (r: seq<seq<Cell>>)
    ensures |r| == |rows|
    ensures forall i | 0 <= i < |rows| :: |r[i]| == |columns|
    ensures forall i, j | 0 <= i < |rows| && 0 <= j < |columns| :: r[i][j] == CellAt(rows[i], columns[j].key)
  {
    if rows == [] then [] else [RowCells(rows[0], columns)] + Body(rows[1..], columns)
  }

  // ---------------------------------------------------------------------------
  // PDF: a title, one header row and the body.

  datatype PdfTable = PdfTable(title: string, head: seq<seq<string>>, body: seq<seq<Cell>>)

  function ExportPdf(title: string, rows: seq<Row>, columns: seq<Column>): (t: PdfTable)
    ensures t.title == title
    ensures |t.head| == 1 && |t.head[0]| == |columns|
    ensures forall j | 0 <= j < |columns| :: t.head[0][j] == columns[j].header
    ensures |t.body| == |rows|
    ensures forall i | 0 <= i < |rows| :: |t.body[i]| == |columns|
    ensures forall i, j | 0 <= i < |rows| && 0 <= j < |columns| :: t.body[i][j] == CellAt(rows[i], columns[j].key)
  {
    PdfTable(title, [Head(columns)], Body(rows, columns))
  }

  // ---------------------------------------------------------------------------
  // Spreadsheet: one object per record, keyed by column header. Assignments run
  // left to right, so a repeated header keeps its last column's value.

  ghost predicate LastWithHeader(columns: seq<Column>, j: int)
    requires 0 <= j < |columns|
  {
    forall k | j < k < |columns| :: columns[k].header != columns[j].header
  }

  /** The one header an object literal does not take as a key: assigning a
      primitive to `__proto__` goes to the inherited accessor, which ignores it. */
  const ProtoKey: string := "__proto__"

  function ExcelRecord(row: Row, columns: seq<Column>): map<string, Cell>
  {
    if columns == [] then map[]
    else
      var n := |columns| - 1;
      var earlier := ExcelRecord(row, columns[..n]);
      if columns[n].header == ProtoKey then earlier
      else earlier[columns[n].header := CellAt(row, columns[n].key)]
  }

  /** The spreadsheet row is keyed by exactly the column headers, except
      `__proto__`. */
  lemma {:induction false} ExcelRecordKeys(row: Row, columns: seq<Column>)
    ensures forall h :: h in ExcelRecord(row, columns) <==> h in Head(columns) && h != ProtoKey
  {
    if columns != [] {
      var n := |columns| - 1;
      ExcelRecordKeys(row, columns[..n]);
      HeadSnoc(columns);
    }
  }

  /** The header of the last column with that header carries that column's cell. */
  lemma {:induction false} ExcelRecordCell(row: Row, columns: seq<Column>, j: int)
    requires 0 <= j < |columns| && LastWithHeader(columns, j)
    ensures columns[j].header != ProtoKey ==> columns[j].header in ExcelRecord(row, columns)
    ensures columns[j].header != ProtoKey ==> ExcelRecord(row, columns)[columns[j].header] == CellAt(row, columns[j].key)
  {
    var n := |columns| - 1;
    if j < n {
      var prefix := columns[..n];
      assert prefix[j] == columns[j];
      assert columns[n].header != columns[j].header;
      assert LastWithHeader(prefix, j) by {
        forall k | j < k < n ensures prefix[k].header != prefix[j].header {
          assert prefix[k] == columns[k];
        }
      }
      ExcelRecordCell(row, prefix, j);
    }
  }

  function ExcelRows(rows: seq<Row>, columns: seq<Column>): (r: seq<map<string, Cell>>)
    ensures |r| == |rows|
    ensures forall i | 0 <= i < |rows| :: r[i] == ExcelRecord(rows[i], columns)
  {
    if rows == [] then [] else [ExcelRecord(rows[0], columns)] + ExcelRows(rows[1..], columns)
  }

  ghost predicate DistinctHeaders(columns: seq<Column>)
  {
    forall j, k | 0 <= j < k < |columns| :: columns[j].header != columns[k].header
  }

  ghost predicate NoProtoHeader(columns: seq<Column>)
  {
    forall j | 0 <= j < |columns| :: columns[j].header != ProtoKey
  }

  /** With distinct headers the spreadsheet and the PDF carry the same cells,
      except under a `__proto__` header, which the spreadsheet lacks. */
  lemma ExcelAgreesWithPdf(title: string, rows: seq<Row>, columns: seq<Column>)
    requires DistinctHeaders(columns)
    ensures forall i, j | 0 <= i < |rows| && 0 <= j < |columns| && columns[j].header != ProtoKey ::
      columns[j].header in ExcelRows(rows, columns)[i] &&
      ExcelRows(rows, columns)[i][columns[j].header] == ExportPdf(title, rows, columns).body[i][j]
  {
    var excel, pdf := ExcelRows(rows, columns), ExportPdf(title, rows, columns);
    forall i, j | 0 <= i < |rows| && 0 <= j < |columns| && columns[j].header != ProtoKey
      ensures columns[j].header in excel[i] && excel[i][columns[j].header] == pdf.body[i][j]
    {
      assert LastWithHeader(columns, j);
      ExcelRecordCell(rows[i], columns, j);
    }
  }

  // ---------------------------------------------------------------------------
  // Key order of a spreadsheet record. An object lists its array-index keys
  // ("0", "2024") first, in ascending numeric order, then its other keys in the
  // order they were first assigned (section 10.1.11.1 of ECMA-262).

  /** The canonical decimal text of an integer from 0 to 2^32 - 2. */
  predicate IsArrayIndex(h: string)
  {
    && |h| > 0
    && (forall i | 0 <= i < |h| :: IsDigit(h[i]))
    && (h[0] != '0' || |h| == 1)
    && ParseNat(h) <= 4294967294
  }

  ghost predicate NoIndexHeader(columns: seq<Column>)
  {
    forall j | 0 <= j < |columns| :: !IsArrayIndex(columns[j].header)
  }

  /** Adds an index key to an ascending list of index keys, once. */
  function InsertIndexKey(h: string, keys: seq<string>): seq<string>
  {
    if h in keys then keys
    else if keys == [] || ParseNat(h) <= ParseNat(keys[0]) then [h] + keys
    else [keys[0]] + InsertIndexKey(h, keys[1..])
  }

  /** The array-index headers, as the record lists them. */
  function IndexKeys(columns: seq<Column>): seq<string>
  {
    if columns == [] then []
    else
      var n := |columns| - 1;
      var earlier := IndexKeys(columns[..n]);
      if IsArrayIndex(columns[n].header) then InsertIndexKey(columns[n].header, earlier) else earlier
  }

  /** The other headers, `__proto__` aside, in first-assignment order: a repeated
      header keeps the slot of its first assignment. */
  function NamedKeys(columns: seq<Column>): seq<string>
  {
    if columns == [] then []
    else
      var n := |columns| - 1;
      var earlier := NamedKeys(columns[..n]);
      var h := columns[n].header;
      if h == ProtoKey || IsArrayIndex(h) || h in earlier then earlier else earlier + [h]
  }

  /** The record's keys in the order the object lists them. */
  function ExcelKeyOrder(columns: seq<Column>): seq<string>
  {
    IndexKeys(columns) + NamedKeys(columns)
  }

  ghost predicate Distinct(keys: seq<string>)
  {
    forall i, j | 0 <= i < j < |keys| :: keys[i] != keys[j]
  }

  ghost predicate AscendingIndices(keys: seq<string>)
  {
    forall i, j | 0 <= i < j < |keys| :: ParseNat(keys[i]) <= ParseNat(keys[j])
  }

  lemma {:induction false} InsertIndexKeyMembers(h: string, keys: seq<string>)
    ensures forall x :: x in InsertIndexKey(h, keys) <==> x == h || x in keys
  {
    if h !in keys && keys != [] && ParseNat(h) > ParseNat(keys[0]) {
      InsertIndexKeyMembers(h, keys[1..]);
      assert keys == [keys[0]] + keys[1..];
    }
  }

  lemma {:induction false} InsertIndexKeyFacts(h: string, keys: seq<string>)
    requires Distinct(keys) && AscendingIndices(keys)
    ensures forall x :: x in InsertIndexKey(h, keys) <==> x == h || x in keys
    ensures Distinct(InsertIndexKey(h, keys)) && AscendingIndices(InsertIndexKey(h, keys))
  {
    InsertIndexKeyMembers(h, keys);
    if h !in keys && keys != [] && ParseNat(h) > ParseNat(keys[0]) {
      var rest := keys[1..];
      assert Distinct(rest) && AscendingIndices(rest);
      InsertIndexKeyFacts(h, rest);
      var r := InsertIndexKey(h, rest);
      assert InsertIndexKey(h, keys) == [keys[0]] + r;
      forall x | x in r ensures ParseNat(keys[0]) <= ParseNat(x) && x != keys[0] {
        if x != h {
          var k :| 0 <= k < |rest| && rest[k] == x;
          assert keys[k + 1] == x;
        }
      }
      ConsKeepsOrder(keys[0], r);
    }
  }

  /** A key below and distinct from every key of an ordered list extends it. */
  lemma ConsKeepsOrder(k: string, r: seq<string>)
    requires Distinct(r) && AscendingIndices(r)
    requires forall x | x in r :: ParseNat(k) <= ParseNat(x) && x != k
    ensures Distinct([k] + r) && AscendingIndices([k] + r)
  {
    var s := [k] + r;
    assert forall j | 1 <= j < |s| :: s[j] == r[j - 1];
    forall i, j | 0 <= i < j < |s| ensures s[i] != s[j] {
      if i == 0 {
        assert r[j - 1] in r;
      }
    }
    forall i, j | 0 <= i < j < |s| ensures ParseNat(s[i]) <= ParseNat(s[j]) {
      if i == 0 {
        assert r[j - 1] in r;
      }
    }
  }

  /** The array-index keys are the array-index headers, each once, ascending. */
  lemma {:induction false} IndexKeysFacts(columns: seq<Column>)
    ensures forall h :: h in IndexKeys(columns) <==> h in Head(columns) && IsArrayIndex(h)
    ensures Distinct(IndexKeys(columns)) && AscendingIndices(IndexKeys(columns))
  {
    if columns != [] {
      var n := |columns| - 1;
      IndexKeysFacts(columns[..n]);
      HeadSnoc(columns);
      if IsArrayIndex(columns[n].header) {
        InsertIndexKeyFacts(columns[n].header, IndexKeys(columns[..n]));
      }
    }
  }

  /** The other keys are the remaining headers except `__proto__`, each once. */
  lemma {:induction false} NamedKeysFacts(columns: seq<Column>)
    ensures forall h :: h in NamedKeys(columns) <==> h in Head(columns) && h != ProtoKey && !IsArrayIndex(h)
    ensures Distinct(NamedKeys(columns))
  {
    if columns != [] {
      var n := |columns| - 1;
      NamedKeysFacts(columns[..n]);
      HeadSnoc(columns);
    }
  }

  /** The listed keys are exactly the record's keys, each listed once, array
      indices first and ascending. */
  lemma ExcelKeyOrderKeys(row: Row, columns: seq<Column>)
    ensures forall h :: h in ExcelKeyOrder(columns) <==> h in ExcelRecord(row, columns)
    ensures Distinct(ExcelKeyOrder(columns))
    ensures forall i | 0 <= i < |IndexKeys(columns)| :: IsArrayIndex(ExcelKeyOrder(columns)[i])
    ensures AscendingIndices(IndexKeys(columns))
  {
    ExcelRecordKeys(row, columns);
    IndexKeysFacts(columns);
    NamedKeysFacts(columns);
    var a, b := IndexKeys(columns), NamedKeys(columns);
    forall i, j | 0 <= i < j < |a + b| ensures (a + b)[i] != (a + b)[j] {
      if j >= |a| && i < |a| {
        assert (a + b)[i] in a && (a + b)[j] in b;
      }
    }
    forall i | 0 <= i < |a| ensures IsArrayIndex((a + b)[i]) {
      assert (a + b)[i] in a;
    }
  }

  lemma {:induction false} NoIndexKeys(columns: seq<Column>)
    requires NoIndexHeader(columns)
    ensures IndexKeys(columns) == []
  {
    if columns != [] {
      var n := |columns| - 1;
      assert NoIndexHeader(columns[..n]) by {
        forall j | 0 <= j < n ensures columns[..n][j] == columns[j] { }
      }
      NoIndexKeys(columns[..n]);
    }
  }

  lemma PrefixHeaderLaws(columns: seq<Column>, n: int)
    requires 0 <= n <= |columns|
    requires DistinctHeaders(columns) && NoProtoHeader(columns) && NoIndexHeader(columns)
    ensures DistinctHeaders(columns[..n]) && NoProtoHeader(columns[..n]) && NoIndexHeader(columns[..n])
  {
    forall j | 0 <= j < n ensures columns[..n][j] == columns[j] { }
  }

  lemma LastHeaderIsNew(columns: seq<Column>)
    requires columns != [] && DistinctHeaders(columns)
    ensures columns[|columns| - 1].header !in Head(columns[..|columns| - 1])
  {
    var n := |columns| - 1;
    forall j | 0 <= j < n ensures Head(columns[..n])[j] != columns[n].header {
      assert Head(columns[..n])[j] == columns[j].header;
    }
  }

  lemma {:induction false} NamedKeysInColumnOrder(columns: seq<Column>)
    requires DistinctHeaders(columns) && NoProtoHeader(columns) && NoIndexHeader(columns)
    ensures NamedKeys(columns) == Head(columns)
  {
    if columns != [] {
      var n := |columns| - 1;
      var prefix := columns[..n];
      var h := columns[n].header;
      PrefixHeaderLaws(columns, n);
      NamedKeysInColumnOrder(prefix);
      LastHeaderIsNew(columns);
      assert h != ProtoKey && !IsArrayIndex(h);
      NamedKeysSnoc(columns);
    }
  }

  /** A header new to the listed keys, neither `__proto__` nor an array index,
      is listed last. */
  lemma NamedKeysSnoc(columns: seq<Column>)
    requires columns != []
    requires var n := |columns| - 1; var h := columns[n].header;
      h != ProtoKey && !IsArrayIndex(h) && h !in Head(columns[..n]) && NamedKeys(columns[..n]) == Head(columns[..n])
    ensures NamedKeys(columns) == Head(columns)
  {
    var n := |columns| - 1;
    assert NamedKeys(columns) == NamedKeys(columns[..n]) + [columns[n].header];
    HeadSnoc(columns);
  }

  lemma HeadSnoc(columns: seq<Column>)
    requires columns != []
    ensures Head(columns) == Head(columns[..|columns| - 1]) + [columns[|columns| - 1].header]
  {
    var n := |columns| - 1;
    var a, b := Head(columns), Head(columns[..n]) + [columns[n].header];
    assert |a| == |b|;
    forall j | 0 <= j < |a| ensures a[j] == b[j] {
      if j < n {
        assert columns[..n][j] == columns[j];
      }
    }
  }

  /** With distinct headers, none of them `__proto__` or an array index, the
      record lists its keys in column order, which is the PDF's header row. */
  lemma ExcelKeyOrderIsHead(columns: seq<Column>)
    requires DistinctHeaders(columns) && NoProtoHeader(columns) && NoIndexHeader(columns)
    ensures ExcelKeyOrder(columns) == Head(columns)
  {
    NoIndexKeys(columns);
    NamedKeysInColumnOrder(columns);
  }

  /** A repeated header keeps the slot of its first column but the cell of its
      last. */
  lemma RepeatedHeaderKeepsFirstSlot(row: Row, h: string, g: string, k1: string, k2: string, k3: string)
    requires h != g && h != ProtoKey && g != ProtoKey && !IsArrayIndex(h) && !IsArrayIndex(g)
    ensures var columns := [Column(h, k1), Column(g, k2), Column(h, k3)];
      ExcelKeyOrder(columns) == [h, g] && ExcelRecord(row, columns)[h] == CellAt(row, k3)
  {
    var columns := [Column(h, k1), Column(g, k2), Column(h, k3)];
    var c1, c2 := [Column(h, k1)], [Column(h, k1), Column(g, k2)];
    assert columns[..2] == c2 && c2[..1] == c1 && c1[..0] == [];
    assert NamedKeys(c1[..0]) == [] && IndexKeys(c1[..0]) == [] && [] + [h] == [h];
    assert IndexKeys(c1) == [];
    assert NamedKeys(c1) == [h];
    assert IndexKeys(c2) == [] && NamedKeys(c2) == [h, g];
    assert IndexKeys(columns) == [] && NamedKeys(columns) == [h, g];
    assert ExcelRecord(row, columns) == ExcelRecord(row, c2)[h := CellAt(row, k3)];
  }

  /** A year used as a header moves ahead of a named header written before it. */
  lemma IndexHeaderListedFirst(name: string, year: nat, k1: string, k2: string)
    requires name != ProtoKey && !IsArrayIndex(name) && IsArrayIndex(NatToString(year))
    ensures ExcelKeyOrder([Column(name, k1), Column(NatToString(year), k2)]) == [NatToString(year), name]
  {
    var y := NatToString(year);
    var columns := [Column(name, k1), Column(y, k2)];
    var c1 := [Column(name, k1)];
    assert columns[..1] == c1 && c1[..0] == [];
    assert NamedKeys(c1[..0]) == [] && [] + [name] == [name];
    assert IndexKeys(c1) == [] && NamedKeys(c1) == [name];
    assert IndexKeys(columns) == InsertIndexKey(y, []) == [y];
    assert NamedKeys(columns) == [name];
  }

  // ---------------------------------------------------------------------------
  // HTML escaping, as written: five global single-character replacements, `&` first.

  /** `value.replace(/c/g, rep)` for a one-character pattern. */
  function ReplaceChar(s: string, c: char, rep: string): string
  {
    if s == [] then [] else (if s[0] == c then rep else [s[0]]) + ReplaceChar(s[1..], c, rep)
  }

  function EscapeHtml(s: string): string
  {
    var amp := ReplaceChar(s, '&', "&amp;");
    var lt := ReplaceChar(amp, '<', "&lt;");
    var gt := ReplaceChar(lt, '>', "&gt;");
    var quot := ReplaceChar(gt, '"', "&quot;");
    ReplaceChar(quot, '\'', "&#039;")
  }

  /** Reference definition: each character escaped on its own. */
  function EscapeChar(c: char): string
  {
    if c == '&' then "&amp;"
    else if c == '<' then "&lt;"
    else if c == '>' then "&gt;"
    else if c == '"' then "&quot;"
    else if c == '\'' then "&#039;"
    else [c]
  }

  function EscapeEach(s: string): string
  {
    if s == [] then [] else EscapeChar(s[0]) + EscapeEach(s[1..])
  }

  lemma {:induction false} ReplaceAppend(a: string, b: string, c: char, rep: string)
    ensures ReplaceChar(a + b, c, rep) == ReplaceChar(a, c, rep) + ReplaceChar(b, c, rep)
  {
    if a == [] {
      assert a + b == b;
    } else {
      assert (a + b)[1..] == a[1..] + b;
      ReplaceAppend(a[1..], b, c, rep);
    }
  }

  lemma ReplaceSingle(x: char, c: char, rep: string)
    ensures ReplaceChar([x], c, rep) == if x == c then rep else [x]
  {
    assert [x][1..] == [];
  }

  /** The replacement chain escapes a one-character string as `EscapeChar` does. */
  lemma EscapeOneChar(x: char)
    ensures EscapeHtml([x]) == EscapeChar(x)
  {
    if x == '&' {
      EscapeAmpersand(x, EscapeChar(x));
    } else if IsMarkupChar(x) {
      EscapeMarkupChar(x, EscapeChar(x));
    } else {
      EscapeOrdinaryChar(x);
    }
  }

  lemma EscapeAmpersand(x: char, e: string)
    requires x == '&' && e == "&amp;"
    ensures EscapeHtml([x]) == e
  {
    ReplaceSingle(x, '&', e);
    assert '<' !in e && '>' !in e && '"' !in e && '\'' !in e;
    ReplaceAbsent(e, '<', "&lt;");
    ReplaceAbsent(e, '>', "&gt;");
    ReplaceAbsent(e, '"', "&quot;");
    ReplaceAbsent(e, '\'', "&#039;");
  }

  lemma EscapeMarkupChar(x: char, e: string)
    requires IsMarkupChar(x) && e == EscapeChar(x)
    ensures EscapeHtml([x]) == e
  {
    ReplaceSingle(x, '&', "&amp;");
    ReplaceSingle(x, '<', "&lt;");
    if x == '<' {
      assert '>' !in e && '"' !in e && '\'' !in e;
      ReplaceAbsent(e, '>', "&gt;");
      ReplaceAbsent(e, '"', "&quot;");
      ReplaceAbsent(e, '\'', "&#039;");
    } else {
      ReplaceSingle(x, '>', "&gt;");
      if x == '>' {
        assert '"' !in e && '\'' !in e;
        ReplaceAbsent(e, '"', "&quot;");
        ReplaceAbsent(e, '\'', "&#039;");
      } else {
        ReplaceSingle(x, '"', "&quot;");
        if x == '"' {
          assert '\'' !in e;
          ReplaceAbsent(e, '\'', "&#039;");
        } else {
          ReplaceSingle(x, '\'', "&#039;");
        }
      }
    }
  }

  lemma EscapeOrdinaryChar(x: char)
    requires x != '&' && !IsMarkupChar(x)
    ensures EscapeHtml([x]) == [x]
  {
    ReplaceSingle(x, '&', "&amp;");
    ReplaceSingle(x, '<', "&lt;");
    ReplaceSingle(x, '>', "&gt;");
    ReplaceSingle(x, '"', "&quot;");
    ReplaceSingle(x, '\'', "&#039;");
  }

  lemma {:induction false} ReplaceAbsent(s: string, c: char, rep: string)
    requires c !in s
    ensures ReplaceChar(s, c, rep) == s
  {
    if s != [] {
      assert s == [s[0]] + s[1..];
      ReplaceAbsent(s[1..], c, rep);
    }
  }

  lemma EscapeAppend(a: string, b: string)
    ensures EscapeHtml(a + b) == EscapeHtml(a) + EscapeHtml(b)
  {
    var amp := ReplaceChar(a + b, '&', "&amp;");
    ReplaceAppend(a, b, '&', "&amp;");
    var a1, b1 := ReplaceChar(a, '&', "&amp;"), ReplaceChar(b, '&', "&amp;");
    ReplaceAppend(a1, b1, '<', "&lt;");
    var a2, b2 := ReplaceChar(a1, '<', "&lt;"), ReplaceChar(b1, '<', "&lt;");
    ReplaceAppend(a2, b2, '>', "&gt;");
    var a3, b3 := ReplaceChar(a2, '>', "&gt;"), ReplaceChar(b2, '>', "&gt;");
    ReplaceAppend(a3, b3, '"', "&quot;");
    var a4, b4 := ReplaceChar(a3, '"', "&quot;"), ReplaceChar(b3, '"', "&quot;");
    ReplaceAppend(a4, b4, '\'', "&#039;");
  }

  /** Because `&` is replaced first, no entity is escaped twice and the chain
      is exactly the character-by-character escape. */
  lemma {:induction false} EscapeHtmlIsPerChar(s: string)
    ensures EscapeHtml(s) == EscapeEach(s)
  {
    if s != [] {
      assert s == [s[0]] + s[1..];
      EscapeAppend([s[0]], s[1..]);
      EscapeOneChar(s[0]);
      EscapeHtmlIsPerChar(s[1..]);
    }
  }

  predicate IsMarkupChar(c: char)
  {
    c == '<' || c == '>' || c == '"' || c == '\''
  }

  lemma {:induction false} EscapeEachHasNoMarkup(s: string)
    ensures forall i | 0 <= i < |EscapeEach(s)| :: !IsMarkupChar(EscapeEach(s)[i])
  {
    if s != [] {
      EscapeEachHasNoMarkup(s[1..]);
      var head, tail := EscapeChar(s[0]), EscapeEach(s[1..]);
      assert forall i | 0 <= i < |head| :: !IsMarkupChar(head[i]);
      assert EscapeEach(s) == head + tail;
    }
  }

  /** Escaped text has no raw `<`, `>`, `"` or `'`. */
  lemma EscapeHtmlHasNoMarkup(s: string)
    ensures forall i | 0 <= i < |EscapeHtml(s)| :: !IsMarkupChar(EscapeHtml(s)[i])
  {
    EscapeHtmlIsPerChar(s);
    EscapeEachHasNoMarkup(s);
  }

  /** Text without `& < > " '` is left as it is. */
  lemma {:induction false} EscapePlainText(s: string)
    requires forall i | 0 <= i < |s| :: s[i] != '&' && !IsMarkupChar(s[i])
    ensures EscapeHtml(s) == s
  {
    EscapeHtmlIsPerChar(s);
    PlainEachUnchanged(s);
  }

  lemma {:induction false} PlainEachUnchanged(s: string)
    requires forall i | 0 <= i < |s| :: s[i] != '&' && !IsMarkupChar(s[i])
    ensures EscapeEach(s) == s
  {
    if s != [] {
      PlainEachUnchanged(s[1..]);
      assert s == [s[0]] + s[1..];
    }
  }

  /** A tag around plain text keeps the text and escapes only the brackets. */
  lemma TagEscaped(word: string)
    requires forall i | 0 <= i < |word| :: word[i] != '&' && !IsMarkupChar(word[i])
    ensures EscapeHtml("<" + word + ">") == "&lt;" + word + "&gt;"
  {
    EscapeAppend("<" + word, ">");
    EscapeAppend("<", word);
    EscapeOneChar('<');
    EscapeOneChar('>');
    EscapePlainText(word);
  }

  // Reading escaped text back.

  predicate StartsWith(s: string, p: string)
  {
    |p| <= |s| && s[..|p|] == p
  }

  /** Decodes the five entities `EscapeHtml` writes; any other text is copied. */
  function Unescape(s: string): string
    decreases |s|
  {
    if s == [] then []
    else if StartsWith(s, "&amp;") then "&" + Unescape(s[5..])
    else if StartsWith(s, "&lt;") then "<" + Unescape(s[4..])
    else if StartsWith(s, "&gt;") then ">" + Unescape(s[4..])
    else if StartsWith(s, "&quot;") then "\"" + Unescape(s[6..])
    else if StartsWith(s, "&#039;") then "'" + Unescape(s[6..])
    else [s[0]] + Unescape(s[1..])
  }

  /** Decoding undoes the escape of one leading character. */
  lemma UnescapeStep(c: char, rest: string)
    ensures Unescape(EscapeChar(c) + rest) == [c] + Unescape(rest)
  {
    var e := EscapeChar(c) + rest;
    if c == '&' {
      assert e[..5] == "&amp;" && e[5..] == rest;
    } else if c == '<' {
      assert e[..4] == "&lt;" && e[4..] == rest;
      assert !StartsWith(e, "&amp;") by { assert |e| >= 5 ==> e[..5][1] == 'l'; }
    } else if c == '>' {
      assert e[..4] == "&gt;" && e[4..] == rest;
      assert !StartsWith(e, "&amp;") by { assert |e| >= 5 ==> e[..5][1] == 'g'; }
      assert !StartsWith(e, "&lt;") by { assert e[..4][1] == 'g'; }
    } else if c == '"' {
      assert e[..6] == "&quot;" && e[6..] == rest;
      assert !StartsWith(e, "&amp;") by { assert e[..5][1] == 'q'; }
      assert !StartsWith(e, "&lt;") by { assert e[..4][1] == 'q'; }
      assert !StartsWith(e, "&gt;") by { assert e[..4][1] == 'q'; }
    } else if c == '\'' {
      assert e[..6] == "&#039;" && e[6..] == rest;
      assert !StartsWith(e, "&amp;") by { assert e[..5][1] == '#'; }
      assert !StartsWith(e, "&lt;") by { assert e[..4][1] == '#'; }
      assert !StartsWith(e, "&gt;") by { assert e[..4][1] == '#'; }
      assert !StartsWith(e, "&quot;") by { assert e[..6][1] == '#'; }
    } else {
      assert e[0] == c && e[1..] == rest;
      assert !StartsWith(e, "&amp;") by { assert |e| >= 5 ==> e[..5][0] == c; }
      assert !StartsWith(e, "&lt;") by { assert |e| >= 4 ==> e[..4][0] == c; }
      assert !StartsWith(e, "&gt;") by { assert |e| >= 4 ==> e[..4][0] == c; }
      assert !StartsWith(e, "&quot;") by { assert |e| >= 6 ==> e[..6][0] == c; }
      assert !StartsWith(e, "&#039;") by { assert |e| >= 6 ==> e[..6][0] == c; }
    }
  }

  lemma {:induction false} UnescapeEscapeEach(s: string)
    ensures Unescape(EscapeEach(s)) == s
  {
    if s != [] {
      UnescapeStep(s[0], EscapeEach(s[1..]));
      UnescapeEscapeEach(s[1..]);
      assert s == [s[0]] + s[1..];
    }
  }

  /** Escaping loses nothing: the original text can always be recovered. */
  lemma UnescapeEscape(s: string)
    ensures Unescape(EscapeHtml(s)) == s
  {
    EscapeHtmlIsPerChar(s);
    UnescapeEscapeEach(s);
  }

  // ---------------------------------------------------------------------------
  // Printable page

  /** `String(cellValue(...))`. */
  function CellText(c: Cell): string
  {
    match c
    case CellBool(b) => if b then "true" else "false"
    case CellNum(n) => IntToString(n)
    case CellStr(s) => s
  }

  /** Header cells are written as given, without escaping. */
  function HeadHtml(columns: seq<Column>): string
  {
    if columns == [] then [] else "<th>" + columns[0].header + "</th>" + HeadHtml(columns[1..])
  }

  function CellsHtml(cells: seq<Cell>): string
  {
    if cells == [] then [] else "<td>" + EscapeHtml(CellText(cells[0])) + "</td>" + CellsHtml(cells[1..])
  }

  /** Renders an already projected body, one `<tr>` per row. */
  function RowsHtml(body: seq<seq<Cell>>): string
  {
    if body == [] then [] else "<tr>" + CellsHtml(body[0]) + "</tr>" + RowsHtml(body[1..])
  }

  /** The body as the page builds it, straight from the records. */
  function BodyHtml(rows: seq<Row>, columns: seq<Column>): string
  {
    if rows == [] then [] else "<tr>" + CellsHtml(RowCells(rows[0], columns)) + "</tr>" + BodyHtml(rows[1..], columns)
  }

  /** The four values the page template interpolates: the escaped title (twice),
      the header cells and the body rows. */
  datatype PrintPage = PrintPage(documentTitle: string, heading: string, tableHead: string, tableBody: string)

  function PrintTable(title: string, rows: seq<Row>, columns: seq<Column>): (p: PrintPage)
    ensures p.documentTitle == p.heading == EscapeHtml(title)
    ensures p.heading == EscapeEach(title)
    ensures Unescape(p.heading) == title
    ensures forall i | 0 <= i < |p.heading| :: !IsMarkupChar(p.heading[i])
    ensures p.tableHead == HeadHtml(columns)
    ensures p.tableBody == RowsHtml(Body(rows, columns))
  {
    UnescapeEscape(title);
    EscapeHtmlHasNoMarkup(title);
    EscapeHtmlIsPerChar(title);
    PrintBodyUsesProjection(rows, columns);
    PrintPage(EscapeHtml(title), EscapeHtml(title), HeadHtml(columns), BodyHtml(rows, columns))
  }

  /** The printed body renders the same cells as the spreadsheet and the PDF. */
  lemma {:induction false} PrintBodyUsesProjection(rows: seq<Row>, columns: seq<Column>)
    ensures BodyHtml(rows, columns) == RowsHtml(Body(rows, columns))
  {
    if rows != [] {
      PrintBodyUsesProjection(rows[1..], columns);
      assert Body(rows, columns)[1..] == Body(rows[1..], columns);
    }
  }

  /** Unlike the cells and the title, a header reaches the page unescaped. */
  lemma HeaderNotEscaped(header: string, key: string)
    ensures HeadHtml([Column(header, key)]) == "<th>" + header + "</th>"
  {
    assert [Column(header, key)][1..] == [];
  }

  lemma {:induction false} HeadHtmlAppend(a: seq<Column>, b: seq<Column>)
    ensures HeadHtml(a + b) == HeadHtml(a) + HeadHtml(b)
  {
    if a == [] {
      assert a + b == b;
    } else {
      assert (a + b)[0] == a[0] && (a + b)[1..] == a[1..] + b;
      HeadHtmlAppend(a[1..], b);
    }
  }

  /** The head is every header, in column order, each verbatim between `<th>`
      tags: a header is never escaped, whatever the column list. */
  lemma {:induction false} HeadersVerbatim(columns: seq<Column>, j: int)
    requires 0 <= j < |columns|
    ensures HeadHtml(columns) ==
      HeadHtml(columns[..j]) + "<th>" + columns[j].header + "</th>" + HeadHtml(columns[j + 1..])
  {
    assert columns == columns[..j] + columns[j..];
    HeadHtmlAppend(columns[..j], columns[j..]);
    assert columns[j..][1..] == columns[j + 1..];
  }

  /** A one-row, one-column table prints that row's escaped cell text. */
  lemma SingleCellBody(row: Row, c: Column)
    ensures BodyHtml([row], [c]) == "<tr>" + "<td>" + EscapeHtml(CellText(CellAt(row, c.key))) + "</td>" + "</tr>"
  {
    assert [c][1..] == [];
    assert [row][1..] == [];
    var cells := RowCells(row, [c]);
    assert cells == [CellAt(row, c.key)];
    assert cells[1..] == [];
    assert CellsHtml(cells) == "<td>" + EscapeHtml(CellText(cells[0])) + "</td>" + [];
    assert BodyHtml([row], [c]) == "<tr>" + CellsHtml(cells) + "</tr>" + [];
  }

  /** A field holding a tag such as `<script>` prints with its brackets as
      entities, so the page shows the text instead of running it. */
  lemma TagFieldPrintsEscaped(title: string, key: string, header: string, word: string)
    requires forall i | 0 <= i < |word| :: word[i] != '&' && !IsMarkupChar(word[i])
    ensures PrintTable(title, [map[key := Str("<" + word + ">")]], [Column(header, key)]).tableBody
         == "<tr>" + "<td>" + "&lt;" + word + "&gt;" + "</td>" + "</tr>"
  {
    var tag := "<" + word + ">";
    var row: Row := map[key := Str(tag)];
    var c := Column(header, key);
    assert PrintTable(title, [row], [c]).tableBody == BodyHtml([row], [c]);
    SingleCellBody(row, c);
    assert CellText(CellAt(row, key)) == tag;
    TagEscaped(word);
  }

}
