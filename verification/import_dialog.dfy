/**
 * The spreadsheet import dialog (src/components/transactions/import-transactions-dialog.tsx):
 * a parsed sheet becomes one record per data row keyed by the header row, the user maps
 * the transaction fields to headers, and the import normalises every row, keeps the
 * acceptable ones and hands them to the store in one bulk write.
 */
module ImportDialog {
  import opened Wrappers
  import opened Strings
  import opened Dates
  import opened Seqs
  import opened Types
  import TransactionsContext
  import TransactionsPage

  /** A cell of the grid the spreadsheet reader returns; `Missing` is an absent cell (`undefined`). */
  datatype Cell = Missing | Text(text: string) | Number(number: real) | Moment(stamp: Stamp)

  /**
   * The JavaScript conversions applied to cells: `String(v)`, `new Date(v)` (`None` when
   * `toISOString` would throw on an invalid date) and `parseFloat(v)` (`None` for NaN).
   */
  datatype CellReader = CellReader(text: Cell -> string, date: Cell -> Option<Stamp>, number: Cell -> Option<real>)

  /** What is known of those conversions and is used below. */
  ghost predicate ReaderLaws(r: CellReader)
  {
    && r.text(Missing) == "undefined"
    && r.date(Missing) == None
    && r.number(Missing) == None
    && (forall s :: r.text(Text(s)) == s)
    && (forall n :: r.number(Number(n)) == Some(n))
    && (forall s :: s != "" && AllDigits(s) ==> r.number(Text(s)) == Some(DigitsValue(s) as real))
    && (forall m :: r.date(Moment(m)) == Some(m))
  }

  /** The logical fields of a transaction that can be mapped to a column. */
  datatype Field = DateField | DescriptionField | AmountField | TypeField | CategoryField | CommentsField

  /** `REQUIRED_FIELDS`, in their declared order. */
  const RequiredFields: seq<Field> := [DateField, DescriptionField, AmountField, TypeField, CategoryField]

  /** `mapping`: a partial map from field to chosen header. */
  type Mapping = map<Field, string>

  /** `mapping[field]` is truthy: present and not the empty string. */
  predicate Mapped(mapping: Mapping, f: Field)
  {
    f in mapping && mapping[f] != ""
  }

  /** `REQUIRED_FIELDS.filter(field => !mapping[field])`. */
  function MissingFields(mapping: Mapping): seq<Field>
  {
    Filter(RequiredFields, (f: Field) => !Mapped(mapping, f))
  }

  /**
   * The missing fields are exactly the unmapped required ones, in `REQUIRED_FIELDS` order;
   * `comments` is never among them.
   */
  lemma MissingFieldsExact(mapping: Mapping)
    ensures forall f :: f in MissingFields(mapping) <==> f != CommentsField && !Mapped(mapping, f)
    ensures forall i, j :: 0 <= i < j < |MissingFields(mapping)| ==>
      IndexOfField(MissingFields(mapping)[i]) < IndexOfField(MissingFields(mapping)[j])
  {
    var missing := MissingFields(mapping);
    var p := (f: Field) => !Mapped(mapping, f);
    assert RequiredFields == [DateField, DescriptionField, AmountField, TypeField, CategoryField];
    FilterKeepsOrder(RequiredFields, p);
  }

  /** The position of a field in the form's declaration order. */
  function IndexOfField(f: Field): nat
  {
    match f
    case DateField => 0
    case DescriptionField => 1
    case AmountField => 2
    case TypeField => 3
    case CategoryField => 4
    case CommentsField => 5
  }

  /** Filtering a list ordered by `IndexOfField` leaves it ordered. */
  lemma {:induction false} FilterKeepsOrder(s: seq<Field>, p: Field -> bool)
    requires forall i, j :: 0 <= i < j < |s| ==> IndexOfField(s[i]) < IndexOfField(s[j])
    ensures forall i, j :: 0 <= i < j < |Filter(s, p)| ==> IndexOfField(Filter(s, p)[i]) < IndexOfField(Filter(s, p)[j])
  {
    if s != [] {
      var s' := s[..|s| - 1];
      FilterKeepsOrder(s', p);
      var r' := Filter(s', p);
      forall k | 0 <= k < |r'| ensures IndexOfField(r'[k]) < IndexOfField(s[|s| - 1]) {
        assert r'[k] in s';
      }
    }
  }

  /** Every required field is mapped. */
  predicate AllRequiredMapped(mapping: Mapping)
  {
    && Mapped(mapping, DateField) && Mapped(mapping, DescriptionField) && Mapped(mapping, AmountField)
    && Mapped(mapping, TypeField) && Mapped(mapping, CategoryField)
  }

  lemma NoMissingFieldsIff(mapping: Mapping)
    ensures MissingFields(mapping) == [] <==> AllRequiredMapped(mapping)
  {
    var missing := MissingFields(mapping);
    if missing != [] {
      assert missing[0] in missing;
    }
    if !AllRequiredMapped(mapping) {
      assert exists f :: f in RequiredFields && !Mapped(mapping, f) by {
        assert RequiredFields == [DateField, DescriptionField, AmountField, TypeField, CategoryField];
      }
    }
  }

  // ---------------------------------------------------------------- parsing the sheet

  /** A data row keyed by header text. */
  type Row = map<string, Cell>

  /** `row[index]`: past the end of a short row the cell is absent. */
  function CellAt(cells: seq<Cell>, i: nat): Cell
  {
    if i < |cells| then cells[i] else Missing
  }

  /** `fileHeaders.forEach((header, index) => rowData[header] = row[index])`; a repeated header keeps its last cell. */
  function RowRecord(headers: seq<string>, cells: seq<Cell>): Row
  {
    if headers == [] then map[]
    else
      var n := |headers| - 1;
      RowRecord(headers[..n], cells)[headers[n] := CellAt(cells, n)]
  }

  /** The record has a property per header, and with distinct headers each holds the cell in that header's column. */
  lemma {:induction false} RowRecordZips(headers: seq<string>, cells: seq<Cell>)
    ensures forall h :: h in RowRecord(headers, cells) <==> h in headers
    ensures Distinct(headers) ==>
      forall i :: 0 <= i < |headers| ==> RowRecord(headers, cells)[headers[i]] == CellAt(cells, i)
  {
    if headers != [] {
      var n := |headers| - 1;
      RowRecordZips(headers[..n], cells);
      assert headers == headers[..n] + [headers[n]];
      if Distinct(headers) {
        assert Distinct(headers[..n]);
        forall i | 0 <= i < n ensures headers[i] != headers[n] {
        }
      }
    }
  }

  /** A header cell that is there; a hole in a sparse header row is `Missing`. */
  predicate IsHeader(c: Cell)
  {
    !c.Missing?
  }

  /** The header names the mapping step offers: `headers.map` visits only the cells that are there. */
  function HeaderNames(headerCells: seq<Cell>, text: Cell -> string): seq<string>
  {
    Map(Filter(headerCells, IsHeader), text)
  }

  /**
   * The record built from one sheet row under the sheet's header row. `forEach` skips the
   * holes of the header row, so their columns get no property; every other header, as a
   * property name, holds the cell in its column.
   */
  function SheetRecord(headerCells: seq<Cell>, cells: seq<Cell>, text: Cell -> string): Row
  {
    if headerCells == [] then map[]
    else
      var n := |headerCells| - 1;
      var earlier := SheetRecord(headerCells[..n], cells, text);
      if IsHeader(headerCells[n]) then earlier[text(headerCells[n]) := CellAt(cells, n)] else earlier
  }

  /** A record has a property for exactly the header names offered, and none for a hole. */
  lemma {:induction false} SheetRecordKeys(headerCells: seq<Cell>, cells: seq<Cell>, text: Cell -> string)
    ensures forall h :: h in SheetRecord(headerCells, cells, text) <==> h in HeaderNames(headerCells, text)
  {
    if headerCells != [] {
      var n := |headerCells| - 1;
      SheetRecordKeys(headerCells[..n], cells, text);
      var last := if IsHeader(headerCells[n]) then [headerCells[n]] else [];
      assert Filter(headerCells, IsHeader) == Filter(headerCells[..n], IsHeader) + last;
      MapAppend(Filter(headerCells[..n], IsHeader), last, text);
    }
  }

  /** Without holes, the header row's names zip with the row's cells column by column. */
  lemma {:induction false} SheetRecordWithoutHoles(headerCells: seq<Cell>, cells: seq<Cell>, text: Cell -> string)
    requires forall i :: 0 <= i < |headerCells| ==> IsHeader(headerCells[i])
    ensures SheetRecord(headerCells, cells, text) == RowRecord(Map(headerCells, text), cells)
  {
    if headerCells != [] {
      var n := |headerCells| - 1;
      SheetRecordWithoutHoles(headerCells[..n], cells, text);
      assert Map(headerCells, text)[..n] == Map(headerCells[..n], text);
    }
  }

  /** The cell a row holds under a header; a header the row lacks reads as absent. */
  function Lookup(row: Row, header: string): Cell
  {
    if header in row then row[header] else Missing
  }

  // ---------------------------------------------------------------- normalising rows

  /** `typeValue === 'ingreso' || typeValue === 'income' ? 'income' : 'expense'` after lower-casing. */
  function NormaliseKind(s: string): Kind
  {
    var lower := ToLower(s);
    if lower == "ingreso" || lower == "income" then Income else Expense
  }

  /**
   * One iteration of the `forEach` in `handleImport`: `None` when the date is invalid
   * (the thrown error skips the row) or when the description is empty, the amount is
   * NaN or the category is not a known category; otherwise the draft.
   */
  function NormaliseRow(row: Row, mapping: Mapping, reader: CellReader): Option<Draft>
    requires AllRequiredMapped(mapping)
  {
    var date := reader.date(Lookup(row, mapping[DateField]));
    var description := reader.text(Lookup(row, mapping[DescriptionField]));
    var amount := reader.number(Lookup(row, mapping[AmountField]));
    var kind := NormaliseKind(reader.text(Lookup(row, mapping[TypeField])));
    var category := reader.text(Lookup(row, mapping[CategoryField]));
    var comments := if Mapped(mapping, CommentsField)
      then Some(reader.text(Lookup(row, mapping[CommentsField]))) else None;
    if date.None? then None
    else if description != "" && amount.Some? && category in Categories then
      Some(Draft(kind, amount.value, date.value, category, description, comments))
    else None
  }

  /** `newTransactions` after the `forEach`: the drafts of the kept rows, in row order. */
  function ImportRows(rows: seq<Row>, mapping: Mapping, reader: CellReader): seq<Draft>
    requires AllRequiredMapped(mapping)
  {
    if rows == [] then []
    else
      var n := |rows| - 1;
      ImportRows(rows[..n], mapping, reader)
        + (match NormaliseRow(rows[n], mapping, reader) case Some(d) => [d] case None => [])
  }

  /** A row is kept exactly when its date parses, its description is non-empty, its amount is a number and its category is known. */
  lemma RowKeptIff(row: Row, mapping: Mapping, reader: CellReader)
    requires AllRequiredMapped(mapping)
    ensures NormaliseRow(row, mapping, reader).Some? <==>
      && reader.date(Lookup(row, mapping[DateField])).Some?
      && reader.text(Lookup(row, mapping[DescriptionField])) != ""
      && reader.number(Lookup(row, mapping[AmountField])).Some?
      && reader.text(Lookup(row, mapping[CategoryField])) in Categories
    ensures NormaliseRow(row, mapping, reader).Some? ==>
      var d := NormaliseRow(row, mapping, reader).value;
      && d.kind == NormaliseKind(reader.text(Lookup(row, mapping[TypeField])))
      && Some(d.amount) == reader.number(Lookup(row, mapping[AmountField]))
      && d.category in Categories && d.description != ""
  {
  }

  /** The type cell decides the kind but never whether the row is kept. */
  lemma TypeNeverRejects(row: Row, mapping: Mapping, reader: CellReader, c: Cell)
    requires AllRequiredMapped(mapping)
    requires mapping[TypeField] != mapping[DateField] && mapping[TypeField] != mapping[DescriptionField]
    requires mapping[TypeField] != mapping[AmountField] && mapping[TypeField] != mapping[CategoryField]
    ensures NormaliseRow(row[mapping[TypeField] := c], mapping, reader).Some?
        == NormaliseRow(row, mapping, reader).Some?
  {
  }

  /** The only recognised spellings of income, in any letter case; everything else is an expense. */
  lemma KindNormalisation()
    ensures NormaliseKind("Ingreso") == Income && NormaliseKind("INCOME") == Income
    ensures NormaliseKind("Gasto") == Expense && NormaliseKind("") == Expense
    ensures NormaliseKind("undefined") == Expense
  {
    assert ToLower("Ingreso") == "ingreso";
    assert ToLower("INCOME") == "income";
    assert ToLower("Gasto") == "gasto";
  }

  /** Rows are processed one by one: a skipped row never affects the others, and order is kept. */
  lemma {:induction false} ImportRowsAppend(a: seq<Row>, b: seq<Row>, mapping: Mapping, reader: CellReader)
    requires AllRequiredMapped(mapping)
    ensures ImportRows(a + b, mapping, reader) == ImportRows(a, mapping, reader) + ImportRows(b, mapping, reader)
  {
    if b == [] {
      assert a + b == a;
    } else {
      var n := |b| - 1;
      assert (a + b)[..|a + b| - 1] == a + b[..n];
      ImportRowsAppend(a, b[..n], mapping, reader);
    }
  }

  /** The kept drafts are exactly the normalised kept rows, never more drafts than rows. */
  lemma {:induction false} ImportRowsKept(rows: seq<Row>, mapping: Mapping, reader: CellReader)
    requires AllRequiredMapped(mapping)
    ensures |ImportRows(rows, mapping, reader)| <= |rows|
    ensures forall d :: d in ImportRows(rows, mapping, reader) <==>
      exists row :: row in rows && NormaliseRow(row, mapping, reader) == Some(d)
  {
    if rows != [] {
      var n := |rows| - 1;
      ImportRowsKept(rows[..n], mapping, reader);
      assert rows == rows[..n] + [rows[n]];
      forall d ensures d in ImportRows(rows, mapping, reader) <==>
        exists row :: row in rows && NormaliseRow(row, mapping, reader) == Some(d)
      {
        if exists row :: row in rows && NormaliseRow(row, mapping, reader) == Some(d) {
          var row :| row in rows && NormaliseRow(row, mapping, reader) == Some(d);
          if row != rows[n] {
            assert row in rows[..n];
          }
        }
      }
    }
  }

  /** A mapping onto single-letter headers, with no comments column. */
  const LetterMapping: Mapping :=
    map[DateField := "F", DescriptionField := "D", AmountField := "M", TypeField := "T", CategoryField := "C"]

  /** A row typed "gasto" with a negative amount and the income category "Sueldo". */
  function LenientRow(when: Stamp): Row
  {
    map["F" := Moment(when), "D" := Text("Pago"), "M" := Number(-5.0), "T" := Text("gasto"), "C" := Text("Sueldo")]
  }

  /** What the letter mapping reads out of the lenient row. */
  lemma LenientRowCells(when: Stamp)
    ensures AllRequiredMapped(LetterMapping) && !Mapped(LetterMapping, CommentsField)
    ensures Lookup(LenientRow(when), LetterMapping[DateField]) == Moment(when)
    ensures Lookup(LenientRow(when), LetterMapping[DescriptionField]) == Text("Pago")
    ensures Lookup(LenientRow(when), LetterMapping[AmountField]) == Number(-5.0)
    ensures Lookup(LenientRow(when), LetterMapping[TypeField]) == Text("gasto")
    ensures Lookup(LenientRow(when), LetterMapping[CategoryField]) == Text("Sueldo")
  {
  }

  /**
   * The acceptance test checks neither the amount's sign nor the category's kind: the
   * lenient row is kept as an expense of -5 in the income category "Sueldo".
   */
  lemma LenientRowIsKept(reader: CellReader, when: Stamp)
    requires ReaderLaws(reader)
    ensures AllRequiredMapped(LetterMapping)
    ensures NormaliseRow(LenientRow(when), LetterMapping, reader) == Some(Draft(Expense, -5.0, when, "Sueldo", "Pago", None))
  {
    LenientRowCells(when);
    assert NormaliseKind("gasto") == Expense by { assert ToLower("gasto") == "gasto"; }
    assert "Sueldo" in Categories;
  }

  /** The identity mapping onto the headers the export writes. */
  const ExportMapping: Mapping := map[
    DateField := "Fecha", DescriptionField := "Descripción", AmountField := "Monto",
    TypeField := "Tipo", CategoryField := "Categoría"]

  lemma ReadsThreeFifty(reader: CellReader)
    requires ReaderLaws(reader)
    ensures reader.number(Text("350")) == Some(350.0)
  {
    assert AllDigits("350") && DigitsValue("350") == 350 by {
      assert DigitsValue("3") == 3;
      assert DigitsValue("35") == 35;
    }
  }

  /** The complete expense row of the worked import: a dinner of 350 on `when`. */
  function SampleRow(when: Stamp): Row
  {
    map["Fecha" := Moment(when), "Descripción" := Text("Cena"), "Monto" := Text("350"),
        "Tipo" := Text("Gasto"), "Categoría" := Text("Alimentacion")]
  }

  /** The row of empty cells (and an amount that is not a number) of the worked import. */
  const BlankRow: Row := map["Fecha" := Text(""), "Descripción" := Text(""), "Monto" := Text("abc"),
                              "Tipo" := Text(""), "Categoría" := Text("")]

  /** What the export mapping reads out of the sample row. */
  lemma SampleRowCells(when: Stamp)
    ensures Lookup(SampleRow(when), ExportMapping[DateField]) == Moment(when)
    ensures Lookup(SampleRow(when), ExportMapping[DescriptionField]) == Text("Cena")
    ensures Lookup(SampleRow(when), ExportMapping[AmountField]) == Text("350")
    ensures Lookup(SampleRow(when), ExportMapping[TypeField]) == Text("Gasto")
    ensures Lookup(SampleRow(when), ExportMapping[CategoryField]) == Text("Alimentacion")
    ensures !Mapped(ExportMapping, CommentsField)
  {
  }

  /** A complete expense row of the worked import is kept as an expense of 350 in "Alimentacion". */
  lemma ScenarioCompleteRowKept(reader: CellReader, when: Stamp)
    requires ReaderLaws(reader)
    ensures AllRequiredMapped(ExportMapping)
    ensures NormaliseRow(SampleRow(when), ExportMapping, reader)
      == Some(Draft(Expense, 350.0, when, "Alimentacion", "Cena", None))
  {
    SampleRowCells(when);
    KindNormalisation();
    ReadsThreeFifty(reader);
    assert "Alimentacion" in Categories;
  }

  /** A row whose description cell is empty text is skipped, whatever its other cells hold. */
  lemma ScenarioEmptyDescriptionSkipped(row: Row, reader: CellReader)
    requires ReaderLaws(reader)
    requires "Descripción" in row && row["Descripción"] == Text("")
    ensures AllRequiredMapped(ExportMapping)
    ensures NormaliseRow(row, ExportMapping, reader) == None
  {
    assert Lookup(row, ExportMapping[DescriptionField]) == Text("");
  }

  /**
   * The worked import: a complete expense row followed by a row of empty cells give
   * exactly one draft; the empty row is skipped.
   */
  lemma ScenarioOneKeptOneSkipped(reader: CellReader, when: Stamp)
    requires ReaderLaws(reader)
    ensures AllRequiredMapped(ExportMapping)
    ensures ImportRows([SampleRow(when), BlankRow], ExportMapping, reader)
      == [Draft(Expense, 350.0, when, "Alimentacion", "Cena", None)]
  {
    var good, bad := SampleRow(when), BlankRow;
    ScenarioCompleteRowKept(reader, when);
    ScenarioEmptyDescriptionSkipped(bad, reader);
    ImportRowsAppend([good], [bad], ExportMapping, reader);
    assert [good] + [bad] == [good, bad];
    assert [good][..0] == [] && [bad][..0] == [];
  }

  // ---------------------------------------------------------------- export, then import

  /** The header row `json_to_sheet` writes for the export rows. */
  const ExportHeaders: seq<string> := ["Fecha", "Descripción", "Monto", "Tipo", "Categoría", "Comentarios"]

  /** The mapping of every field, comments included, to the export's own header. */
  const FullExportMapping: Mapping := ExportMapping[CommentsField := "Comentarios"]

  /** The cells an export row is written as: text everywhere except the numeric amount. */
  function RowCells(r: TransactionsPage.ExportRow): seq<Cell>
  {
    [Text(r.fecha), Text(r.descripcion), Number(r.monto), Text(r.tipo), Text(r.categoria), Text(r.comentarios)]
  }

  /** The record the dialog builds from the exported row of `t`. */
  function ExportedRecord(t: Transaction): Row
  {
    RowRecord(ExportHeaders, RowCells(TransactionsPage.ExportRowOf(t)))
  }

  /** The export's type labels read back as the kinds they were written from. */
  lemma ExportedKindReadsBack(t: Transaction)
    ensures NormaliseKind(TransactionsPage.ExportRowOf(t).tipo) == t.kind
  {
    KindNormalisation();
  }

  /**
   * Re-importing one exported row with the export's own headers mapped gives back the
   * record's kind, amount, category and description; absent comments come back as the
   * empty string, and the date is whatever the 'yyyy-MM-dd' text parses to. The row is
   * kept exactly when that text parses, the description is non-empty and the category
   * is known.
   */
  lemma ExportedRowReadsBack(t: Transaction, reader: CellReader)
    requires ReaderLaws(reader)
    ensures AllRequiredMapped(FullExportMapping)
    ensures var dayText := Text(DayText(DayOf(t.date)));
      var d := NormaliseRow(ExportedRecord(t), FullExportMapping, reader);
      && (d.Some? <==> reader.date(dayText).Some? && t.description != "" && t.category in Categories)
      && (d.Some? ==>
            d.value == Draft(t.kind, t.amount, reader.date(dayText).value, t.category, t.description,
                             Some(if t.comments.Some? then t.comments.value else "")))
  {
    ExportedFieldsRead(t, reader);
  }

  /** What the reader makes of each mapped column of an exported record. */
  lemma ExportedFieldsRead(t: Transaction, reader: CellReader)
    requires ReaderLaws(reader)
    ensures AllRequiredMapped(FullExportMapping) && Mapped(FullExportMapping, CommentsField)
    ensures var rec := ExportedRecord(t);
      && Lookup(rec, FullExportMapping[DateField]) == Text(DayText(DayOf(t.date)))
      && reader.text(Lookup(rec, FullExportMapping[DescriptionField])) == t.description
      && reader.number(Lookup(rec, FullExportMapping[AmountField])) == Some(t.amount)
      && NormaliseKind(reader.text(Lookup(rec, FullExportMapping[TypeField]))) == t.kind
      && reader.text(Lookup(rec, FullExportMapping[CategoryField])) == t.category
      && reader.text(Lookup(rec, FullExportMapping[CommentsField]))
           == (if t.comments.Some? then t.comments.value else "")
  {
    ExportedRecordCells(t);
    ExportedKindReadsBack(t);
  }

  /** Each mapped header of an exported record holds the cell its column was written with. */
  lemma ExportedRecordCells(t: Transaction)
    ensures var rec, row := ExportedRecord(t), TransactionsPage.ExportRowOf(t);
      && Lookup(rec, "Fecha") == Text(row.fecha)
      && Lookup(rec, "Descripción") == Text(row.descripcion)
      && Lookup(rec, "Monto") == Number(row.monto)
      && Lookup(rec, "Tipo") == Text(row.tipo)
      && Lookup(rec, "Categoría") == Text(row.categoria)
      && Lookup(rec, "Comentarios") == Text(row.comentarios)
  {
    var row := TransactionsPage.ExportRowOf(t);
    assert Distinct(ExportHeaders);
    RowRecordZips(ExportHeaders, RowCells(row));
    assert ExportHeaders[0] == "Fecha" && ExportHeaders[1] == "Descripción" && ExportHeaders[2] == "Monto";
    assert ExportHeaders[3] == "Tipo" && ExportHeaders[4] == "Categoría" && ExportHeaders[5] == "Comentarios";
  }

  /** An exported record that passes the import checks is kept with its kind, amount, category and description. */
  lemma ExportedRowKept(t: Transaction, reader: CellReader)
    requires ReaderLaws(reader)
    requires t.description != "" && t.category in Categories && reader.date(Text(DayText(DayOf(t.date)))).Some?
    ensures AllRequiredMapped(FullExportMapping)
    ensures var d := NormaliseRow(ExportedRecord(t), FullExportMapping, reader);
      && d.Some? && d.value.kind == t.kind && d.value.amount == t.amount
      && d.value.category == t.category && d.value.description == t.description
  {
    ExportedRowReadsBack(t, reader);
  }

  /**
   * Exporting a list and importing the sheet row by row with the export's own headers
   * gives one draft per record, in order, with the same kind, amount, category and
   * description, when every description is non-empty, every category is known and
   * every exported date parses.
   */
  lemma ExportImportRoundTrip(ts: seq<Transaction>, reader: CellReader)
    requires ReaderLaws(reader)
    requires forall t :: t in ts ==>
      t.description != "" && t.category in Categories && reader.date(Text(DayText(DayOf(t.date)))).Some?
    ensures AllRequiredMapped(FullExportMapping)
    ensures var kept := ImportRows(Map(ts, ExportedRecord), FullExportMapping, reader);
      && |kept| == |ts|
      && forall i :: 0 <= i < |ts| ==>
        && kept[i].kind == ts[i].kind && kept[i].amount == ts[i].amount
        && kept[i].category == ts[i].category && kept[i].description == ts[i].description
  {
    var rows := Map(ts, ExportedRecord);
    forall i | 0 <= i < |rows|
      ensures NormaliseRow(rows[i], FullExportMapping, reader).Some?
      ensures var d := NormaliseRow(rows[i], FullExportMapping, reader).value;
        && d.kind == ts[i].kind && d.amount == ts[i].amount
        && d.category == ts[i].category && d.description == ts[i].description
    {
      assert ts[i] in ts;
      ExportedRowKept(ts[i], reader);
    }
    var drafts := seq(|rows|, i requires 0 <= i < |rows| => NormaliseRow(rows[i], FullExportMapping, reader).value);
    ImportRowsAllKept(rows, FullExportMapping, reader, drafts);
  }

  /** When every row is acceptable, the import keeps each of them, in order. */
  lemma {:induction false} ImportRowsAllKept(rows: seq<Row>, mapping: Mapping, reader: CellReader, drafts: seq<Draft>)
    requires AllRequiredMapped(mapping)
    requires |drafts| == |rows|
    requires forall i :: 0 <= i < |rows| ==> NormaliseRow(rows[i], mapping, reader) == Some(drafts[i])
    ensures ImportRows(rows, mapping, reader) == drafts
  {
    if rows != [] {
      var n := |rows| - 1;
      ImportRowsAllKept(rows[..n], mapping, reader, drafts[..n]);
      assert drafts == drafts[..n] + [drafts[n]];
    }
  }

  // ---------------------------------------------------------------- the dialog

  /** `step`: 1 is choosing a file, 2 is mapping columns. */
  datatype Step = ChooseFile | MapColumns

  /** How `handleImport` ended: the toast it shows and whether anything was written. */
  datatype Outcome = FieldsMissing(fields: seq<Field>) | Imported(count: nat) | NothingValid

  class ImportDialogState {
    var step: Step
    var headers: seq<string>
    var data: seq<Row>
    var mapping: Mapping
    var open: bool

    constructor(open: bool)
      ensures step == ChooseFile && headers == [] && data == [] && mapping == map[] && this.open == open
    {
      step := ChooseFile;
      headers := [];
      data := [];
      mapping := map[];
      this.open := open;
    }

    /** `resetState`. */
    method ResetState()
      modifies this
      ensures step == ChooseFile && headers == [] && data == [] && mapping == map[]
      ensures open == old(open)
    {
      step := ChooseFile;
      headers := [];
      data := [];
      mapping := map[];
    }

    /** `handleClose(isOpen)`: closing resets; the new visibility is reported to the parent. */
    method HandleClose(isOpen: bool)
      modifies this
      ensures open == isOpen
      ensures !isOpen ==> step == ChooseFile && headers == [] && data == [] && mapping == map[]
      ensures isOpen ==> step == old(step) && headers == old(headers) && data == old(data) && mapping == old(mapping)
    {
      if !isOpen {
        ResetState();
      }
      open := isOpen;
    }

    /**
     * The `onload` handler of `handleFileChange`, from the grid `sheet_to_json` returns
     * (`None` when reading throws). A non-empty grid gives its first row as headers and one
     * record per later row, and moves to step 2; an empty or unreadable one resets. The
     * mapping is not touched on success. `headers` holds the names the dialog shows and
     * offers, which leave out the holes of the header row.
     */
    method LoadSheet(grid: Option<seq<seq<Cell>>>, reader: CellReader)
      modifies this
      ensures grid.None? || grid.value == [] ==> step == ChooseFile && headers == [] && data == [] && mapping == map[]
      ensures grid.Some? && grid.value != [] ==>
        && step == MapColumns
        && headers == HeaderNames(grid.value[0], reader.text)
        && |data| == |grid.value| - 1
        && (forall i :: 0 <= i < |data| ==> data[i] == SheetRecord(grid.value[0], grid.value[i + 1], reader.text))
        && mapping == old(mapping)
      ensures open == old(open)
    {
      if grid.Some? && |grid.value| > 0 {
        var g := grid.value;
        headers := HeaderNames(g[0], reader.text);
        data := Map(g[1..], (row: seq<Cell>) => SheetRecord(g[0], row, reader.text));
        step := MapColumns;
      } else {
        ResetState();
      }
    }

    /** `handleMappingChange(field, value)`: only that field's header changes. */
    method HandleMappingChange(field: Field, value: string)
      modifies this
      ensures mapping == old(mapping)[field := value]
      ensures forall f :: f != field ==> (f in mapping <==> f in old(mapping))
      ensures forall f :: f != field && f in mapping ==> mapping[f] == old(mapping)[f]
      ensures step == old(step) && headers == old(headers) && data == old(data) && open == old(open)
    {
      mapping := mapping[field := value];
    }

    /**
     * `handleImport`. With a required field unmapped it reports them and changes nothing.
     * Otherwise it normalises every row, sends the kept drafts in one bulk write when there
     * is at least one, and closes the dialog in its reset state.
     */
    method HandleImport(reader: CellReader, store: TransactionsContext.Store) returns (outcome: Outcome)
      modifies this, store
      ensures MissingFields(old(mapping)) != [] ==>
        && outcome == FieldsMissing(MissingFields(old(mapping)))
        && step == old(step) && headers == old(headers) && data == old(data) && mapping == old(mapping)
        && open == old(open)
        && store.writes == old(store.writes) && store.pushed == old(store.pushed)
      ensures MissingFields(old(mapping)) == [] ==>
        && AllRequiredMapped(old(mapping))
        && var kept := ImportRows(old(data), old(mapping), reader);
        && (|kept| > 0 ==>
              && outcome == Imported(|kept|)
              && store.writes == old(store.writes)
                   + [TransactionsContext.MultiUpdate(TransactionsContext.BatchUpdates(kept, store.keys, old(store.pushed)))]
              && store.pushed == old(store.pushed) + |kept|)
        && (|kept| == 0 ==>
              outcome == NothingValid && store.writes == old(store.writes) && store.pushed == old(store.pushed))
        && step == ChooseFile && headers == [] && data == [] && mapping == map[] && !open
      ensures store.transactions == old(store.transactions)
    {
      var missing := MissingFields(mapping);
      if |missing| > 0 {
        return FieldsMissing(missing);
      }
      NoMissingFieldsIff(mapping);
      var kept: seq<Draft> := [];
      for i := 0 to |data|
        invariant kept == ImportRows(data[..i], mapping, reader)
      {
        var row := NormaliseRow(data[i], mapping, reader);
        assert data[..i + 1][..i] == data[..i];
        if row.Some? {
          kept := kept + [row.value];
        }
      }
      assert data[..|data|] == data;
      if |kept| > 0 {
        store.AddMultipleTransactions(kept);
        outcome := Imported(|kept|);
      } else {
        outcome := NothingValid;
      }
      HandleClose(false);
    }
  }
}
