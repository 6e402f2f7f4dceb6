/**
 * Building a questionnaire from the first worksheet of an uploaded workbook:
 * the first row's cells after the first column are the shared answer options,
 * every later row with a prompt in its first column becomes an item with its
 * own options (or the shared ones when it has none), numbered q1, q2, ...;
 * plus the title and version defaults, the upload's error outcomes and the
 * builder of a questionnaire update.
 *
 * The workbook reader is a parameter: a worksheet is given as the grid of
 * cells inside its used range, row 0 and column 0 being the range's first.
 */
module QuestionnaireSheet {
  import opened Wrappers
  import opened Text
  import JsValues

  /** A cell's raw value; a number carries the text `toString` gives it. */
  datatype Raw = NoValue | StrValue(s: string) | NumValue(n: real, shown: string) | BoolValue(b: bool)

  /** A cell: its formatted text `w` (if any) and its raw value `v`. */
  datatype Cell = Cell(w: Option<string>, v: Raw)

  /** The used range: `width` columns, and the rows of cells (a missing cell is `None`). */
  datatype Sheet = Sheet(width: nat, rows: seq<seq<Option<Cell>>>)

  function CellAt(sheet: Sheet, r: nat, c: nat): Option<Cell> {
    if r < |sheet.rows| && c < |sheet.rows[r]| then sheet.rows[r][c] else None
  }

  predicate RawTruthy(v: Raw) {
    match v
    case NoValue => false
    case StrValue(s) => s != ""
    case NumValue(n, _) => n != 0.0
    case BoolValue(b) => b
  }

  /** `String(v)`. */
  function RawText(v: Raw): string {
    match v
    case NoValue => ""
    case StrValue(s) => s
    case NumValue(_, shown) => shown
    case BoolValue(b) => if b then "true" else "false"
  }

  /** `(cell && (cell.w || cell.v) ?? "").toString().trim()`: the text of an option cell. */
  function OptionText(cell: Option<Cell>): string {
    if cell.None? then ""
    else if cell.value.w.Some? && cell.value.w.value != "" then Trim(cell.value.w.value)
    else Trim(RawText(cell.value.v))
  }

  /** `(cell && (cell.w || cell.v) || "").toString().trim()`: the text of a prompt cell. */
  function PromptText(cell: Option<Cell>): string {
    if cell.None? then ""
    else if cell.value.w.Some? && cell.value.w.value != "" then Trim(cell.value.w.value)
    else if RawTruthy(cell.value.v) then Trim(RawText(cell.value.v))
    else ""
  }

  /**
   * The two readings differ only on falsy raw values: a cell holding the
   * number 0 or `false` is an option "0" or "false", but an empty prompt. A
   * formatted text always wins over the raw value.
   */
  lemma PromptVersusOptionText(cell: Option<Cell>)
    ensures cell.Some? && cell.value.w.Some? && cell.value.w.value != "" ==>
      PromptText(cell) == OptionText(cell) == Trim(cell.value.w.value)
    ensures PromptText(cell) != "" ==> PromptText(cell) == OptionText(cell)
    ensures OptionText(Some(Cell(None, NumValue(0.0, "0")))) == "0" && PromptText(Some(Cell(None, NumValue(0.0, "0")))) == ""
    ensures OptionText(Some(Cell(None, BoolValue(false)))) == "false" && PromptText(Some(Cell(None, BoolValue(false)))) == ""
  {
    TrimmedIsFixed("0");
    TrimmedIsFixed("false");
  }

  /** The non-empty option texts of row r, columns 1 up to (excluding) c, in column order. */
  function RowOptions(sheet: Sheet, r: nat, c: nat): (opts: seq<string>)
    ensures |opts| <= (if c == 0 then 0 else c - 1)
    decreases c
  {
    if c <= 1 then []
    else
      var t := OptionText(CellAt(sheet, r, c - 1));
      RowOptions(sheet, r, c - 1) + (if t != "" then [t] else [])
  }

  /**
   * Every option text is non-empty and trimmed, and every column after the
   * first whose cell has a non-empty text contributes it.
   */
  lemma {:induction false} RowOptionsMeaning(sheet: Sheet, r: nat, c: nat)
    ensures forall k :: 0 <= k < |RowOptions(sheet, r, c)| ==>
      RowOptions(sheet, r, c)[k] != "" && Trim(RowOptions(sheet, r, c)[k]) == RowOptions(sheet, r, c)[k]
    ensures forall col :: 1 <= col < c && OptionText(CellAt(sheet, r, col)) != "" ==>
      OptionText(CellAt(sheet, r, col)) in RowOptions(sheet, r, c)
    decreases c
  {
    if c > 1 {
      RowOptionsMeaning(sheet, r, c - 1);
      var cell := CellAt(sheet, r, c - 1);
      if cell.Some? {
        if cell.value.w.Some? && cell.value.w.value != "" {
          TrimIdempotent(cell.value.w.value);
        } else {
          TrimIdempotent(RawText(cell.value.v));
        }
      }
    }
  }

  /** The columns 1 up to (excluding) c of row r whose option text is not empty, in column order. */
  function KeptColumns(sheet: Sheet, r: nat, c: nat): seq<nat>
    decreases c
  {
    if c <= 1 then []
    else KeptColumns(sheet, r, c - 1) + (if OptionText(CellAt(sheet, r, c - 1)) != "" then [c - 1] else [])
  }

  /** Every kept column lies after the first and below c, and has a non-empty option text. */
  lemma {:induction false} KeptColumnsSound(sheet: Sheet, r: nat, c: nat)
    ensures forall k :: 0 <= k < |KeptColumns(sheet, r, c)| ==>
      1 <= KeptColumns(sheet, r, c)[k] < c && OptionText(CellAt(sheet, r, KeptColumns(sheet, r, c)[k])) != ""
    decreases c
  {
    if c > 1 {
      KeptColumnsSound(sheet, r, c - 1);
    }
  }

  /** The kept columns are in column order. */
  lemma {:induction false} KeptColumnsIncreasing(sheet: Sheet, r: nat, c: nat)
    ensures forall j, k :: 0 <= j < k < |KeptColumns(sheet, r, c)| ==> KeptColumns(sheet, r, c)[j] < KeptColumns(sheet, r, c)[k]
    decreases c
  {
    if c > 1 {
      KeptColumnsSound(sheet, r, c - 1);
      KeptColumnsIncreasing(sheet, r, c - 1);
    }
  }

  /** Every column after the first and below c with a non-empty option text is kept. */
  lemma {:induction false} KeptColumnsComplete(sheet: Sheet, r: nat, c: nat)
    ensures forall col: nat :: 1 <= col < c && OptionText(CellAt(sheet, r, col)) != "" ==> col in KeptColumns(sheet, r, c)
    decreases c
  {
    if c > 1 {
      KeptColumnsComplete(sheet, r, c - 1);
    }
  }

  /** Option k of row r is the text of its k-th kept column, so the options keep column order. */
  lemma {:induction false} RowOptionsFromColumns(sheet: Sheet, r: nat, c: nat)
    ensures |RowOptions(sheet, r, c)| == |KeptColumns(sheet, r, c)|
    ensures forall k :: 0 <= k < |KeptColumns(sheet, r, c)| ==>
      RowOptions(sheet, r, c)[k] == OptionText(CellAt(sheet, r, KeptColumns(sheet, r, c)[k]))
    decreases c
  {
    if c > 1 {
      RowOptionsFromColumns(sheet, r, c - 1);
    }
  }

  /**
   * The option loop the handler runs over a row (once for the header row,
   * once for each item row): the non-empty option texts of its columns after
   * the first.
   */
  method ReadRowOptions(sheet: Sheet, r: nat) returns (opts: seq<string>)
    ensures opts == RowOptions(sheet, r, sheet.width)
  {
    opts := [];
    var c: nat := 1;
    while c < sheet.width
      invariant 1 <= c && (c <= sheet.width || c == 1)
      invariant opts == RowOptions(sheet, r, c)
    {
      var text := OptionText(CellAt(sheet, r, c));
      if text != "" {
        opts := opts + [text];
      }
      c := c + 1;
    }
  }

  /** A stored questionnaire item; every uploaded item is of type "choice". */
  datatype SheetItem = SheetItem(id: string, kind: string, prompt: string, options: seq<string>)

  /** `q${n}`. */
  function ItemId(n: nat): string {
    "q" + NatToString(n)
  }

  /** A row's own options, or the header's when it has none. */
  function ItemOptions(sheet: Sheet, header: seq<string>, row: nat): seq<string> {
    var own := RowOptions(sheet, row, sheet.width);
    if |own| > 0 then own else header
  }

  /** The items of rows 1 up to (excluding) r, numbered from q1 over kept rows only. */
  function ItemsUpTo(sheet: Sheet, header: seq<string>, r: nat): seq<SheetItem>
    decreases r
  {
    if r <= 1 then []
    else
      var prev := ItemsUpTo(sheet, header, r - 1);
      var prompt := PromptText(CellAt(sheet, r - 1, 0));
      if prompt == "" then prev
      else prev + [SheetItem(ItemId(|prev| + 1), "choice", prompt, ItemOptions(sheet, header, r - 1))]
  }

  /** All items of the sheet. */
  function Items(sheet: Sheet): seq<SheetItem> {
    ItemsUpTo(sheet, RowOptions(sheet, 0, sheet.width), |sheet.rows|)
  }

  /** The upload's parsing: the header's options, then the row loop. */
  method ParseItems(sheet: Sheet) returns (items: seq<SheetItem>)
    ensures items == Items(sheet)
  {
    var header := ReadRowOptions(sheet, 0);
    items := ParseRows(sheet, header);
  }

  /** The row loop of the upload: items for the rows after the header. */
  method ParseRows(sheet: Sheet, header: seq<string>) returns (items: seq<SheetItem>)
    ensures items == ItemsUpTo(sheet, header, |sheet.rows|)
  {
    items := [];
    var r: nat := 1;
    while r < |sheet.rows|
      invariant 1 <= r && (r <= |sheet.rows| || r == 1)
      invariant items == ItemsUpTo(sheet, header, r)
    {
      items := ParseRow(sheet, header, r, items);
      r := r + 1;
    }
    LoopEnd(sheet, header, r);
  }

  /** The loop ends at the last row, or at once for a sheet without rows (no items either way). */
  lemma LoopEnd(sheet: Sheet, header: seq<string>, r: nat)
    requires r >= |sheet.rows| && (r <= |sheet.rows| || r == 1)
    ensures ItemsUpTo(sheet, header, r) == ItemsUpTo(sheet, header, |sheet.rows|)
  {
  }

  /** One pass of the row loop: row r's item, if its prompt is not empty, joins the items. */
  method ParseRow(sheet: Sheet, header: seq<string>, r: nat, items: seq<SheetItem>) returns (next: seq<SheetItem>)
    requires r >= 1 && items == ItemsUpTo(sheet, header, r)
    ensures next == ItemsUpTo(sheet, header, r + 1)
  {
    ItemsStep(sheet, header, r);
    var prompt := PromptText(CellAt(sheet, r, 0));
    next := items;
    if prompt != "" {
      var rowOptions := ReadRowOptions(sheet, r);
      var options := if |rowOptions| > 0 then rowOptions else header;
      next := items + [SheetItem(ItemId(|items| + 1), "choice", prompt, options)];
    }
  }

  /** One more row: an item for it exactly when its prompt is not empty. */
  lemma ItemsStep(sheet: Sheet, header: seq<string>, r: nat)
    requires r >= 1
    ensures var prev := ItemsUpTo(sheet, header, r);
      var prompt := PromptText(CellAt(sheet, r, 0));
      ItemsUpTo(sheet, header, r + 1)
        == if prompt == "" then prev
           else prev + [SheetItem(ItemId(|prev| + 1), "choice", prompt, ItemOptions(sheet, header, r))]
  {
  }

  /** The rows 1 up to (excluding) r whose prompt is not empty, in sheet order. */
  function KeptRows(sheet: Sheet, r: nat): seq<nat>
    decreases r
  {
    if r <= 1 then []
    else KeptRows(sheet, r - 1) + (if PromptText(CellAt(sheet, r - 1, 0)) != "" then [r - 1] else [])
  }

  /** Every kept row lies after the header and below r, and has a non-empty prompt. */
  lemma {:induction false} KeptRowsHavePrompts(sheet: Sheet, r: nat)
    ensures forall k :: 0 <= k < |KeptRows(sheet, r)| ==>
      1 <= KeptRows(sheet, r)[k] < r && PromptText(CellAt(sheet, KeptRows(sheet, r)[k], 0)) != ""
    decreases r
  {
    if r > 1 {
      KeptRowsHavePrompts(sheet, r - 1);
    }
  }

  /** The kept rows are in sheet order. */
  lemma {:induction false} KeptRowsIncreasing(sheet: Sheet, r: nat)
    ensures forall j, k :: 0 <= j < k < |KeptRows(sheet, r)| ==> KeptRows(sheet, r)[j] < KeptRows(sheet, r)[k]
    decreases r
  {
    if r > 1 {
      KeptRowsHavePrompts(sheet, r - 1);
      KeptRowsIncreasing(sheet, r - 1);
    }
  }

  /** Every row after the header and below r with a non-empty prompt is kept. */
  lemma {:induction false} KeptRowsComplete(sheet: Sheet, r: nat)
    ensures forall row: nat :: 1 <= row < r && PromptText(CellAt(sheet, row, 0)) != "" ==> row in KeptRows(sheet, r)
    decreases r
  {
    if r > 1 {
      KeptRowsComplete(sheet, r - 1);
    }
  }

  /**
   * Item k is built from the k-th kept row: id q(k+1), type "choice", that
   * row's prompt, and that row's own options or else the header's.
   */
  lemma {:induction false} ItemsMeaning(sheet: Sheet, header: seq<string>, r: nat)
    ensures |ItemsUpTo(sheet, header, r)| == |KeptRows(sheet, r)|
    ensures forall k :: 0 <= k < |KeptRows(sheet, r)| ==>
      ItemsUpTo(sheet, header, r)[k] == SheetItem(ItemId(k + 1), "choice",
        PromptText(CellAt(sheet, KeptRows(sheet, r)[k], 0)), ItemOptions(sheet, header, KeptRows(sheet, r)[k]))
    decreases r
  {
    if r > 1 {
      ItemsMeaning(sheet, header, r - 1);
    }
  }

  /** Every stored prompt is non-empty and has no surrounding white space. */
  lemma PromptsTrimmed(cell: Option<Cell>)
    requires PromptText(cell) != ""
    ensures Trim(PromptText(cell)) == PromptText(cell)
  {
    if cell.value.w.Some? && cell.value.w.value != "" {
      TrimIdempotent(cell.value.w.value);
    } else {
      TrimIdempotent(RawText(cell.value.v));
    }
  }

  /** Item ids are pairwise different. */
  lemma ItemIdsDistinct(sheet: Sheet, j: nat, k: nat)
    requires j < k < |Items(sheet)|
    ensures Items(sheet)[j].id != Items(sheet)[k].id
  {
    var header := RowOptions(sheet, 0, sheet.width);
    ItemsMeaning(sheet, header, |sheet.rows|);
    assert Items(sheet)[j].id == ItemId(j + 1);
    assert Items(sheet)[k].id == ItemId(k + 1);
    if ItemId(j + 1) == ItemId(k + 1) {
      assert NatToString(j + 1) == ItemId(j + 1)[1..];
      assert NatToString(k + 1) == ItemId(k + 1)[1..];
      NatToStringInjective(j + 1, k + 1);
    }
  }

  // ------------------------------------------------------------ upload

  /** The parts of a workbook the upload reads: the first sheet (`None` without a used range) and the title property. */
  datatype Workbook = Workbook(sheetCount: nat, firstSheet: Option<Sheet>, propsTitle: Option<string>)

  /** A string request field: `None` when absent. */
  function OrDefault(s: Option<string>, d: string): string {
    if s.Some? && s.value != "" then s.value else d
  }

  /** `req.body.title || workbook.Props?.Title || "Untitled Questionnaire"`. */
  function UploadTitle(bodyTitle: Option<string>, propsTitle: Option<string>): string {
    OrDefault(bodyTitle, OrDefault(propsTitle, "Untitled Questionnaire"))
  }

  /** `req.body.version || "1.0"`. */
  function UploadVersion(bodyVersion: Option<string>): string {
    OrDefault(bodyVersion, "1.0")
  }

  /** The title is the first non-empty of the body's and the workbook's, else the default; likewise the version. */
  lemma UploadDefaults(bodyTitle: Option<string>, propsTitle: Option<string>, bodyVersion: Option<string>)
    ensures bodyTitle.Some? && bodyTitle.value != "" ==> UploadTitle(bodyTitle, propsTitle) == bodyTitle.value
    ensures (bodyTitle.None? || bodyTitle.value == "") && propsTitle.Some? && propsTitle.value != "" ==>
      UploadTitle(bodyTitle, propsTitle) == propsTitle.value
    ensures (bodyTitle.None? || bodyTitle.value == "") && (propsTitle.None? || propsTitle.value == "") ==>
      UploadTitle(bodyTitle, propsTitle) == "Untitled Questionnaire"
    ensures UploadTitle(bodyTitle, propsTitle) != ""
    ensures UploadVersion(bodyVersion) == (if bodyVersion.Some? && bodyVersion.value != "" then bodyVersion.value else "1.0")
  {
  }

  datatype UploadOutcome =
    | Created(title: string, version: string, items: seq<SheetItem>)
    | Rejected(status: nat, error: string)

  /**
   * The upload handler. `file` is `None` without an uploaded file; `read` is
   * the workbook reader (`None` when it throws); `created` says whether the
   * store accepts the document. Every failure past the file check, a throwing
   * reader or store included, is a 400.
   */
  function Upload(file: Option<seq<bv8>>, read: seq<bv8> -> Option<Workbook>,
                  bodyTitle: Option<string>, bodyVersion: Option<string>, created: bool): UploadOutcome
  {
    if file.None? then Rejected(400, "No file uploaded")
    else match read(file.value)
      case None => Rejected(400, "Invalid Excel format")
      case Some(wb) =>
        if wb.sheetCount == 0 then Rejected(400, "Invalid Excel file")
        else if wb.firstSheet.None? then Rejected(400, "Empty worksheet")
        else if !created then Rejected(400, "Invalid Excel format")
        else Created(UploadTitle(bodyTitle, wb.propsTitle), UploadVersion(bodyVersion), Items(wb.firstSheet.value))
  }

  /** An upload either creates the questionnaire built from the first sheet or is rejected with 400. */
  lemma UploadOutcomes(file: Option<seq<bv8>>, read: seq<bv8> -> Option<Workbook>,
                       bodyTitle: Option<string>, bodyVersion: Option<string>, created: bool)
    ensures var o := Upload(file, read, bodyTitle, bodyVersion, created);
      && (o.Rejected? ==> o.status == 400)
      && (o.Created? <==> file.Some? && read(file.value).Some? && read(file.value).value.sheetCount > 0
                          && read(file.value).value.firstSheet.Some? && created)
      && (o.Created? ==> o.items == Items(read(file.value).value.firstSheet.value) && o.title != "")
  {
    var o := Upload(file, read, bodyTitle, bodyVersion, created);
    if o.Created? {
      UploadDefaults(bodyTitle, read(file.value).value.propsTitle, bodyVersion);
    }
  }

  // ------------------------------------------------------------ update

  datatype UpdateOutcome = NoChanges | Apply(title: Option<string>, version: Option<string>)

  /**
   * The update builder: a field is set only from a string that is non-empty
   * once trimmed, and is stored trimmed; an update setting nothing is
   * rejected ("No changes", 400).
   */
  method BuildUpdate(title: JsValues.JsValue, version: JsValues.JsValue) returns (r: UpdateOutcome)
    ensures r.NoChanges? <==> !(title.Str? && Trim(title.s) != "") && !(version.Str? && Trim(version.s) != "")
    ensures r.Apply? ==>
      && (r.title.Some? <==> title.Str? && Trim(title.s) != "")
      && (r.title.Some? ==> r.title.value == Trim(title.s))
      && (r.version.Some? <==> version.Str? && Trim(version.s) != "")
      && (r.version.Some? ==> r.version.value == Trim(version.s))
  {
    var newTitle: Option<string> := None;
    var newVersion: Option<string> := None;
    if title.Str? && Trim(title.s) != "" {
      newTitle := Some(Trim(title.s));
    }
    if version.Str? && Trim(version.s) != "" {
      newVersion := Some(Trim(version.s));
    }
    if newTitle.None? && newVersion.None? {
      return NoChanges;
    }
    r := Apply(newTitle, newVersion);
  }

  /** A stored field is never empty and never has surrounding white space. */
  lemma UpdateFieldsTrimmed(s: string)
    requires Trim(s) != ""
    ensures Trim(Trim(s)) == Trim(s) && Trim(s) != ""
  {
    TrimIdempotent(s);
  }
}
