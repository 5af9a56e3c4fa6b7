/** The stock task (module/stock.py): for every depot of the dataset, read the table the page
    shows, prefix it with a "Depot" column and append it to the job's single workbook
    stocks.xlsx, sheet "Sheet1". A workbook is modelled as its sheets' rows; cell values
    are text. */
module Stock {
  import opened Wrappers
  import opened Text
  import opened Paths

  /** The workbook every depot of a job appends to, inside the job's download folder. */
  const FileName := "stocks.xlsx"

  /** The sheet the tables go to. */
  const SheetName := "Sheet1"

  /** The one sheet a new `Workbook()` has. */
  const DefaultSheet := "Sheet"

  /** The column `submit_request` puts in front of every table. */
  const DepotColumn := "Depot"

  /** One worksheet or table row. */
  type Cells = seq<string>

  /** A table read from the page: its column names and its data rows. */
  datatype Table = Table(columns: seq<string>, rows: seq<Cells>)

  /** `df.empty`: no columns or no rows. */
  predicate Empty(t: Table) {
    |t.columns| == 0 || |t.rows| == 0
  }

  /** The table with its first column taken off: what `df.insert(0, ...)` added. */
  function DropFirstColumn(t: Table): Table {
    Table(if |t.columns| > 0 then t.columns[1..] else [],
          seq(|t.rows|, k requires 0 <= k < |t.rows| => if |t.rows[k]| > 0 then t.rows[k][1..] else []))
  }

  /** `df.insert(0, "Depot", destination)`; `None` stands for the `ValueError` pandas raises
      when the table already has a "Depot" column. */
  function WithDepot(t: Table, destination: string): (r: Option<Table>)
    ensures r.None? <==> DepotColumn in t.columns
    ensures r.Some? ==>
              && |r.value.columns| > 0 && r.value.columns[0] == DepotColumn
              && |r.value.rows| == |t.rows|
              && (forall k :: 0 <= k < |t.rows| ==> |r.value.rows[k]| > 0 && r.value.rows[k][0] == destination)
              && DropFirstColumn(r.value) == t
  {
    if DepotColumn in t.columns then None
    else
      var added := Table([DepotColumn] + t.columns, seq(|t.rows|, k requires 0 <= k < |t.rows| => [destination] + t.rows[k]));
      assert DropFirstColumn(added).rows == t.rows;
      Some(added)
  }

  /** Adding the column keeps the table non-empty. */
  lemma WithDepotNotEmpty(t: Table, destination: string)
    requires !Empty(t) && WithDepot(t, destination).Some?
    ensures !Empty(WithDepot(t, destination).value)
  {
  }

  /** A workbook: the rows of each of its sheets, by sheet name. */
  datatype Book = Book(sheets: map<string, seq<Cells>>)

  /** `Workbook()`: one empty sheet named "Sheet". */
  function NewBook(): Book {
    Book(map[DefaultSheet := []])
  }

  /** The rows of a sheet; a sheet that `create_sheet` has yet to make has none. */
  function SheetRows(b: Book, name: string): seq<Cells> {
    if name in b.sheets then b.sheets[name] else []
  }

  /** openpyxl's `max_row`: 1 for an empty sheet as for a sheet of one row. */
  function MaxRow(rows: seq<Cells>): nat {
    if |rows| == 0 then 1 else |rows|
  }

  /** `dataframe_to_rows(df, index=False, header=header)`: the column names first when
      `header` holds, then the data rows. */
  function RowsToAppend(t: Table, header: bool): (r: seq<Cells>)
    ensures |r| == |t.rows| + (if header then 1 else 0)
    ensures header ==> r[0] == t.columns && r[1..] == t.rows
    ensures !header ==> r == t.rows
  {
    (if header then [t.columns] else []) + t.rows
  }

  /** Where `append_df_to_excel` can raise: saving the new empty workbook, loading it, or
      saving it after the append. */
  datatype Fault = NoFault | CreateFails | LoadFails | SaveFails

  /** The workbook file once `append_df_to_excel(filepath, df)` has returned or raised, where
      `file` is the file before (`None` while it does not exist). A new workbook is saved
      before anything else, so it survives a later failure; the rows reach the file only if
      the final save succeeds. */
  function Appended(file: Option<Book>, t: Table, fault: Fault): Option<Book> {
    if file.None? && fault == CreateFails then file
    else
      var b := if file.None? then NewBook() else file.value;
      if fault == LoadFails || fault == SaveFails then Some(b)
      else
        var ws := SheetRows(b, SheetName);
        Some(Book(b.sheets[SheetName := ws + RowsToAppend(t, MaxRow(ws) == 1)]))
  }

  /** Whether `append_df_to_excel` returned rather than raised. */
  predicate AppendSucceeds(file: Option<Book>, fault: Fault) {
    fault == NoFault || (fault == CreateFails && file.Some?)
  }

  /** Appending never touches what is already there: the sheet's old rows stay first, in
      order, every other sheet is kept, and a successful append adds exactly the table's
      rows (after the header when `max_row` is 1). */
  lemma AppendOnly(file: Option<Book>, t: Table, fault: Fault)
    requires Appended(file, t, fault).Some?
    ensures var before := if file.Some? then file.value else NewBook();
      var after := Appended(file, t, fault).value;
      && SheetRows(after, SheetName)[..|SheetRows(before, SheetName)|] == SheetRows(before, SheetName)
      && (forall n :: n in before.sheets && n != SheetName ==> n in after.sheets && after.sheets[n] == before.sheets[n])
      && (AppendSucceeds(file, fault) ==>
            SheetRows(after, SheetName)
            == SheetRows(before, SheetName) + RowsToAppend(t, MaxRow(SheetRows(before, SheetName)) == 1))
      && (!AppendSucceeds(file, fault) ==> after == before)
  {
  }

  /** The file is missing, or its "Sheet1" does not hold exactly one row. */
  predicate NeverOneRow(file: Option<Book>) {
    file.None? || |SheetRows(file.value, SheetName)| != 1
  }

  /** Where "Sheet1" never holds a single row, the header goes in exactly when the sheet is
      empty: the first table brings its column names, later ones only their data. */
  lemma HeaderOnlyWhenEmpty(file: Option<Book>, t: Table)
    requires NeverOneRow(file)
    ensures var before := if file.Some? then file.value else NewBook();
      var ws := SheetRows(before, SheetName);
      Appended(file, t, NoFault) == Some(Book(before.sheets[SheetName := ws + (if ws == [] then [t.columns] else []) + t.rows]))
  {
    var before := if file.Some? then file.value else NewBook();
    var ws := SheetRows(before, SheetName);
    assert (MaxRow(ws) == 1) == (ws == []);
    AppendAssoc(ws, if ws == [] then [t.columns] else [], t.rows);
  }

  /** Appending a table with rows keeps "Sheet1" away from a single row, whatever fails. */
  lemma NeverOneRowKept(file: Option<Book>, t: Table, fault: Fault)
    requires NeverOneRow(file) && |t.rows| > 0
    ensures NeverOneRow(Appended(file, t, fault))
  {
  }

  /** The job's workbook file, stocks.xlsx in the download folder. */
  class Workbook {
    const path: Path
    var file: Option<Book>

    /** The model starts with no file; `ScrapeReports` is stated for any earlier one. */
    constructor (downloadDir: Path)
      ensures path == Join(downloadDir, FileName) && file == None
    {
      path := Join(downloadDir, FileName);
      file := None;
    }

    /** `append_df_to_excel(filepath, df)`: create and save a new workbook if there is no
        file, load it, take "Sheet1" (an empty one when absent), append the rows one by one
        with the header only when `max_row` is 1, and save. `fault` says where it raises;
        `saved` whether it returned. */
    method AppendTable(t: Table, fault: Fault) returns (saved: bool)
      modifies this`file
      ensures file == Appended(old(file), t, fault)
      ensures saved == AppendSucceeds(old(file), fault)
    {
      if file.None? {
        if fault == CreateFails {
          return false;
        }
        file := Some(NewBook());
      }
      if fault == LoadFails {
        return false;
      }
      var book := file.value;
      var ws := SheetRows(book, SheetName);
      ghost var base := ws;
      var rows := RowsToAppend(t, MaxRow(ws) == 1);
      var j := 0;
      while j < |rows|
        invariant 0 <= j <= |rows|
        invariant ws == base + rows[..j]
        invariant file == Some(book)
      {
        PrefixSnoc(rows, j);
        AppendAssoc(base, rows[..j], [rows[j]]);
        ws := ws + [rows[j]];
        j := j + 1;
      }
      assert rows[..j] == rows;
      if fault == SaveFails {
        return false;
      }
      file := Some(Book(book.sheets[SheetName := ws]));
      return true;
    }
  }

  // ---------------------------------------------------------------- the depot loop

  /** Why `scrape_reports` raised: the page could not be opened, the dataset read, a depot's
      table selected or read, or a table already had a "Depot" column. */
  datatype Failure = NavigationFailed | DatasetUnreadable | PageFailed(row: nat) | DepotColumnExists(row: nat)

  /** `scrape_reports` returns after quitting the driver, or raises. */
  datatype JobResult = Finished | Failed(why: Failure)

  /** What `submit_request` does with row i's depot, given the table the page shows (`None`
      when selecting the depot or reading its table raises): raise, skip an empty table, or
      append the table with its "Depot" column. */
  datatype Step = Abort(why: Failure) | Skip | Append(table: Table)

  function StepFor(i: nat, destination: string, page: Option<Table>): (s: Step)
    ensures s.Append? ==> page.Some? && !Empty(page.value) && WithDepot(page.value, destination) == Some(s.table)
    ensures s.Skip? <==> page.Some? && Empty(page.value)
  {
    if page.None? then Abort(PageFailed(i))
    else if Empty(page.value) then Skip
    else match WithDepot(page.value, destination)
      case None => Abort(DepotColumnExists(i))
      case Some(t) => Append(t)
  }

  /** Where the depot loop stands: the workbook file, how it ended, and how many depots were
      selected on the page. */
  datatype Outcome = Outcome(file: Option<Book>, result: JobResult, selected: nat)

  /** The depots from row i onwards, starting from `file`: `pages(k)` is what row k's page
      shows and `faults(k)` where saving row k's table fails. A save failure is swallowed;
      any other exception ends the loop. */
  function Run(file: Option<Book>, depots: seq<string>, pages: nat -> Option<Table>, faults: nat -> Fault, i: nat): (o: Outcome)
    ensures i <= |depots| ==> i <= o.selected <= |depots|
    ensures i <= |depots| && o.result.Finished? ==> o.selected == |depots|
    decreases |depots| - i
  {
    if i >= |depots| then Outcome(file, Finished, i)
    else match StepFor(i, depots[i], pages(i))
      case Abort(why) => Outcome(file, Failed(why), i + 1)
      case Skip => Run(file, depots, pages, faults, i + 1)
      case Append(t) => Run(Appended(file, t, faults(i)), depots, pages, faults, i + 1)
  }

  /** A run that raises names the last depot it selected, and only a page failure or a
      duplicate "Depot" column can end it early. */
  lemma {:induction false} RunFailsAtLast(file: Option<Book>, depots: seq<string>, pages: nat -> Option<Table>, faults: nat -> Fault, i: nat)
    requires i <= |depots|
    requires Run(file, depots, pages, faults, i).result.Failed?
    ensures var o := Run(file, depots, pages, faults, i);
      var k := o.selected - 1;
      && i <= k < |depots|
      && (o.result.why == PageFailed(k) || o.result.why == DepotColumnExists(k))
      && StepFor(k, depots[k], pages(k)).Abort?
    decreases |depots| - i
  {
    if !StepFor(i, depots[i], pages(i)).Abort? {
      var next := if StepFor(i, depots[i], pages(i)).Skip? then file else Appended(file, StepFor(i, depots[i], pages(i)).table, faults(i));
      RunFailsAtLast(next, depots, pages, faults, i + 1);
    }
  }

  /** The tables the depots before row n put into the workbook when every page could be read:
      the non-empty ones, in dataset order, each with its "Depot" column. */
  function Saved(depots: seq<string>, pages: nat -> Option<Table>, n: nat): (ts: seq<Table>)
    requires n <= |depots|
    ensures forall k :: 0 <= k < |ts| ==> !Empty(ts[k])
  {
    if n == 0 then []
    else
      var s := StepFor(n - 1, depots[n - 1], pages(n - 1));
      var before := Saved(depots, pages, n - 1);
      if s.Append? then
        WithDepotNotEmpty(pages(n - 1).value, depots[n - 1]);
        before + [s.table]
      else before
  }

  /** The data rows of the tables, one after the other. */
  function AllRows(ts: seq<Table>): seq<Cells> {
    if ts == [] then [] else AllRows(ts[..|ts| - 1]) + ts[|ts| - 1].rows
  }

  lemma AllRowsSnoc(ts: seq<Table>, t: Table)
    ensures AllRows(ts + [t]) == AllRows(ts) + t.rows
  {
    assert (ts + [t])[..|ts|] == ts;
  }

  lemma {:induction false} AllRowsNotEmpty(ts: seq<Table>)
    requires ts != [] && forall k :: 0 <= k < |ts| ==> !Empty(ts[k])
    ensures |AllRows(ts)| > 0
  {
    if |ts| > 1 {
      AllRowsNotEmpty(ts[..|ts| - 1]);
    }
  }

  /** The workbook file after the tables `ts` were all saved: no file while there was nothing
      to save, otherwise the default sheet and "Sheet1" holding the first table's column
      names followed by every table's rows. */
  function FileOf(ts: seq<Table>): Option<Book> {
    if ts == [] then None
    else Some(Book(map[DefaultSheet := [], SheetName := [ts[0].columns] + AllRows(ts)]))
  }

  /** Saving one more non-empty table extends "Sheet1" by its rows only. */
  lemma AppendedFileOf(ts: seq<Table>, t: Table)
    requires forall k :: 0 <= k < |ts| ==> !Empty(ts[k])
    requires !Empty(t)
    ensures Appended(FileOf(ts), t, NoFault) == FileOf(ts + [t])
  {
    AllRowsSnoc(ts, t);
    if ts == [] {
      assert AllRows([t]) == t.rows by { AllRowsSnoc([], t); }
      assert [] + [t] == [t];
      var ws := SheetRows(NewBook(), SheetName);
      assert ws == [];
      assert ws + RowsToAppend(t, true) == [t.columns] + AllRows([t]);
      assert NewBook().sheets[SheetName := [t.columns] + AllRows([t])]
          == map[DefaultSheet := [], SheetName := [t.columns] + AllRows([t])];
    } else {
      AllRowsNotEmpty(ts);
      assert (ts + [t])[0] == ts[0];
      AppendAssoc([ts[0].columns], AllRows(ts), t.rows);
      var m := map[DefaultSheet := [], SheetName := [ts[0].columns] + AllRows(ts)];
      assert m[SheetName := [ts[0].columns] + AllRows(ts + [t])]
          == map[DefaultSheet := [], SheetName := [ts[0].columns] + AllRows(ts + [t])];
    }
  }

  /** Every page readable, no table with its own "Depot" column, and no save failing. */
  predicate FaultFree(depots: seq<string>, pages: nat -> Option<Table>, faults: nat -> Fault) {
    forall k :: 0 <= k < |depots| ==> !StepFor(k, depots[k], pages(k)).Abort? && faults(k) == NoFault
  }

  lemma {:induction false} RunFaultFreeFrom(depots: seq<string>, pages: nat -> Option<Table>, faults: nat -> Fault, i: nat)
    requires i <= |depots| && FaultFree(depots, pages, faults)
    ensures Run(FileOf(Saved(depots, pages, i)), depots, pages, faults, i)
         == Outcome(FileOf(Saved(depots, pages, |depots|)), Finished, |depots|)
    decreases |depots| - i
  {
    if i < |depots| {
      var s := StepFor(i, depots[i], pages(i));
      if s.Append? {
        WithDepotNotEmpty(pages(i).value, depots[i]);
        AppendedFileOf(Saved(depots, pages, i), s.table);
      }
      RunFaultFreeFrom(depots, pages, faults, i + 1);
    }
  }

  /** A job in which nothing fails selects every depot once, in order, and leaves a workbook
      whose "Sheet1" is the first saved table's column names followed by the rows of every
      non-empty table, in dataset order; with no non-empty table no file is created. */
  lemma RunFaultFree(depots: seq<string>, pages: nat -> Option<Table>, faults: nat -> Fault)
    requires FaultFree(depots, pages, faults)
    ensures Run(None, depots, pages, faults, 0) == Outcome(FileOf(Saved(depots, pages, |depots|)), Finished, |depots|)
  {
    RunFaultFreeFrom(depots, pages, faults, 0);
  }

  /** "Sheet1" never holds exactly one row in any file a job can leave, whatever fails, so
      the `max_row == 1` test is the same as the sheet being empty. */
  lemma {:induction false} RunNeverOneRow(file: Option<Book>, depots: seq<string>, pages: nat -> Option<Table>, faults: nat -> Fault, i: nat)
    requires NeverOneRow(file)
    ensures NeverOneRow(Run(file, depots, pages, faults, i).file)
    decreases |depots| - i
  {
    if i < |depots| {
      var s := StepFor(i, depots[i], pages(i));
      if s.Skip? {
        RunNeverOneRow(file, depots, pages, faults, i + 1);
      } else if s.Append? {
        WithDepotNotEmpty(pages(i).value, depots[i]);
        NeverOneRowKept(file, s.table, faults(i));
        RunNeverOneRow(Appended(file, s.table, faults(i)), depots, pages, faults, i + 1);
      }
    }
  }

  /** `submit_request(driver, destination, download_dir)` for row i, after the depot was
      selected and its table read into `page`. */
  method SubmitRequest(book: Workbook, i: nat, destination: string, page: Option<Table>, fault: Fault)
    returns (s: Step)
    modifies book`file
    ensures s == StepFor(i, destination, page)
    ensures s.Append? ==> book.file == Appended(old(book.file), s.table, fault)
    ensures !s.Append? ==> book.file == old(book.file)
  {
    if page.None? {
      return Abort(PageFailed(i));
    }
    var df := page.value;
    if Empty(df) {
      return Skip;
    }
    var added := WithDepot(df, destination);
    if added.None? {
      return Abort(DepotColumnExists(i));
    }
    var _ := book.AppendTable(added.value, fault);
    return Append(added.value);
  }

  /** `scrape_reports(driver, download_dir)`: open the page, read the depot dataset, submit
      every depot in order, then quit the driver. `quit` says whether `driver.quit()` ran. */
  method ScrapeReports(book: Workbook, navigated: bool, dataset: Option<seq<string>>,
                       pages: nat -> Option<Table>, faults: nat -> Fault)
    returns (r: JobResult, selected: seq<string>, quit: bool)
    modifies book`file
    ensures !navigated ==> r == Failed(NavigationFailed) && selected == [] && book.file == old(book.file)
    ensures navigated && dataset.None? ==> r == Failed(DatasetUnreadable) && selected == [] && book.file == old(book.file)
    ensures navigated && dataset.Some? ==>
              var o := Run(old(book.file), dataset.value, pages, faults, 0);
              && book.file == o.file && r == o.result
              && selected == dataset.value[..o.selected]
    ensures quit <==> r == Finished
  {
    if !navigated {
      return Failed(NavigationFailed), [], false;
    }
    if dataset.None? {
      return Failed(DatasetUnreadable), [], false;
    }
    var depots := dataset.value;
    selected := [];
    var i := 0;
    while i < |depots|
      invariant 0 <= i <= |depots|
      invariant selected == depots[..i]
      invariant Run(old(book.file), depots, pages, faults, 0) == Run(book.file, depots, pages, faults, i)
    {
      selected := selected + [depots[i]];
      PrefixSnoc(depots, i);
      var s := SubmitRequest(book, i, depots[i], pages(i), faults(i));
      if s.Abort? {
        return Failed(s.why), selected, false;
      }
      i := i + 1;
    }
    return Finished, selected, true;
  }
}
