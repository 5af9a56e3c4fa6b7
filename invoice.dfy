/** The invoice task (module/invoice.py): for every warehouse of the dataset, in order, select
    it with the requested date, wait for "BEVCO_Invoice.pdf", and either rename the download
    after the warehouse or log the failure in report.txt. */
module Invoice {
  import opened Wrappers
  import opened Text
  import opened Paths
  import opened Dates
  import opened Downloads

  /** The name fragment of the invoice download. */
  const InvoiceFragment := "BEVCO_Invoice.pdf"

  const TimeOutReason := "Time-Out"
  const NoFileReason := "No file Name"

  /** One line of report.txt: "[DD-MM-YYYY] destination - reason" and a newline. */
  function LogLine(date: CalendarDate, destination: string, reason: string): string {
    "[" + FormatDMY(date) + "] " + destination + " - " + reason + "\n"
  }

  /** `rename_file`: the download keeps its extension and takes `newName` as its stem. */
  method RenameFile(folder: Folder, oldName: string, newName: string)
    modifies folder`moves
    ensures folder.moves
         == old(folder.moves) + [Move(Join(folder.path, oldName), Join(folder.path, newName + Ext(oldName)))]
  {
    folder.MoveFile(oldName, newName + Ext(oldName));
  }

  /** `log_failure`: one line appended to report.txt, the earlier lines kept. */
  method LogFailure(folder: Folder, destination: string, date: CalendarDate, reason: string)
    modifies folder`report
    ensures folder.report == old(folder.report) + LogLine(date, destination, reason)
  {
    folder.AppendReport(LogLine(date, destination, reason));
  }

  /** What `submit_request` asks the page for: a warehouse and a date as "DD/MM/YYYY". */
  datatype Request = Request(destination: string, date: string)

  /** The outcome of the row for `destination`, given whether `submit_request` returned and
      what the download watcher's polls list. */
  function RowResult(dir: Path, destination: string, date: CalendarDate, submitted: bool,
                     listing: nat -> Listing): RowOutcome
  {
    if !submitted then Raised
    else match Await(listing, InvoiceFragment, DefaultTimeout, 0)
      case Found(name) =>
        if name != "" then Renamed(Move(Join(dir, name), Join(dir, ReplaceSpaces(destination) + Ext(name))))
        else Logged(LogLine(date, destination, NoFileReason))
      case TimedOut => Logged(LogLine(date, destination, TimeOutReason))
      case ListError => Raised
  }

  /** What every row of the dataset would come to, each on its own. */
  function RowResults(dir: Path, rows: seq<string>, date: CalendarDate, submitted: nat -> bool,
                      listing: nat -> nat -> Listing): (r: seq<RowOutcome>)
    ensures |r| == |rows|
    ensures forall k :: 0 <= k < |rows| ==> r[k] == RowResult(dir, rows[k], date, submitted(k), listing(k))
  {
    seq(|rows|, k requires 0 <= k < |rows| => RowResult(dir, rows[k], date, submitted(k), listing(k)))
  }

  /** Entry k of `RowResults` is row k on its own. */
  lemma RowResultsAt(dir: Path, rows: seq<string>, date: CalendarDate, submitted: nat -> bool,
                     listing: nat -> nat -> Listing, k: nat)
    requires k < |rows|
    ensures RowResults(dir, rows, date, submitted, listing)[k] == RowResult(dir, rows[k], date, submitted(k), listing(k))
  {
  }

  /** The outcomes of the whole task, in dataset order. */
  function Outcomes(dir: Path, rows: seq<string>, date: CalendarDate, submitted: nat -> bool,
                    listing: nat -> nat -> Listing): seq<RowOutcome>
  {
    RunRows(RowResults(dir, rows, date, submitted, listing), 0)
  }

  /** Each outcome is its own row's: outcome k is row k submitted and waited for. */
  lemma {:induction false} OutcomesInOrder(dir: Path, rows: seq<string>, date: CalendarDate, submitted: nat -> bool,
                        listing: nat -> nat -> Listing, k: nat)
    requires k < |Outcomes(dir, rows, date, submitted, listing)|
    ensures k < |rows|
    ensures Outcomes(dir, rows, date, submitted, listing)[k] == RowResult(dir, rows[k], date, submitted(k), listing(k))
  {
    RunRowsInOrder(RowResults(dir, rows, date, submitted, listing), 0, k);
    RowResultsAt(dir, rows, date, submitted, listing, k);
  }

  /** Only the last outcome can be an exception, and every row of the dataset is taken
      unless one raised: a time-out does not end the task. */
  lemma OutcomesStop(dir: Path, rows: seq<string>, date: CalendarDate, submitted: nat -> bool,
                     listing: nat -> nat -> Listing)
    ensures RaisesOnlyLast(Outcomes(dir, rows, date, submitted, listing))
    ensures var outs := Outcomes(dir, rows, date, submitted, listing);
      |outs| < |rows| ==> Stopped(outs)
  {
    RunRowsStop(RowResults(dir, rows, date, submitted, listing), 0);
  }

  /** Every row the task completed left exactly one trace: a rename or a report line. An
      invoice row is never left without one, and only the row that raised, always the last,
      leaves neither. */
  lemma InvoiceAccounting(dir: Path, rows: seq<string>, date: CalendarDate, submitted: nat -> bool,
                          listing: nat -> nat -> Listing)
    ensures var outs := Outcomes(dir, rows, date, submitted, listing);
      |MovesOf(outs)| + LoggedCount(outs) == if Stopped(outs) then |outs| - 1 else |outs|
  {
    var outs := Outcomes(dir, rows, date, submitted, listing);
    forall k | 0 <= k < |outs| ensures !outs[k].Skipped? {
      OutcomesInOrder(dir, rows, date, submitted, listing, k);
    }
    NoneSkipped(outs);
    OutcomesStop(dir, rows, date, submitted, listing);
    Accounting(outs);
  }

  /** The requests made for `rows`, one per row, in order, each with the date text `shown`. */
  function RequestsFor(rows: seq<string>, shown: string): (r: seq<Request>)
    ensures |r| == |rows|
  {
    if rows == [] then [] else RequestsFor(rows[..|rows| - 1], shown) + [Request(rows[|rows| - 1], shown)]
  }

  /** One more row, one more request. */
  lemma RequestsForSnoc(rows: seq<string>, shown: string, i: nat)
    requires i < |rows|
    ensures RequestsFor(rows[..i + 1], shown) == RequestsFor(rows[..i], shown) + [Request(rows[i], shown)]
  {
    assert rows[..i + 1][..i] == rows[..i];
  }

  /** Request k names row k and carries the date text. */
  lemma {:induction false} RequestsForAt(rows: seq<string>, shown: string, k: nat)
    requires k < |rows|
    ensures RequestsFor(rows, shown)[k] == Request(rows[k], shown)
    decreases |rows|
  {
    if k < |rows| - 1 {
      RequestsForAt(rows[..|rows| - 1], shown, k);
    }
  }

  /** The date is shown to the page as "DD/MM/YYYY". */
  lemma FormatSlashedShape(d: CalendarDate)
    ensures |FormatSlashed(d)| == 10 && FormatSlashed(d)[2] == '/' && FormatSlashed(d)[5] == '/'
    ensures forall i :: 0 <= i < 10 && i != 2 && i != 5 ==> IsDigit(FormatSlashed(d)[i])
  {
    FieldsOfFormat(d);
  }

  /** Why the task raised. */
  datatype Failure = DatasetUnreadable | NavigationFailed | BadDate | RowFailed(row: nat)

  /** `scrape_invoice` returns the download directory, or raises. */
  datatype TaskResult = Returned(dir: Path) | Failed(why: Failure)

  /** A found invoice always has a name, so the "No file Name" line is never written: a
      logged row is a time-out. */
  lemma NeverNoFileName(dir: Path, destination: string, date: CalendarDate, submitted: bool, listing: nat -> Listing)
    ensures RowResult(dir, destination, date, submitted, listing).Logged? ==>
              RowResult(dir, destination, date, submitted, listing) == Logged(LogLine(date, destination, TimeOutReason))
  {
    if submitted && Await(listing, InvoiceFragment, DefaultTimeout, 0).Found? {
      AwaitFoundCompleted(listing, InvoiceFragment, DefaultTimeout, 0);
    }
  }

  /** The body of `scrape_invoice`'s loop for one warehouse: submit, wait, then rename or
      log. The folder gains the row's rename or its report line, and nothing else. */
  method HandleRow(folder: Folder, destination: string, date: CalendarDate, submitted: bool, listing: nat -> Listing)
    returns (o: RowOutcome)
    modifies folder
    ensures o == RowResult(folder.path, destination, date, submitted, listing)
    ensures folder.moves == old(folder.moves) + (if o.Renamed? then [o.move] else [])
    ensures folder.report == old(folder.report) + (if o.Logged? then o.line else "")
  {
    if !submitted {
      return Raised;
    }
    var w, _ := WaitForDownload(listing, InvoiceFragment, DefaultTimeout);
    match w {
      case Found(name) =>
        if name != "" {
          RenameFile(folder, name, ReplaceSpaces(destination));
          o := Renamed(Move(Join(folder.path, name), Join(folder.path, ReplaceSpaces(destination) + Ext(name))));
        } else {
          // `log_failure(..., "No file Name")`: a found download always has a name
          assert false;
        }
      case TimedOut =>
        LogFailure(folder, destination, date, TimeOutReason);
        o := Logged(LogLine(date, destination, TimeOutReason));
      case ListError =>
        o := Raised;
    }
  }

  /** The row loop ends with the outcomes `done`: the requests and the folder's moves and
      report are those of the whole run. */
  lemma RunClosed(dir: Path, rows: seq<string>, date: CalendarDate, submitted: nat -> bool, listing: nat -> nat -> Listing,
                  done: seq<RowOutcome>, moves0: seq<MoveOp>, report0: string,
                  moves: seq<MoveOp>, report: string, requests: seq<Request>)
    requires RunRows(RowResults(dir, rows, date, submitted, listing), 0) == done
    requires |done| <= |rows| && requests == RequestsFor(rows[..|done|], FormatSlashed(date))
    requires moves == moves0 + MovesOf(done) && report == report0 + LinesOf(done)
    ensures var outs := Outcomes(dir, rows, date, submitted, listing);
      && requests == RequestsFor(rows[..|outs|], FormatSlashed(date))
      && moves == moves0 + MovesOf(outs) && report == report0 + LinesOf(outs)
      && Stopped(outs) == Stopped(done) && |outs| == |done|
  {
  }

  /** The row loop of `scrape_invoice`: the rows in dataset order, each submitted with the
      same date, until the last row or the first exception. */
  method ProcessRows(folder: Folder, rows: seq<string>, date: CalendarDate,
                     submitted: nat -> bool, listing: nat -> nat -> Listing)
    returns (r: TaskResult, requests: seq<Request>)
    modifies folder
    ensures var outs := Outcomes(folder.path, rows, date, submitted, listing);
      && requests == RequestsFor(rows[..|outs|], FormatSlashed(date))
      && folder.moves == old(folder.moves) + MovesOf(outs)
      && folder.report == old(folder.report) + LinesOf(outs)
      && r == (if Stopped(outs) then Failed(RowFailed(|outs| - 1)) else Returned(folder.path))
  {
    ghost var results := RowResults(folder.path, rows, date, submitted, listing);
    ghost var moves0, report0 := folder.moves, folder.report;
    var shown := FormatSlashed(date);
    requests := [];
    ghost var done: seq<RowOutcome> := [];
    var i := 0;
    while i < |rows|
      invariant 0 <= i <= |rows| && |done| == i
      invariant RunRows(results, 0) == done + RunRows(results, i)
      invariant !Stopped(done)
      invariant requests == RequestsFor(rows[..i], shown)
      invariant folder.moves == moves0 + MovesOf(done) && folder.report == report0 + LinesOf(done)
    {
      var destination := rows[i];
      RequestsForSnoc(rows, shown, i);
      requests := requests + [Request(destination, shown)];
      var o := HandleRow(folder, destination, date, submitted(i), listing(i));
      RunRowsAdvance(results, i, done, o);
      FolderAdvance(moves0, report0, done, o, folder.moves, folder.report);
      done := done + [o];
      if o.Raised? {
        RunClosed(folder.path, rows, date, submitted, listing, done, moves0, report0, folder.moves, folder.report, requests);
        return Failed(RowFailed(i)), requests;
      }
      i := i + 1;
    }
    RunRowsEnd(results, done);
    RunClosed(folder.path, rows, date, submitted, listing, done, moves0, report0, folder.moves, folder.report, requests);
    return Returned(folder.path), requests;
  }

  /** `scrape_invoice(driver, download_dir, inputDate)`: reads the dataset, opens the invoice
      page, parses `inputDate` once, then handles the rows in order. An exception from
      `submit_request` or from listing the folder ends the task; a time-out is logged and the
      next row follows. `dataset` is the "Warehouse Name" column (None when it cannot be read),
      `navigated` whether the page was reached, `submitted(k)` whether row k's submission
      returned, and `listing(k)` what the watcher sees for row k. */
  method ScrapeInvoice(folder: Folder, dataset: Option<seq<string>>, navigated: bool, inputDate: string,
                       submitted: nat -> bool, listing: nat -> nat -> Listing)
    returns (r: TaskResult, requests: seq<Request>)
    modifies folder
    ensures dataset.None? ==> r == Failed(DatasetUnreadable)
    ensures dataset.Some? && !navigated ==> r == Failed(NavigationFailed)
    ensures dataset.Some? && navigated && ParseDMY(inputDate).None? ==> r == Failed(BadDate)
    ensures dataset.None? || !navigated || ParseDMY(inputDate).None? ==>
              requests == [] && folder.moves == old(folder.moves) && folder.report == old(folder.report)
    ensures dataset.Some? && navigated && ParseDMY(inputDate).Some? ==>
              var rows, date := dataset.value, ParseDMY(inputDate).value;
              var outs := Outcomes(folder.path, rows, date, submitted, listing);
              && requests == RequestsFor(rows[..|outs|], FormatSlashed(date))
              && folder.moves == old(folder.moves) + MovesOf(outs)
              && folder.report == old(folder.report) + LinesOf(outs)
              && r == (if Stopped(outs) then Failed(RowFailed(|outs| - 1)) else Returned(folder.path))
  {
    if dataset.None? {
      return Failed(DatasetUnreadable), [];
    }
    if !navigated {
      return Failed(NavigationFailed), [];
    }
    var parsed := ParseDMY(inputDate);
    if parsed.None? {
      return Failed(BadDate), [];
    }
    r, requests := ProcessRows(folder, dataset.value, parsed.value, submitted, listing);
  }
}
