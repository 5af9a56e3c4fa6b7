/** What the invoice and inventory tasks share: `wait_for_download`, which both files define
    identically (module/invoice.py:17-23, module/inventory.py:21-27), and the job's download
    folder, in which files are renamed and report.txt is appended to. */
module Downloads {
  import opened Text
  import opened Paths

  /** What one `os.listdir(download_dir)` call gives: the names in listing order, or the
      `OSError` it raises. */
  datatype Listing = Entries(names: seq<string>) | ListFailed

  /** How `wait_for_download` ends: the name it returns, its `TimeoutError`, or an `OSError`
      from `os.listdir` (which it does not catch). */
  datatype Wait = Found(name: string) | TimedOut | ListError

  /** The suffix Chrome gives a file while it is still downloading. */
  const PartialSuffix := ".crdownload"

  /** `wait_for_download`'s default `timeout`: the number of polls, one second apart. */
  const DefaultTimeout: nat := 30

  /** A listed name that counts as the finished download. */
  predicate Completed(name: string, part: string) {
    Contains(name, part) && !EndsWith(name, PartialSuffix)
  }

  /** The position of the first finished download in one listing, or `|names|` when there is none. */
  function FirstCompleted(names: seq<string>, part: string): (i: nat)
    ensures i <= |names|
    ensures forall j :: 0 <= j < i ==> !Completed(names[j], part)
    ensures i < |names| ==> Completed(names[i], part)
    decreases |names|
  {
    if names == [] then 0
    else if Completed(names[0], part) then 0
    else 1 + FirstCompleted(names[1..], part)
  }

  /** A poll that listed the directory and found nothing finished. */
  predicate Unmatched(l: Listing, part: string) {
    l.Entries? && FirstCompleted(l.names, part) == |l.names|
  }

  /** The outcome of the polls numbered `poll` to `timeout - 1`, where `listing(k)` is what
      the k-th poll sees. */
  function Await(listing: nat -> Listing, part: string, timeout: nat, poll: nat): Wait
    decreases timeout - poll
  {
    if poll >= timeout then TimedOut
    else match listing(poll)
      case ListFailed => ListError
      case Entries(names) =>
        var i := FirstCompleted(names, part);
        if i < |names| then Found(names[i]) else Await(listing, part, timeout, poll + 1)
  }

  /** A returned name is a finished download: it contains the fragment and is not partial. */
  lemma {:induction false} AwaitFoundCompleted(listing: nat -> Listing, part: string, timeout: nat, poll: nat)
    requires Await(listing, part, timeout, poll).Found?
    ensures Completed(Await(listing, part, timeout, poll).name, part)
    ensures |Await(listing, part, timeout, poll).name| >= |part|
    decreases timeout - poll
  {
    var names := listing(poll).names;
    if FirstCompleted(names, part) == |names| {
      AwaitFoundCompleted(listing, part, timeout, poll + 1);
    } else {
      ContainsLength(names[FirstCompleted(names, part)], part);
    }
  }

  /** The watcher times out exactly when every one of its polls listed the directory and
      found nothing finished. */
  lemma {:induction false} AwaitTimedOut(listing: nat -> Listing, part: string, timeout: nat, poll: nat)
    ensures Await(listing, part, timeout, poll).TimedOut?
        <==> forall k :: poll <= k < timeout ==> Unmatched(listing(k), part)
    decreases timeout - poll
  {
    if poll < timeout {
      AwaitTimedOut(listing, part, timeout, poll + 1);
    }
  }

  /** The first poll with a finished download decides: its first match is returned. */
  lemma {:induction false} AwaitFirstHit(listing: nat -> Listing, part: string, timeout: nat, poll: nat, hit: nat)
    requires poll <= hit < timeout
    requires forall k :: poll <= k < hit ==> Unmatched(listing(k), part)
    requires listing(hit).Entries? && !Unmatched(listing(hit), part)
    ensures Await(listing, part, timeout, poll)
         == Found(listing(hit).names[FirstCompleted(listing(hit).names, part)])
    decreases hit - poll
  {
    if poll < hit {
      AwaitFirstHit(listing, part, timeout, poll + 1, hit);
    }
  }

  /** `wait_for_download(download_dir, part, timeout)`: at most `timeout` polls; within a poll
      the names are tried in listing order and the first finished one is returned at once;
      after `timeout` fruitless polls it raises `TimeoutError`. `polls` counts the polls made. */
  method WaitForDownload(listing: nat -> Listing, part: string, timeout: nat) returns (r: Wait, polls: nat)
    ensures r == Await(listing, part, timeout, 0)
    ensures polls <= timeout
    ensures r.TimedOut? ==> polls == timeout
    ensures !r.TimedOut? ==> polls >= 1
    ensures forall k :: 0 <= k < (if r.TimedOut? then polls else polls - 1) ==> Unmatched(listing(k), part)
    ensures r.ListError? ==> listing(polls - 1).ListFailed?
    ensures r.Found? ==>
              && listing(polls - 1).Entries? && !Unmatched(listing(polls - 1), part)
              && r.name == listing(polls - 1).names[FirstCompleted(listing(polls - 1).names, part)]
  {
    polls := 0;
    while polls < timeout
      invariant polls <= timeout
      invariant forall k :: 0 <= k < polls ==> Unmatched(listing(k), part)
      invariant Await(listing, part, timeout, 0) == Await(listing, part, timeout, polls)
    {
      var listed := listing(polls);
      polls := polls + 1;
      if listed.ListFailed? {
        return ListError, polls;
      }
      var names := listed.names;
      var j := 0;
      while j < |names|
        invariant j <= |names|
        invariant forall i :: 0 <= i < j ==> !Completed(names[i], part)
      {
        if Contains(names[j], part) && !EndsWith(names[j], PartialSuffix) {
          assert FirstCompleted(names, part) == j;
          return Found(names[j]), polls;
        }
        j := j + 1;
      }
      assert FirstCompleted(names, part) == |names|;
    }
    return TimedOut, polls;
  }

  /** One `shutil.move` inside the download folder. */
  datatype MoveOp = Move(src: Path, dst: Path)

  /** The name of the failure log kept in the download folder. */
  const ReportName := "report.txt"

  /** The download folder of one job: the renames performed in it, in order, and the text
      of its report.txt (empty while the file does not exist). */
  class Folder {
    const path: Path
    var moves: seq<MoveOp>
    var report: string

    constructor (path: Path)
      ensures this.path == path && moves == [] && report == ""
    {
      this.path := path;
      moves := [];
      report := "";
    }

    /** `shutil.move(os.path.join(path, oldName), os.path.join(path, newName))`. */
    method MoveFile(oldName: string, newName: string)
      modifies this`moves
      ensures moves == old(moves) + [Move(Join(path, oldName), Join(path, newName))]
    {
      moves := moves + [Move(Join(path, oldName), Join(path, newName))];
    }

    /** Writing `line` to report.txt opened in append mode: the old text is kept. */
    method AppendReport(line: string)
      modifies this`report
      ensures report == old(report) + line
    {
      report := report + line;
    }
  }

  // ---------------------------------------------------------------- the row loop

  /** What one dataset row of a download task comes to: a rename, a line in report.txt, a
      row that leaves no trace in the folder, or an exception that ends the task. */
  datatype RowOutcome = Renamed(move: MoveOp) | Logged(line: string) | Skipped | Raised

  /** The outcomes of rows `i` onwards, where `results[k]` is what row k comes to: rows are
      taken in order, and the first exception ends the run. */
  function RunRows(results: seq<RowOutcome>, i: nat): (r: seq<RowOutcome>)
    ensures i <= |results| ==> |r| <= |results| - i
    decreases |results| - i
  {
    if i >= |results| then []
    else if results[i].Raised? then [results[i]]
    else [results[i]] + RunRows(results, i + 1)
  }

  lemma RunRowsStep(results: seq<RowOutcome>, i: nat)
    requires i < |results|
    ensures RunRows(results, i) == if results[i].Raised? then [results[i]] else [results[i]] + RunRows(results, i + 1)
  {
  }

  /** A row loop that went past the last row has produced the whole run. */
  lemma RunRowsEnd(results: seq<RowOutcome>, done: seq<RowOutcome>)
    requires RunRows(results, 0) == done + RunRows(results, |results|)
    ensures RunRows(results, 0) == done
  {
    assert RunRows(results, |results|) == [];
  }

  /** Outcome k of the run is row i + k's. */
  lemma {:induction false} RunRowsInOrder(results: seq<RowOutcome>, i: nat, k: nat)
    requires k < |RunRows(results, i)|
    ensures i + k < |results| && RunRows(results, i)[k] == results[i + k]
    decreases k
  {
    if k > 0 {
      RunRowsInOrder(results, i + 1, k - 1);
    }
  }

  /** No outcome before the last is an exception. */
  predicate RaisesOnlyLast(outs: seq<RowOutcome>) {
    forall k :: 0 <= k < |outs| - 1 ==> !outs[k].Raised?
  }

  /** The run ended on an exception. */
  predicate Stopped(outs: seq<RowOutcome>) {
    |outs| > 0 && outs[|outs| - 1].Raised?
  }

  /** Only the last outcome can be an exception, and the run stops short of the last row
      only because of one. */
  lemma {:induction false} RunRowsStop(results: seq<RowOutcome>, i: nat)
    requires i <= |results|
    ensures RaisesOnlyLast(RunRows(results, i))
    ensures |RunRows(results, i)| < |results| - i ==> Stopped(RunRows(results, i))
    decreases |results| - i
  {
    if i < |results| && !results[i].Raised? {
      RunRowsStop(results, i + 1);
      var rest := RunRows(results, i + 1);
      var outs := [results[i]] + rest;
      forall k | 0 <= k < |outs| - 1 ensures !outs[k].Raised? {
        if k > 0 { assert outs[k] == rest[k - 1]; }
      }
      if |rest| > 0 { assert outs[|outs| - 1] == rest[|rest| - 1]; }
    }
  }

  /** Rows that cannot raise are all taken. */
  lemma {:induction false} RunRowsComplete(results: seq<RowOutcome>, i: nat)
    requires i <= |results|
    requires forall k :: i <= k < |results| ==> !results[k].Raised?
    ensures |RunRows(results, i)| == |results| - i && !Stopped(RunRows(results, i))
    decreases |results| - i
  {
    if i < |results| {
      RunRowsComplete(results, i + 1);
      var rest := RunRows(results, i + 1);
      if |rest| > 0 { assert ([results[i]] + rest)[|rest|] == rest[|rest| - 1]; }
    }
  }

  /** The renames among the outcomes, in order. */
  function MovesOf(outs: seq<RowOutcome>): seq<MoveOp> {
    if outs == [] then []
    else MovesOf(outs[..|outs| - 1]) + (if outs[|outs| - 1].Renamed? then [outs[|outs| - 1].move] else [])
  }

  /** The report lines among the outcomes, in order. */
  function LinesOf(outs: seq<RowOutcome>): string {
    if outs == [] then ""
    else LinesOf(outs[..|outs| - 1]) + (if outs[|outs| - 1].Logged? then outs[|outs| - 1].line else "")
  }

  /** How many outcomes are a report line. */
  function LoggedCount(outs: seq<RowOutcome>): nat {
    if outs == [] then 0
    else LoggedCount(outs[..|outs| - 1]) + (if outs[|outs| - 1].Logged? then 1 else 0)
  }

  /** How many outcomes left no trace. */
  function SkippedCount(outs: seq<RowOutcome>): nat {
    if outs == [] then 0
    else SkippedCount(outs[..|outs| - 1]) + (if outs[|outs| - 1].Skipped? then 1 else 0)
  }

  /** Appending one outcome appends its own trace. */
  lemma TracesExtend(done: seq<RowOutcome>, o: RowOutcome)
    ensures MovesOf(done + [o]) == MovesOf(done) + (if o.Renamed? then [o.move] else [])
    ensures LinesOf(done + [o]) == LinesOf(done) + (if o.Logged? then o.line else "")
    ensures Stopped(done + [o]) == o.Raised?
  {
    assert (done + [o])[..|done|] == done;
  }

  /** The folder after one more row: what the row left, on top of what the rows before left. */
  lemma FolderAdvance(moves0: seq<MoveOp>, report0: string, done: seq<RowOutcome>, o: RowOutcome,
                      moves: seq<MoveOp>, report: string)
    requires moves == (moves0 + MovesOf(done)) + (if o.Renamed? then [o.move] else [])
    requires report == (report0 + LinesOf(done)) + (if o.Logged? then o.line else "")
    ensures moves == moves0 + MovesOf(done + [o]) && report == report0 + LinesOf(done + [o])
  {
    TracesExtend(done, o);
    AppendAssoc(moves0, MovesOf(done), if o.Renamed? then [o.move] else []);
    AppendAssoc(report0, LinesOf(done), if o.Logged? then o.line else "");
  }

  /** One turn of a row loop: after the outcomes `done` of rows before `i`, row i's outcome
      either ends the run or is followed by the outcomes of rows `i + 1` onwards. */
  lemma RunRowsAdvance(results: seq<RowOutcome>, i: nat, done: seq<RowOutcome>, o: RowOutcome)
    requires i < |results| && o == results[i]
    requires RunRows(results, 0) == done + RunRows(results, i)
    ensures o.Raised? ==> RunRows(results, 0) == done + [o]
    ensures !o.Raised? ==> RunRows(results, 0) == (done + [o]) + RunRows(results, i + 1)
    ensures MovesOf(done + [o]) == MovesOf(done) + (if o.Renamed? then [o.move] else [])
    ensures LinesOf(done + [o]) == LinesOf(done) + (if o.Logged? then o.line else "")
    ensures Stopped(done + [o]) == o.Raised?
  {
    RunRowsStep(results, i);
    AppendAssoc(done, [o], RunRows(results, i + 1));
    TracesExtend(done, o);
  }

  /** Outcomes none of which is `Skipped` count no skipped row. */
  lemma {:induction false} NoneSkipped(outs: seq<RowOutcome>)
    requires forall k :: 0 <= k < |outs| ==> !outs[k].Skipped?
    ensures SkippedCount(outs) == 0
  {
    if outs != [] {
      NoneSkipped(outs[..|outs| - 1]);
    }
  }

  /** One turn of a row loop that only renames: the renames so far, after row i's outcome,
      are those of the outcomes so far. */
  lemma MovesTurn(results: seq<RowOutcome>, i: nat, done: seq<RowOutcome>, o: RowOutcome,
                  moves0: seq<MoveOp>, moves: seq<MoveOp>)
    requires i < |results| && o == results[i]
    requires RunRows(results, 0) == done + RunRows(results, i)
    requires moves == (moves0 + MovesOf(done)) + (if o.Renamed? then [o.move] else [])
    ensures moves == moves0 + MovesOf(done + [o])
    ensures Stopped(done + [o]) == o.Raised?
    ensures o.Raised? ==> RunRows(results, 0) == done + [o]
    ensures !o.Raised? ==> RunRows(results, 0) == (done + [o]) + RunRows(results, i + 1)
  {
    RunRowsAdvance(results, i, done, o);
    AppendAssoc(moves0, MovesOf(done), if o.Renamed? then [o.move] else []);
  }

  /** Every row that completed left exactly one of: a rename, a report line, nothing. */
  lemma {:induction false} Accounting(outs: seq<RowOutcome>)
    requires RaisesOnlyLast(outs)
    ensures |MovesOf(outs)| + LoggedCount(outs) + SkippedCount(outs) == if Stopped(outs) then |outs| - 1 else |outs|
  {
    if outs != [] {
      Accounting(outs[..|outs| - 1]);
      assert !Stopped(outs[..|outs| - 1]);
    }
  }
}
