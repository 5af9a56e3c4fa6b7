/** The inventory task (module/inventory.py): for every (district, depot) row of the dataset,
    select it, wait for "WBSBCL_Inventory", and rename the download to the current time
    followed by the depot. A time-out is only reported on the console. */
module Inventory {
  import opened Wrappers
  import opened Text
  import opened Paths
  import opened Dates
  import opened Downloads

  /** The name fragment of the inventory download. */
  const InventoryFragment := "WBSBCL_Inventory"

  /** One dataset row: the "District" and "Warehouse Name" columns. */
  datatype Row = Row(district: string, depot: string)

  /** `rename_file`'s new stem: `strftime('%Y%m%d_%H%M%S')`, an underscore, and the name it is
      given with its spaces replaced. */
  function NewStem(now: ClockReading, name: string): string {
    FormatStamp(now) + "_" + ReplaceSpaces(name)
  }

  /** `rename_file(download_dir, old_filename, depot)` at time `now`. */
  method RenameFile(folder: Folder, oldName: string, name: string, now: ClockReading)
    modifies folder`moves
    ensures folder.moves
         == old(folder.moves) + [Move(Join(folder.path, oldName), Join(folder.path, NewStem(now, name) + Ext(oldName)))]
  {
    folder.MoveFile(oldName, NewStem(now, name) + Ext(oldName));
  }

  /** The caller passes the depot already with its spaces replaced and `rename_file` replaces
      them again; the second pass changes nothing. */
  lemma DoubleReplace(now: ClockReading, depot: string)
    ensures NewStem(now, ReplaceSpaces(depot)) == NewStem(now, depot)
    ensures ' ' !in ReplaceSpaces(depot)
  {
    ReplaceSpacesIdempotent(depot);
  }

  /** The stem starts with the fifteen-character time stamp and an underscore, and the rest is
      the depot with underscores for spaces; the stamp, and so the time, can be read back. */
  lemma NewStemShape(now: ClockReading, depot: string)
    ensures var s := NewStem(now, depot);
      && |s| == 16 + |depot|
      && s[..15] == FormatStamp(now) && s[15] == '_'
      && s[16..] == ReplaceSpaces(depot)
  {
    var stamp, rest := FormatStamp(now), ReplaceSpaces(depot);
    FormatStampShape(now);
    var s := stamp + "_" + rest;
    assert s[..15] == stamp;
    assert s[16..] == rest;
  }

  /** Renames at clock readings at least a second apart never collide, whatever the depots. */
  lemma NewStemDistinct(t: ClockReading, u: ClockReading, a: string, b: string)
    requires t != u
    ensures NewStem(t, a) != NewStem(u, b)
  {
    NewStemShape(t, a);
    NewStemShape(u, b);
    if NewStem(t, a) == NewStem(u, b) {
      FormatStampInjective(t, u);
    }
  }

  /** The stem always has a digit in it, so the download's extension survives the rename
      (and a stem without a dot of its own keeps even an empty one). */
  lemma RenameKeepsExt(now: ClockReading, depot: string, oldName: string)
    requires '/' !in depot
    requires Ext(oldName) != "" || '.' !in depot
    ensures Ext(NewStem(now, depot) + Ext(oldName)) == Ext(oldName)
  {
    var s := NewStem(now, depot);
    NewStemShape(now, depot);
    FormatStampShape(now);
    assert s[0] == FormatStamp(now)[0] && s[0] != '.';
    assert '/' !in s && (Ext(oldName) == "" ==> '.' !in s) by {
      forall i | 0 <= i < |s| ensures s[i] != '/' && (Ext(oldName) == "" ==> s[i] != '.') {
        if i < 15 {
          assert s[i] == FormatStamp(now)[i];
        } else if i > 15 {
          assert s[i] == ReplaceSpaces(depot)[i - 16];
        }
      }
    }
    ExtKept(s, oldName);
  }

  /** The outcome of the row whose depot is `depot`: a rename, a time-out that is only
      reported on the console (no trace in the folder), or an exception from listing the
      folder (the only exception `scrap_inventory` lets through). `listing` is what the
      watcher's polls see, `now` what the clock reads when the file is renamed. */
  function RowResult(dir: Path, depot: string, listing: nat -> Listing, now: ClockReading): RowOutcome {
    match Await(listing, InventoryFragment, DefaultTimeout, 0)
      case Found(name) =>
        if name != "" then Renamed(Move(Join(dir, name), Join(dir, NewStem(now, ReplaceSpaces(depot)) + Ext(name))))
        else Skipped
      case TimedOut => Skipped
      case ListError => Raised
  }

  /** What every row of the dataset would come to, each on its own. */
  function RowResults(dir: Path, rows: seq<Row>, listing: nat -> nat -> Listing, clock: nat -> ClockReading): (r: seq<RowOutcome>)
    ensures |r| == |rows|
    ensures forall k :: 0 <= k < |rows| ==> r[k] == RowResult(dir, rows[k].depot, listing(k), clock(k))
  {
    seq(|rows|, k requires 0 <= k < |rows| => RowResult(dir, rows[k].depot, listing(k), clock(k)))
  }

  /** Entry k of `RowResults` is row k on its own. */
  lemma RowResultsAt(dir: Path, rows: seq<Row>, listing: nat -> nat -> Listing, clock: nat -> ClockReading, k: nat)
    requires k < |rows|
    ensures RowResults(dir, rows, listing, clock)[k] == RowResult(dir, rows[k].depot, listing(k), clock(k))
  {
  }

  /** The outcomes of the whole task, in dataset order. */
  function Outcomes(dir: Path, rows: seq<Row>, listing: nat -> nat -> Listing, clock: nat -> ClockReading): seq<RowOutcome> {
    RunRows(RowResults(dir, rows, listing, clock), 0)
  }

  /** Outcome k is row k's. */
  lemma {:induction false} OutcomesInOrder(dir: Path, rows: seq<Row>, listing: nat -> nat -> Listing, clock: nat -> ClockReading, k: nat)
    requires k < |Outcomes(dir, rows, listing, clock)|
    ensures k < |rows|
    ensures Outcomes(dir, rows, listing, clock)[k] == RowResult(dir, rows[k].depot, listing(k), clock(k))
  {
    RunRowsInOrder(RowResults(dir, rows, listing, clock), 0, k);
    RowResultsAt(dir, rows, listing, clock, k);
  }

  /** Only the last outcome can be an exception, and a time-out does not stop the task: it
      stops short of the last row only on an exception. */
  lemma OutcomesStop(dir: Path, rows: seq<Row>, listing: nat -> nat -> Listing, clock: nat -> ClockReading)
    ensures RaisesOnlyLast(Outcomes(dir, rows, listing, clock))
    ensures var outs := Outcomes(dir, rows, listing, clock);
      |outs| < |rows| ==> Stopped(outs)
  {
    RunRowsStop(RowResults(dir, rows, listing, clock), 0);
  }

  /** A folder listing that never fails lets every row be tried, and the task finishes. */
  lemma OutcomesComplete(dir: Path, rows: seq<Row>, listing: nat -> nat -> Listing, clock: nat -> ClockReading)
    requires forall k, p :: 0 <= k < |rows| ==> listing(k)(p).Entries?
    ensures |Outcomes(dir, rows, listing, clock)| == |rows|
    ensures !Stopped(Outcomes(dir, rows, listing, clock))
  {
    var results := RowResults(dir, rows, listing, clock);
    forall k | 0 <= k < |rows| ensures !results[k].Raised? {
      NeverRaisesWithEntries(dir, rows[k].depot, listing(k), clock(k));
    }
    RunRowsComplete(results, 0);
  }

  /** A row raises only when some poll failed to list the folder. */
  lemma NeverRaisesWithEntries(dir: Path, depot: string, listing: nat -> Listing, now: ClockReading)
    requires forall p :: listing(p).Entries?
    ensures !RowResult(dir, depot, listing, now).Raised?
  {
    AwaitNoListError(listing, InventoryFragment, DefaultTimeout, 0);
  }

  lemma {:induction false} AwaitNoListError(listing: nat -> Listing, part: string, timeout: nat, poll: nat)
    requires forall p :: listing(p).Entries?
    ensures !Await(listing, part, timeout, poll).ListError?
    decreases timeout - poll
  {
    if poll < timeout {
      AwaitNoListError(listing, part, timeout, poll + 1);
    }
  }

  /** Every rename the task makes gives the download the depot's stamped name and keeps its
      extension. */
  lemma RenamesAreStamped(dir: Path, rows: seq<Row>, listing: nat -> nat -> Listing, clock: nat -> ClockReading, k: nat)
    requires k < |Outcomes(dir, rows, listing, clock)|
    requires Outcomes(dir, rows, listing, clock)[k].Renamed?
    ensures k < |rows|
    ensures Await(listing(k), InventoryFragment, DefaultTimeout, 0).Found?
    ensures var name := Await(listing(k), InventoryFragment, DefaultTimeout, 0).name;
      && Completed(name, InventoryFragment)
      && Outcomes(dir, rows, listing, clock)[k].move
         == Move(Join(dir, name), Join(dir, NewStem(clock(k), rows[k].depot) + Ext(name)))
  {
    OutcomesInOrder(dir, rows, listing, clock, k);
    AwaitFoundCompleted(listing(k), InventoryFragment, DefaultTimeout, 0);
    DoubleReplace(clock(k), rows[k].depot);
  }

  /** Why `scrap_inventory` raised. */
  datatype Failure = NavigationFailed | DatasetUnreadable | ListingFailed(row: nat)

  /** `scrap_inventory` returns nothing, or raises. */
  datatype TaskResult = Finished | Failed(why: Failure)

  /** The body of `scrap_inventory`'s loop after `submit_request`: wait, then rename. The
      folder gains the row's rename, if any, and nothing else. */
  method HandleRow(folder: Folder, depot: string, listing: nat -> Listing, now: ClockReading)
    returns (o: RowOutcome)
    modifies folder`moves
    ensures o == RowResult(folder.path, depot, listing, now)
    ensures folder.moves == old(folder.moves) + (if o.Renamed? then [o.move] else [])
  {
    var w, _ := WaitForDownload(listing, InventoryFragment, DefaultTimeout);
    match w {
      case Found(name) =>
        if name != "" {
          RenameFile(folder, name, ReplaceSpaces(depot), now);
          o := Renamed(Move(Join(folder.path, name), Join(folder.path, NewStem(now, ReplaceSpaces(depot)) + Ext(name))));
        } else {
          // "no data for the location": a found download always has a name
          assert false;
        }
      case TimedOut =>
        o := Skipped;
      case ListError =>
        o := Raised;
    }
  }

  /** One turn of the row loop: row i's request and outcome extend those of the rows before it. */
  lemma Turn(dir: Path, rows: seq<Row>, listing: nat -> nat -> Listing, clock: nat -> ClockReading, i: nat,
             done: seq<RowOutcome>, o: RowOutcome, moves0: seq<MoveOp>, moves: seq<MoveOp>, requests: seq<Row>)
    requires i < |rows| && o == RowResult(dir, rows[i].depot, listing(i), clock(i))
    requires RunRows(RowResults(dir, rows, listing, clock), 0) == done + RunRows(RowResults(dir, rows, listing, clock), i)
    requires moves == (moves0 + MovesOf(done)) + (if o.Renamed? then [o.move] else [])
    requires requests == rows[..i] + [rows[i]]
    ensures moves == moves0 + MovesOf(done + [o]) && requests == rows[..i + 1]
    ensures Stopped(done + [o]) == o.Raised?
    ensures o.Raised? ==> RunRows(RowResults(dir, rows, listing, clock), 0) == done + [o]
    ensures !o.Raised? ==> RunRows(RowResults(dir, rows, listing, clock), 0)
                           == (done + [o]) + RunRows(RowResults(dir, rows, listing, clock), i + 1)
  {
    RowResultsAt(dir, rows, listing, clock, i);
    MovesTurn(RowResults(dir, rows, listing, clock), i, done, o, moves0, moves);
    PrefixSnoc(rows, i);
  }

  /** The row loop ends with the outcomes `done`: the requests and the folder's moves are
      those of the whole run. */
  lemma RunClosed(dir: Path, rows: seq<Row>, listing: nat -> nat -> Listing, clock: nat -> ClockReading,
                  done: seq<RowOutcome>, moves0: seq<MoveOp>, moves: seq<MoveOp>, requests: seq<Row>)
    requires RunRows(RowResults(dir, rows, listing, clock), 0) == done
    requires |done| <= |rows| && requests == rows[..|done|] && moves == moves0 + MovesOf(done)
    ensures var outs := Outcomes(dir, rows, listing, clock);
      && requests == rows[..|outs|]
      && moves == moves0 + MovesOf(outs)
      && Stopped(outs) == Stopped(done) && |outs| == |done|
  {
  }

  /** The row loop of `scrap_inventory`: every row is requested in dataset order until the
      last row or the first exception. */
  method ProcessRows(folder: Folder, rows: seq<Row>, listing: nat -> nat -> Listing, clock: nat -> ClockReading)
    returns (r: TaskResult, requests: seq<Row>)
    modifies folder`moves
    ensures var outs := Outcomes(folder.path, rows, listing, clock);
      && requests == rows[..|outs|]
      && folder.moves == old(folder.moves) + MovesOf(outs)
      && r == (if Stopped(outs) then Failed(ListingFailed(|outs| - 1)) else Finished)
  {
    ghost var results := RowResults(folder.path, rows, listing, clock);
    ghost var moves0 := folder.moves;
    requests := [];
    ghost var done: seq<RowOutcome> := [];
    var i := 0;
    while i < |rows|
      invariant 0 <= i <= |rows| && |done| == i
      invariant RunRows(results, 0) == done + RunRows(results, i)
      invariant !Stopped(done)
      invariant requests == rows[..i]
      invariant folder.moves == moves0 + MovesOf(done)
    {
      var row := rows[i];
      requests := requests + [row];
      var now := clock(i);
      var o := HandleRow(folder, row.depot, listing(i), now);
      Turn(folder.path, rows, listing, clock, i, done, o, moves0, folder.moves, requests);
      done := done + [o];
      if o.Raised? {
        RunClosed(folder.path, rows, listing, clock, done, moves0, folder.moves, requests);
        return Failed(ListingFailed(i)), requests;
      }
      i := i + 1;
    }
    RunRowsEnd(results, done);
    RunClosed(folder.path, rows, listing, clock, done, moves0, folder.moves, requests);
    return Finished, requests;
  }

  /** `scrap_inventory(driver, download_dir)`: opens the page, reads the dataset, then tries
      each row in order. `submit_request` swallows its own exceptions, so every row reached
      is requested; a time-out moves on to the next row; an exception from listing the folder
      ends the task. `listing(k)` is what the watcher sees for row k and `clock(k)` what the
      clock reads when row k's download is renamed. Nothing is written to report.txt. */
  method ScrapInventory(folder: Folder, navigated: bool, dataset: Option<seq<Row>>,
                        listing: nat -> nat -> Listing, clock: nat -> ClockReading)
    returns (r: TaskResult, requests: seq<Row>)
    modifies folder`moves
    ensures !navigated ==> r == Failed(NavigationFailed) && requests == [] && folder.moves == old(folder.moves)
    ensures navigated && dataset.None? ==> r == Failed(DatasetUnreadable) && requests == [] && folder.moves == old(folder.moves)
    ensures navigated && dataset.Some? ==>
              var outs := Outcomes(folder.path, dataset.value, listing, clock);
              && requests == dataset.value[..|outs|]
              && folder.moves == old(folder.moves) + MovesOf(outs)
              && r == (if Stopped(outs) then Failed(ListingFailed(|outs| - 1)) else Finished)
  {
    if !navigated {
      return Failed(NavigationFailed), [];
    }
    if dataset.None? {
      return Failed(DatasetUnreadable), [];
    }
    r, requests := ProcessRows(folder, dataset.value, listing, clock);
  }
}
