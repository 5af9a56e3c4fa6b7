# BizStream in Dafny

BizStream is a Telegram bot that logs into a state excise web portal with a browser, runs one of three
scrape tasks for the user (invoices, stock tables, inventory reports), zips the downloads and sends the
archive back. This project models the deterministic logic around that plumbing and proves what it
promises:

- **bot.py** (`bot.dfy`, module `Bot`): the `AUTHORIZED_USERS` list read from the environment, the
  per-user download folder, the `USER_SESSIONS` records, and the handlers `start`, `invoice_command`,
  `handle_invoice_date`, `initiate_task` (with `stock_command` and `inventory_command`),
  `handle_captcha` with its `try`/`except`/`finally`, `zip_download_folder` and `dynamic_router`.
  The running bot is the class `Bot.Bot`. Its `sessions` field is `USER_SESSIONS`. Every outward
  action is appended to its `effects` log: a chat message, a folder made or removed, a login, a
  task run, an archive.
- **module/invoice.py** and **module/inventory.py** (`downloads.dfy`, `invoice.dfy`,
  `inventory.dfy`): the polling download watcher `wait_for_download`, `rename_file`
  (which follows `os.path.splitext`), `log_failure`, and the row loops of `scrape_invoice` and
  `scrap_inventory`. The download folder is the class `Downloads.Folder`. It holds the renames made
  in it and the text of report.txt.
- **module/stock.py** (`stock.dfy`): `append_df_to_excel`, which covers creating the workbook and the
  sheet and the header rule. Also `submit_request` (an empty table is skipped, the "Depot" column is
  added, a save error is swallowed) and the `scrape_reports` loop. The workbook file is the class
  `Stock.Workbook`.
- **module/ocrdemo.py** (`ocr.dfy`): choosing the most confident word across the three
  tesseract configurations, the digit-and-length check, the bounded attempt loop with its `""`
  fallback, and `solve_captcha`.

Python semantics the core relies on are spelled out in the supporting modules:

- `text.dfy`: `str.strip`, `isdigit`, `in`, `endswith`, `replace(" ", "_")`, `split`, `str(int)` and
  `int(str)`.
- `paths.dfy`: `os.path.join` and `os.path.splitext`, plus the set of paths `shutil.rmtree` removes.
- `dates.dfy`: `datetime.strptime(s, '%d-%m-%Y')` and the three `strftime` formats used.
- `wrappers.dfy`: `Option`.

Everything outside the process becomes a parameter. That covers:

- what the browser and the portal do (`navigated`, `submitted(k)`, `pages(k)`);
- what each directory listing shows (`listing(k)(p)` for row k, poll p);
- what the clock reads (`clock(k)`, `today`);
- what tesseract returns (`ocr(a)(c)` for attempt a, configuration c);
- whether the CAPTCHA photo and the archive are sent (`photoSent`, `documentSent`);
- how the archiver fares (`ZipOutcome`).

The code has no session time-to-live, no lock on `USER_SESSIONS`, no submission retry, and
never removes a session after a job; neither has the model. `HandleCaptcha` may only change
`effects`.

## Model

| member | source | states |
|---|---|---|
| Bot.ParseFields | bot.py:20 | `list(map(int, fields))`: when every field is an integer, the list is those integers in order, one per field; when the result is `None`, some field is not an integer |
| Bot.DefaultRejected | bot.py:20 | without the variable, the default `""` splits into one empty field, and `int("")` fails, so the bot never starts |
| Bot.AuthorizedRoundTrip | bot.py:20-26 | writing any non-empty list of ids comma-separated and reading it back gives exactly that list, so a user is authorized iff their id is in it |
| Text.SplitJoin | bot.py:20 | `split` on the separator undoes joining fields that do not contain it |
| Text.JoinSplit | bot.py:20 | joining the fields of `s.split(sep)` with `sep` gives back `s` |
| Text.Split | bot.py:20 | `split` never returns an empty list, and no field contains the separator |
| Text.ParseIntBlank | bot.py:20 | `int()` of an all-whitespace string (the empty one included) fails |
| Text.ParseIntDecimal | bot.py:20 | `int(str(n)) == n` for every integer |
| Text.IntToDecimalInjective | bot.py:23 | different ids give different `str(user_id)` |
| Text.TrimStartDrops | bot.py:55 | `lstrip` removes exactly the leading whitespace: what is left is a suffix, and it does not start with whitespace |
| Text.TrimEndDrops | bot.py:55 | `rstrip` removes exactly the trailing whitespace: what is left is a prefix, and it does not end with whitespace |
| Text.StripKeeps | bot.py:135 | a string without whitespace at either end is its own `strip()` |
| Paths.Join | bot.py:23 | `os.path.join`: an absolute second part replaces the first; otherwise the result starts with the first part and ends with the second |
| Bot.PileShape | bot.py:22-23 | the user's folder is the temporary directory joined with `"{user_id}_bevco_downloads"`; it is never empty and never ends in a separator |
| Bot.PileNameInjective | bot.py:22-23 | different ids give different folder names |
| Bot.PileNotPrefix | bot.py:22-23 | no user's folder is another user's folder or a folder above it |
| Bot.PilesDisjoint | bot.py:173 | a path under one user's folder is never under another's, so one user's clean-up never removes another user's files |
| Bot.JobDirUnder | bot.py:104 | the job folder `pile/module/DD-MM-YYYY` and its archive `folder + ".zip"` both lie under the user's folder |
| Bot.TaskRelative | bot.py:92-95 | "invoice", "stock" and "inventory" are relative path components |
| Bot.DayRelative | bot.py:69 | a formatted date starts with a digit, so joining it onto the task folder never replaces that folder |
| Bot.RouteByKeys | bot.py:186 | the router's choice depends only on "module" and on whether "driver" is present, not on the other values |
| Bot.SetKeepsValid | bot.py:75-80 | writing a record of an allowed shape for an authorized user keeps every record valid |
| Bot.RouteSafe | bot.py:178-189 | on valid records, a user with no record (every unauthorized user) gets the prompt; the date handler gets only `{"module": "invoice"}`; the CAPTCHA handler gets only records with a driver and a folder under the user's folder |
| Bot.CanonicalParses | bot.py:62-63 | a date in `strftime('%d-%m-%Y')` form parses, and back to the same text |
| Bot.StoredDateParses | bot.py:79 | a stored date always parses, so `scrape_invoice` never fails on the date it is handed |
| Bot.CaptchaPhoto | bot.py:82-89 | the photo is sent only with a driver, a screenshot path and a successful send; otherwise a single error reply is sent; the record is written either way |
| Bot.DateSession | bot.py:61-80 | a record is written exactly for an authorized user whose date parses; it holds the browser, the folder under the user's folder, and the date re-emitted as `DD-MM-YYYY` |
| Bot.DateOutcome | bot.py:61-89 | an unparsable date gets the format error and nothing else (no folder, no record); a parsable one first makes the folder the record names, then sends the photo or the error about it |
| Bot.DateRoundTrip | bot.py:61-63 | the stored date is ten characters with dashes at positions 2 and 5, and re-parsing it gives the typed date |
| Dates.ParseFormatDMY | bot.py:62-63 | `strptime(strftime(d, '%d-%m-%Y'), '%d-%m-%Y') == d` for every date |
| Dates.CanonicalDate | bot.py:62-63 | whatever form the user typed (`"1-2-2024"`, `" 1-02-2024"`), its canonical form parses back to the same date |
| Dates.FormatDMYShape | bot.py:63 | the canonical form is `DD-MM-YYYY`: ten characters, with dashes at positions 2 and 5 and digits elsewhere |
| Bot.RefusalOnly | bot.py:57-59 | an unauthorized user gets only the refusal from the date and CAPTCHA handlers: no folder, no browser, no login, no record |
| Bot.AfterLoginRemovals | bot.py:147-165 | after the login, the only folder removed is the job's folder |
| Bot.AfterLoginNoRelogin | bot.py:147-165 | after the login there is no other login, and the only document sent is `"{module}.zip"` |
| Bot.AfterLoginDocument | bot.py:154-165 | the archive is sent exactly when the task returned, the folder was archived and removed, and the send succeeded |
| Bot.TryBlockActions | bot.py:144-169 | in the whole `try` block, the only login uses the stripped reply and needs a real driver; the document is sent exactly when the driver, the login, the task, the archive and the send all succeed |
| Bot.CaptchaCleansUp | bot.py:170-175 | with a record holding a driver and a folder, the handler opens with the progress message and ends by removing the user's whole folder on every path (the progress reply itself, before the `try`, is assumed to go out); every earlier removal is inside the job's folder |
| Bot.DocumentOnlyOnSuccess | bot.py:159-165 | `"{module}.zip"` is sent iff the browser, the login, the task, archiving, removal and the send all succeeded; no other document is ever sent |
| Bot.LoginNeedsSession | bot.py:125-145 | a login happens only for an authorized user with a record holding a real driver, and only with the stripped reply |
| Bot.Bot.constructor | bot.py:19-20 | the bot's users are exactly the parsed `AUTHORIZED_USERS`, and it starts with no records, no actions and valid records |
| Bot.Bot.Start | bot.py:38-43 | `start` replies with the menu to an authorized user, otherwise with the refusal; no record changes |
| Bot.Bot.InvoiceCommand | bot.py:45-51 | an authorized user's record, whatever it held, becomes exactly `{"module": "invoice"}` followed by the date prompt; an unauthorized user gets only the refusal |
| Bot.Bot.HandleInvoiceDate | bot.py:53-89 | the actions and the record are those of `DateEffects` and `DateSession` for the stripped reply, and the records stay valid |
| Bot.Bot.OpenInvoiceJob | bot.py:68-89 | once the date parses: the folder is made, the record holds the browser, the folder and the canonical date, and then the photo (or its error) is sent |
| Bot.Bot.InitiateTask | bot.py:97-123 | an authorized user gets the folder `pile/module/today`, the record with driver, module and folder, and the photo (or its error); an unauthorized user gets only the refusal; the records stay valid for a relative module name |
| Bot.Bot.StockCommand | bot.py:91-92 | `initiate_task("stock")`: an unauthorized user gets only the refusal, and the records are unchanged; an authorized user gets the folder `pile/stock/today`, the record holding it, and then the photo or its error; the records stay valid |
| Bot.Bot.InventoryCommand | bot.py:94-95 | `initiate_task("inventory")`: an unauthorized user gets only the refusal, and the records are unchanged; an authorized user gets the folder `pile/inventory/today`, the record holding it, and then the photo or its error; the records stay valid |
| Bot.Bot.ZipDownloadFolder | bot.py:28-36 | returns `dir + ".zip"` exactly when archiving and then removing the folder both succeed, and `None` otherwise; the folder is removed only after it has been archived |
| Bot.Bot.RunJob | bot.py:144-169 | the `try` block does what `TryBlock` describes: a missing driver fails at once, a failed login only quits the driver, otherwise the task and archive steps follow |
| Bot.Bot.RunTaskAndSend | bot.py:147-165 | the task runs with `session.get("date")` for invoices; it then quits the driver, archives the folder, deletes the progress message and sends the archive when there is one |
| Bot.Bot.HandleCaptcha | bot.py:125-176 | the actions are those of `CaptchaEffects` for the stripped reply; with text replies assumed to go out, the handler raises only on a record without "driver" or "download_dir"; no record is changed or removed |
| Bot.Bot.DynamicRouter | bot.py:178-189 | no record gives the prompt and nothing else; `{"module": "invoice"}` goes to the date handler; every other record goes to the CAPTCHA handler; on valid records nothing raises and the records stay valid |
| Downloads.FirstCompleted | module/invoice.py:19-21 | the position of the first name in listing order that contains the fragment and does not end in ".crdownload" |
| Downloads.AwaitFoundCompleted | module/invoice.py:20-21 | a returned name contains the fragment and is not a partial download |
| Downloads.AwaitTimedOut | module/invoice.py:18-23 | the watcher times out iff every one of the `timeout` polls listed the folder and found nothing finished |
| Downloads.AwaitFirstHit | module/invoice.py:18-21 | the first poll with a finished download decides, and its first match in listing order is returned |
| Downloads.WaitForDownload | module/invoice.py:17-23 | at most `timeout` polls; it returns at the first poll with a match, with that poll's first match; it times out only after `timeout` polls without one; a listing error ends it at once. The same function is at module/inventory.py:21-27 |
| Downloads.Folder.MoveFile | module/invoice.py:47 | one `shutil.move` is added to the folder's renames, and nothing else changes |
| Downloads.Folder.AppendReport | module/invoice.py:51-52 | report.txt in append mode: the old text is kept and the line is added at its end |
| Downloads.RunRows | module/invoice.py:60-73 | a run of the row loop never yields more outcomes than there are rows left |
| Downloads.RunRowsInOrder | module/invoice.py:60 | outcome k of the run is the outcome of row i + k: the rows are visited in order, each once |
| Downloads.RunRowsStop | module/invoice.py:60-73 | only the last outcome can be an exception, and the run stops short of the last row only because of one |
| Downloads.RunRowsComplete | module/invoice.py:60-73 | when no row raises, every row is visited and the run does not stop |
| Downloads.Accounting | module/invoice.py:60-73 | for any row loop, every completed row left exactly one of these: a rename, a report line, or nothing (the inventory loop's time-out) |
| Invoice.InvoiceAccounting | module/invoice.py:60-73 | every invoice row the task completed left exactly one trace, a rename or a report line; only the row that raised, always the last, leaves neither |
| Paths.SplitExt | module/invoice.py:45 | `os.path.splitext`: the two parts make up the name, and the extension is empty or a '.' followed by no further '.' or '/' |
| Paths.SplitExtOfName | module/invoice.py:45 | a stem that is not only dots, followed by `.ext`, splits into exactly that stem and `.ext` |
| Paths.ExtKept | module/invoice.py:43-47 | a stem that is a plain name plus the old extension keeps that extension |
| Text.ReplaceSpaces | module/invoice.py:67 | `replace(" ", "_")`: the same length, every space becomes '_', every other character is kept in place |
| Invoice.RenameFile | module/invoice.py:43-47 | the download `dir/old` moves to `dir/new + ext(old)` |
| Invoice.LogFailure | module/invoice.py:49-52 | exactly one line `"[DD-MM-YYYY] destination - reason\n"` is appended to report.txt |
| Invoice.FormatSlashedShape | module/invoice.py:35 | the date is submitted as `DD/MM/YYYY` |
| Invoice.NeverNoFileName | module/invoice.py:66-70 | a found invoice always has a name, so a logged row is always a time-out |
| Invoice.OutcomesInOrder | module/invoice.py:60-73 | outcome k is row k, submitted with the date and waited for |
| Invoice.OutcomesStop | module/invoice.py:60-73 | only the last outcome can be an exception; a time-out does not end the task, and the task stops before the last row only on an exception |
| Invoice.RequestsForAt | module/invoice.py:60-63 | request k names row k's warehouse and carries the date in `DD/MM/YYYY` form |
| Invoice.HandleRow | module/invoice.py:63-73 | one row: a failed submission raises; a found download is renamed after the warehouse with '_' for spaces; a time-out appends its "Time-Out" line; the folder gains that row's trace and nothing else |
| Invoice.ProcessRows | module/invoice.py:60-76 | the rows in dataset order until the first exception: the requests, the renames and the report lines are those of the outcomes, in order, and an exception names its row |
| Invoice.ScrapeInvoice | module/invoice.py:54-76 | an unreadable dataset, a failed navigation or a bad date ends the task before any request; otherwise the date is parsed once, then the row loop runs and the task returns the download folder |
| Dates.FormatStampShape | module/inventory.py:65 | the stamp is `YYYYMMDD_HHMMSS`: fifteen characters, with '_' at position 8 and digits elsewhere |
| Dates.FormatStampInjective | module/inventory.py:65 | two different instants never give the same stamp |
| Text.ReplaceSpacesIdempotent | module/inventory.py:65 | after the replacement no space is left, so a second replacement changes nothing |
| Inventory.DoubleReplace | module/inventory.py:80 | replacing the spaces at the call and again inside `rename_file` is the same as replacing them once |
| Inventory.NewStemShape | module/inventory.py:65 | the new stem is the fifteen-character stamp, '_', then the depot with '_' for spaces |
| Inventory.NewStemDistinct | module/inventory.py:65 | renames made at clock readings at least a second apart never collide, whatever the depots |
| Inventory.RenameKeepsExt | module/inventory.py:63-68 | the renamed download keeps its extension |
| Inventory.RenameFile | module/inventory.py:63-68 | the download `dir/old` moves to `dir/stamp_depot + ext(old)` |
| Inventory.OutcomesInOrder | module/inventory.py:73-84 | outcome k is row k's wait and rename, at the time the clock reads for row k |
| Inventory.OutcomesStop | module/inventory.py:73-84 | only the last outcome can be an exception; a time-out does not stop the task |
| Inventory.OutcomesComplete | module/inventory.py:73-84 | when the folder can always be listed, every row is tried and the task finishes |
| Inventory.NeverRaisesWithEntries | module/inventory.py:77-84 | a row raises only when some poll failed to list the folder |
| Inventory.AwaitNoListError | module/inventory.py:21-27 | without listing failures the watcher never raises anything but its time-out |
| Inventory.RenamesAreStamped | module/inventory.py:78-80 | every rename of the task is a finished download moved to the depot's stamped name with its extension |
| Inventory.HandleRow | module/inventory.py:77-84 | one row: a found download is renamed; a time-out leaves no trace in the folder; a listing error raises |
| Inventory.ProcessRows | module/inventory.py:73-84 | every row is requested in dataset order until the first exception, and the renames are those of the outcomes, in order |
| Inventory.ScrapInventory | module/inventory.py:70-85 | a failed navigation or an unreadable dataset ends the task before any request; otherwise the rows are tried in order until the first listing error, and nothing is written to report.txt |
| Stock.WithDepot | module/stock.py:43 | `df.insert(0, "Depot", destination)`: it fails iff a "Depot" column exists; otherwise "Depot" is the first column, every row starts with the destination, and dropping that column gives back the table |
| Stock.WithDepotNotEmpty | module/stock.py:40-43 | adding the column keeps a non-empty table non-empty |
| Stock.RowsToAppend | module/stock.py:61 | `dataframe_to_rows`: the column names first when `header` holds, then the data rows in order |
| Stock.AppendOnly | module/stock.py:51-65 | appending never changes or reorders the rows already in "Sheet1" and keeps every other sheet; a successful append adds exactly the table's rows at the end; a failed one changes nothing but the new empty workbook |
| Stock.HeaderOnlyWhenEmpty | module/stock.py:61 | where "Sheet1" never holds exactly one row, the header is written exactly when the sheet is empty |
| Stock.NeverOneRowKept | module/stock.py:61 | appending a table with rows never leaves "Sheet1" with exactly one row, whatever fails |
| Stock.RunNeverOneRow | module/stock.py:61 | starting from a file without a one-row "Sheet1" (no file, or one an earlier job left), no file a job can leave has exactly one row in "Sheet1", so the header test `max_row == 1` is the same as the sheet being empty |
| Stock.Workbook.constructor | module/stock.py:29 | every depot of a job appends to the one file `download_dir/stocks.xlsx`; the model starts with no file, and `ScrapeReports` is stated for any earlier file, such as one a same-day job left behind when it died before its `finally` |
| Stock.Workbook.AppendTable | module/stock.py:51-65 | the file is what `Appended` describes: a missing file is created and saved first; "Sheet1" is created when absent; the rows, with the header when `max_row` is 1, are appended one by one; the whole is saved |
| Stock.StepFor | module/stock.py:36-49 | a depot whose page cannot be read raises; an empty table is skipped; a non-empty one is appended with its "Depot" column |
| Stock.Run | module/stock.py:67-72 | the loop selects depots in order, and a finished run has selected every depot |
| Stock.RunFailsAtLast | module/stock.py:67-72 | a run that raises names the last depot it selected, and only a page failure or a duplicate "Depot" column ends it early |
| Stock.AppendedFileOf | module/stock.py:61-62 | saving one more non-empty table extends "Sheet1" by its data rows only |
| Stock.RunFaultFree | module/stock.py:67-73 | when nothing fails, every depot is selected once, in order; "Sheet1" holds the first saved table's column names followed by the rows of every non-empty table in dataset order; with no such table, no file exists |
| Stock.SubmitRequest | module/stock.py:28-49 | the step taken is `StepFor`'s; only an appended table touches the file; a save error is swallowed |
| Stock.ScrapeReports | module/stock.py:67-74 | a failed navigation or an unreadable dataset ends the job at once; otherwise the depots are submitted in order as `Run` describes, and the driver is quit iff the loop finished |
| Ocr.SelectThenFold | module/ocrdemo.py:66-73 | running the choice on over more words equals choosing over all the words, so the running best carries from one configuration to the next |
| Ocr.SelectBound | module/ocrdemo.py:70-73 | the chosen confidence is never negative and at least that of every eligible word |
| Ocr.SelectNone | module/ocrdemo.py:63-73 | the choice stays at `("", 0)` exactly when no word has positive confidence and non-blank text |
| Ocr.SelectEarliestMax | module/ocrdemo.py:70-73 | the chosen word is the earliest of the most confident eligible words, stripped |
| Ocr.CallsOf | module/ocrdemo.py:57-61 | every attempt makes one call per configuration, three in all |
| Ocr.AcceptedShape | module/ocrdemo.py:78 | an accepted answer has one to six characters, all digits; it is never empty |
| Ocr.SolveFirstAccepted | module/ocrdemo.py:52-92 | the answer is `""` or accepted, and it is `""` exactly when no attempt gave an accepted text |
| Ocr.ConsiderWord | module/ocrdemo.py:71-73 | one word replaces the best only with a strictly greater confidence and non-blank stripped text |
| Ocr.ScanWords | module/ocrdemo.py:70-73 | the loop over one call's words leaves the choice `Fold` describes, running on from the best so far |
| Ocr.ReadAttempt | module/ocrdemo.py:63-73 | an attempt starts from `("", 0)`, scans every call's words in order and gives the chosen text; an exception from a call ends the attempt with no text |
| Ocr.SolveCaptchaImage | module/ocrdemo.py:50-92 | at most `max_attempts` attempts; the first accepted text is returned; a failed attempt does not stop the next one; the fallback is `""` |
| Ocr.SolveCaptcha | module/ocrdemo.py:94-109 | a failed screenshot gives `""`; otherwise the answer is `solve_captcha_image`'s with three attempts, and it is `""` or one to six digits |

## Left out

- Selenium is represented only by its outcomes: navigation, the selectors and clicks of every `submit_request`, and the page contents. `setup_browser`, `get_captcha_image` and `login` (module/login.py) are left out; the model sees only whether a browser started and whether the login succeeded. A real browser is `Browser(id)` and a failed start is `NoBrowser`.
- Telegram, `asyncio`, `to_thread` and `sleep` are left out. Every reply, photo, document and deletion is an `Effect` in the log. Only the CAPTCHA photo (`photoSent`) and the archive (`documentSent`) can fail; text replies and deletions are assumed to go out.
- Invoice.RenameFile, Invoice.LogFailure, Inventory.RenameFile: these always succeed. In the source, a failing `shutil.move` (module/invoice.py:47, module/inventory.py:68) or a failing append to report.txt (module/invoice.py:51-52) raises past `except TimeoutError` and ends the task, as a listing error does. The model has no such failure, so `HandleRow` and `ProcessRows` never stop because of one.
- The program's I/O is left out: the spreadsheet datasets read with pandas, real directory listings, the wall clock (`today`, `clock(k)`), `os.makedirs` failures and `shutil` internals. Each of these is a parameter or an abstract effect.
- Image preprocessing (OpenCV, PIL, module/ocrdemo.py:18-48) and tesseract are foreign numerics. The OCR output is given as token data.
- Bot.Bot.HandleCaptcha: when `login` fails, it quits the driver and calls `exit()`. The `SystemExit` passes `except Exception` and is swallowed by the `return` in `finally`. The model keeps only the driver quit. The user gets no error message and the progress message stays.
- Bot.Bot.HandleCaptcha, Bot.CaptchaCleansUp: the progress reply (bot.py:142) comes before the `try` (bot.py:144). If it failed, the handler would raise with the record still in place, and the `finally` (bot.py:170-176) would not remove the user's folder. The model assumes that reply goes out.
- Bot.Bot.RunJob: with `NoBrowser`, `login` raises and the handler's own `driver.quit()` raises again. The model records the deletion of the progress message and the error reply that precede that second exception.
- Bot.CaptchaPhoto: the exception text after "Error sending CAPTCHA: " is not modelled. Likewise the text after "Error: " in the task error.
- Bot.Bot.DynamicRouter: like the source, it does not check authorization itself. An unauthorized user never has a record (`Valid`), so they get the start prompt.
- Bot.Bot.InitiateTask: the records stay valid only for a module name that is not absolute. The source only ever passes the three task names.
- Inventory.NewStemDistinct: a `ClockReading` holds whole seconds; `datetime.now()` also has microseconds, which the stamp drops. Two rows renamed in the same second with the same depot get the same target, so the second `shutil.move` overwrites the first; `Folder.moves` records both moves and does not show the overwrite.
- Dates.FormatDMY: always pads the year to four digits. Python's `strftime('%Y')` for years below 1000 depends on the platform.
- Text.IsDigit, Dates.ParseDMY: only ASCII digits count. Python's `isdigit`, `int()` and the `\d` of `strptime(s, '%d-%m-%Y')` also accept other Unicode decimal digits, so "01-03-٢٠٢٤" parses in Python but not in the model.
- Ocr.Accepted: follows the code (`0 <= len(best_text) <= 6` together with `isdigit`, so 1 to 6 digits). The code's comment speaks of 4 to 6 digits.
- Ocr.SolveCaptchaImage: the alternative image built after the second attempt (module/ocrdemo.py:82-86) is replaced at the start of the next attempt before it is read, so it has no part in the model. The printed messages are left out too.
- Invoice.HandleRow, Inventory.HandleRow: the empty-name branch (the "No file Name" `log_failure`, module/invoice.py:69-70, and inventory's "no data" print, module/inventory.py:81-82) is modelled only in `Invoice.RowResult` and `Inventory.RowResult`. Both methods have a proved `assert false` there, since a found download always has a name (`NeverNoFileName`).
- Stock.Workbook: the order of sheets and the types of cell values are not modelled. A cell is text.
- `main()`, the handler registration and polling (bot.py:191-203) are left out, as are module/mailer.py, module/tesst.py, app.py and the three test scripts, which drive a live browser.
