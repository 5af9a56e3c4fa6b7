/** The Telegram front end (bot.py): who may use the bot, where each user's downloads go,
    the per-user session records, and the handlers that read and write them. The chat
    transport, the browser, the scrape tasks and the archiver are given as their outcomes,
    and every outward action a handler takes is recorded in an effect log. */
module Bot {
  import opened Wrappers
  import opened Text
  import opened Paths
  import opened Dates

  // ---------------------------------------------------------------- AUTHORIZED_USERS

  /** `list(map(int, fields))`: every field read as an integer, or `None` when one is not. */
  function ParseFields(fields: seq<string>): (r: Option<seq<int>>)
    ensures r.Some? ==> |r.value| == |fields| && forall k :: 0 <= k < |fields| ==> ParseInt(fields[k]) == Some(r.value[k])
    ensures r.None? ==> exists k :: 0 <= k < |fields| && ParseInt(fields[k]).None?
  {
    if forall k :: 0 <= k < |fields| ==> ParseInt(fields[k]).Some? then
      Some(seq(|fields|, k requires 0 <= k < |fields| => ParseInt(fields[k]).value))
    else None
  }

  /** The `AUTHORIZED_USERS` list read at start-up from the environment variable (absent:
      the default ""). `None` means the module fails to load, so the bot never starts. */
  function AuthorizedUsers(env: Option<string>): Option<seq<int>> {
    ParseFields(Split(if env.Some? then env.value else "", ','))
  }

  /** `is_user_authorized(user_id)`. */
  predicate IsUserAuthorized(users: seq<int>, userId: int) {
    userId in users
  }

  /** Without the variable the default "" is one empty field, and `int("")` fails. */
  lemma DefaultRejected()
    ensures AuthorizedUsers(None) == None
  {
    var fields := Split("", ',');
    assert fields == [""];
    ParseIntBlank("");
    assert ParseInt(fields[0]).None?;
  }

  /** `str(n)` of every id. */
  function Decimals(ids: seq<int>): (r: seq<string>)
    ensures |r| == |ids| && forall k :: 0 <= k < |ids| ==> r[k] == IntToDecimal(ids[k])
  {
    seq(|ids|, k requires 0 <= k < |ids| => IntToDecimal(ids[k]))
  }

  /** Writing a non-empty list of ids comma-separated and reading it back gives the list:
      exactly those users, and no one else, are authorized. */
  lemma AuthorizedRoundTrip(ids: seq<int>)
    requires |ids| >= 1
    ensures AuthorizedUsers(Some(JoinWith(Decimals(ids), ','))) == Some(ids)
    ensures forall u :: IsUserAuthorized(AuthorizedUsers(Some(JoinWith(Decimals(ids), ','))).value, u) <==> u in ids
  {
    var fields := Decimals(ids);
    forall k | 0 <= k < |fields| ensures ',' !in fields[k] && ParseInt(fields[k]) == Some(ids[k]) {
      IntToDecimalChars(ids[k]);
      ParseIntDecimal(ids[k]);
    }
    SplitJoin(fields, ',');
    assert ParseFields(fields).value == ids;
  }

  // ---------------------------------------------------------------- download folders

  /** The name of a user's folder under the temporary directory. */
  function PileName(userId: int): string {
    IntToDecimal(userId) + "_bevco_downloads"
  }

  /** `download_pile_path(user_id)`, under the temporary directory `tmp`. */
  function DownloadPilePath(tmp: Path, userId: int): Path {
    Join(tmp, PileName(userId))
  }

  /** The folder a job downloads into: the user's folder, then the module, then the date. */
  function JobDir(tmp: Path, userId: int, task: string, day: string): Path {
    Join(Join(DownloadPilePath(tmp, userId), task), day)
  }

  /** `tmp` with the separator `os.path.join` puts after it. */
  function JoinPrefix(tmp: Path): Path {
    if tmp == "" || EndsWith(tmp, "/") then tmp else tmp + "/"
  }

  lemma JoinRelative(tmp: Path, name: string)
    requires !StartsWith(name, "/")
    ensures Join(tmp, name) == JoinPrefix(tmp) + name
  {
  }

  lemma PileNameChars(userId: int)
    ensures |PileName(userId)| > 0 && PileName(userId)[0] != '/'
    ensures '/' !in PileName(userId)
    ensures PileName(userId)[|PileName(userId)| - 1] == 's'
  {
    IntToDecimalChars(userId);
    var d := IntToDecimal(userId);
    var n := PileName(userId);
    forall i | 0 <= i < |n| ensures n[i] != '/' {
      if i < |d| { assert n[i] == d[i]; }
    }
  }

  lemma StartsWithTrans(s: string, t: string, u: string)
    requires StartsWith(s, t) && StartsWith(t, u)
    ensures StartsWith(s, u)
  {
    assert s[..|u|] == s[..|t|][..|u|];
  }

  /** The user's folder is not empty and does not end in a separator. */
  lemma PileShape(tmp: Path, userId: int)
    ensures var base := DownloadPilePath(tmp, userId);
      base != "" && !EndsWith(base, "/") && base == JoinPrefix(tmp) + PileName(userId)
  {
    var name := PileName(userId);
    PileNameChars(userId);
    assert name[..1] == [name[0]];
    JoinRelative(tmp, name);
    NotEndsWithSlash(JoinPrefix(tmp) + name);
  }

  /** A path whose last character is 's' does not end with a separator. */
  lemma NotEndsWithSlash(p: Path)
    requires |p| > 0 && p[|p| - 1] == 's'
    ensures !EndsWith(p, "/")
  {
    assert p[|p| - 1..] == [p[|p| - 1]];
  }

  /** A job's folder, and the archive made next to it, lie inside the user's folder, so
      removing the user's folder removes both. */
  lemma JobDirUnder(tmp: Path, userId: int, task: string, day: string)
    requires !StartsWith(task, "/") && !StartsWith(day, "/")
    ensures Under(JobDir(tmp, userId, task, day), DownloadPilePath(tmp, userId))
    ensures Under(JobDir(tmp, userId, task, day) + ".zip", DownloadPilePath(tmp, userId))
  {
    var base := DownloadPilePath(tmp, userId);
    PileShape(tmp, userId);
    var m := Join(base, task);
    assert m == base + "/" + task;
    assert m[..|base| + 1] == base + "/";
    var j := Join(m, day);
    StartsWithTrans(j, m, base + "/");
    assert (j + ".zip")[..|j|] == j;
    StartsWithTrans(j + ".zip", j, base + "/");
  }

  /** Two paths that both lie under `x` and under `y`, the shorter first: `x + "/"` opens `y + "/"`. */
  lemma UnderBoth(p: Path, x: Path, y: Path)
    requires Under(p, x) && Under(p, y) && |x| <= |y|
    ensures (y + "/")[..|x| + 1] == x + "/"
  {
    var q := p + "/";
    assert q[..|x| + 1] == x + "/";
    assert q[..|y| + 1] == y + "/";
    assert (y + "/")[..|x| + 1] == q[..|y| + 1][..|x| + 1];
  }

  /** Different ids give different folder names. */
  lemma PileNameInjective(a: int, b: int)
    requires PileName(a) == PileName(b)
    ensures a == b
  {
    assert IntToDecimal(a) == PileName(a)[..|PileName(a)| - 16];
    assert IntToDecimal(b) == PileName(b)[..|PileName(b)| - 16];
    IntToDecimalInjective(a, b);
  }

  /** Below a common prefix, a name without separators is only opened by itself. */
  lemma SameParentPrefix(j: string, na: string, nb: string)
    requires '/' !in nb && |j + na| <= |j + nb|
    requires (j + nb + "/")[..|j + na| + 1] == j + na + "/"
    ensures na == nb
  {
    var x, y := j + na, j + nb;
    assert (y + "/")[|x|] == '/';
    if |x| == |y| {
      assert x == (y + "/")[..|x|] == y;
      assert na == x[|j|..] == y[|j|..] == nb;
    }
  }

  /** No user's folder is a proper ancestor of another's, nor the same folder. */
  lemma PileNotPrefix(tmp: Path, a: int, b: int)
    requires a != b
    ensures var x, y := DownloadPilePath(tmp, a), DownloadPilePath(tmp, b);
      |x| <= |y| ==> (y + "/")[..|x| + 1] != x + "/"
  {
    var x, y := DownloadPilePath(tmp, a), DownloadPilePath(tmp, b);
    var j, na, nb := JoinPrefix(tmp), PileName(a), PileName(b);
    PileShape(tmp, a);
    PileShape(tmp, b);
    PileNameChars(b);
    assert x == j + na && y == j + nb;
    if |x| <= |y| && (y + "/")[..|x| + 1] == x + "/" {
      SameParentPrefix(j, na, nb);
      PileNameInjective(a, b);
    }
  }

  /** Different users' folders share no path: one user's clean-up never removes another's files. */
  lemma PilesDisjoint(tmp: Path, a: int, b: int, p: Path)
    requires a != b && Under(p, DownloadPilePath(tmp, a))
    ensures !Under(p, DownloadPilePath(tmp, b))
  {
    var x, y := DownloadPilePath(tmp, a), DownloadPilePath(tmp, b);
    if Under(p, y) {
      if |x| <= |y| {
        UnderBoth(p, x, y);
        PileNotPrefix(tmp, a, b);
      } else {
        UnderBoth(p, y, x);
        PileNotPrefix(tmp, b, a);
      }
    }
  }

  // ---------------------------------------------------------------- sessions

  /** What `setup_browser` returned: a driver, or `None` when Chrome could not be started. */
  datatype Driver = Browser(id: nat) | NoBrowser

  /** One `USER_SESSIONS` record. Every record has a "module"; `None` marks a key that is
      absent (a present "driver" key can hold a `None` driver). */
  datatype Session = Session(task: string, driver: Option<Driver>, downloadDir: Option<Path>, date: Option<string>)

  /** What `invoice_command` stores: `{"module": "invoice"}`. */
  function InvoiceStart(): Session {
    Session("invoice", None, None, None)
  }

  /** The modules `handle_captcha` knows how to run. */
  predicate IsTask(task: string) {
    task == "invoice" || task == "stock" || task == "inventory"
  }

  /** A task name is a relative path component. */
  lemma TaskRelative(task: string)
    requires IsTask(task)
    ensures !StartsWith(task, "/")
  {
    assert task[..1] == [task[0]];
  }

  /** The handler `dynamic_router` passes a text message to. */
  datatype Handler = PleaseStart | DateHandler | CaptchaHandler

  /** `dynamic_router`'s decision, made on which keys are present and not on their values. */
  function Route(s: Option<Session>): Handler {
    if s.None? then PleaseStart
    else if s.value.task == "invoice" && s.value.driver.None? then DateHandler
    else CaptchaHandler
  }

  /** Two records with the same module and the same "driver" key presence go the same way. */
  lemma RouteByKeys(s: Session, t: Session)
    requires s.task == t.task && s.driver.Some? == t.driver.Some?
    ensures Route(Some(s)) == Route(Some(t))
  {
  }

  /** A date as `strftime('%d-%m-%Y')` writes it. */
  ghost predicate Canonical(date: string) {
    exists d: CalendarDate :: date == FormatDMY(d)
  }

  /** A canonical date parses, and back to itself. */
  lemma CanonicalParses(date: string)
    requires Canonical(date)
    ensures ParseDMY(date).Some? && FormatDMY(ParseDMY(date).value) == date
  {
    var d: CalendarDate :| date == FormatDMY(d);
    ParseFormatDMY(d);
  }

  /** The shapes a record can have: the one `invoice_command` writes, or one written once
      the browser was set up, with folder, driver and (for invoices) a canonical date. */
  ghost predicate SessionShape(tmp: Path, userId: int, s: Session) {
    || s == InvoiceStart()
    || (&& s.driver.Some? && s.downloadDir.Some?
        && Under(s.downloadDir.value, DownloadPilePath(tmp, userId))
        && (s.date.Some? ==> Canonical(s.date.value)))
  }

  /** Only authorized users have records, and every record has one of the two shapes. */
  ghost predicate SessionsValid(users: seq<int>, tmp: Path, sessions: map<int, Session>) {
    forall u :: u in sessions ==> u in users && SessionShape(tmp, u, sessions[u])
  }

  /** Writing a record of either shape for an authorized user keeps the records valid. */
  lemma SetKeepsValid(users: seq<int>, tmp: Path, sessions: map<int, Session>, u: int, s: Session)
    requires SessionsValid(users, tmp, sessions) && u in users && SessionShape(tmp, u, s)
    ensures SessionsValid(users, tmp, sessions[u := s])
  {
  }

  /** On valid records the router sends a user without a record to the prompt (so an
      unauthorized user never reaches a handler's work), the date handler gets only the
      `invoice_command` record, and the CAPTCHA handler only a record with a driver and a
      folder, so its `session["driver"]` and `session["download_dir"]` never fail. */
  lemma RouteSafe(users: seq<int>, tmp: Path, sessions: map<int, Session>, u: int)
    requires SessionsValid(users, tmp, sessions)
    ensures u !in users ==> u !in sessions && Route(None) == PleaseStart
    ensures u in sessions && Route(Some(sessions[u])) == DateHandler ==> sessions[u] == InvoiceStart()
    ensures u in sessions && Route(Some(sessions[u])) == CaptchaHandler ==>
              sessions[u].driver.Some? && sessions[u].downloadDir.Some?
              && Under(sessions[u].downloadDir.value, DownloadPilePath(tmp, u))
  {
  }

  /** A record that carries a date carries one `scrape_invoice` can parse, so the invoice
      task never stops on a bad date. */
  lemma StoredDateParses(users: seq<int>, tmp: Path, sessions: map<int, Session>, u: int)
    requires SessionsValid(users, tmp, sessions) && u in sessions && sessions[u].date.Some?
    ensures ParseDMY(sessions[u].date.value).Some?
  {
    CanonicalParses(sessions[u].date.value);
  }

  // ---------------------------------------------------------------- effects

  /** An outward action: a chat message, a change on disk or in the browser, or a task run. */
  datatype Effect =
    | Reply(text: string)
    | ReplyPhoto(path: Path)
    | SendDocument(filename: string, path: Path)
    | DeleteProgress
    | MakeDirs(path: Path)
    | LogIn(captcha: string)
    | QuitBrowser
    | RunTask(task: string, downloadDir: Path, date: Option<string>)
    | Archive(dir: Path)
    | RemoveTree(path: Path)

  const NotAuthorized := "\U{274C} You are not authorized to use this bot."
  const Menu := "Hi! Choose a task:\n- /invoice\n- /stock\n- /inventory"
  const DatePrompt := "\U{1F4C5} Please send the date for the invoice in DD-MM-YYYY format."
  const InvalidDate := "\U{274C} Invalid date format. Use DD-MM-YYYY."
  /** The error reply when the CAPTCHA photo cannot be sent (the exception text follows it). */
  const CaptchaSendError := "\U{274C} Error sending CAPTCHA: "
  const SessionExpired := "Session expired. Please try /start again."
  const Progress := "\U{23F3} Processing your task... Please wait."
  /** The error reply when the task fails (the exception text follows it). */
  const TaskError := "\U{274C} Error: "
  const StartPrompt := "Please start with /invoice, /stock, or /inventory."

  /** Sending the CAPTCHA photo: `get_captcha_image` gives no path without a driver, and a
      missing path or a failed send only produces an error reply. */
  function CaptchaPhoto(browser: Driver, shot: Option<Path>, photoSent: bool): (r: seq<Effect>)
    ensures |r| == 1 && (r[0].ReplyPhoto? <==> browser.Browser? && shot.Some? && photoSent)
  {
    if browser.Browser? && shot.Some? && photoSent then [ReplyPhoto(shot.value)] else [Reply(CaptchaSendError)]
  }

  // ---------------------------------------------------------------- handle_invoice_date

  /** A formatted date starts with a digit, so joining it onto a folder never replaces the folder. */
  lemma DayRelative(d: CalendarDate)
    ensures !StartsWith(FormatDMY(d), "/")
  {
    var t := FormatDMY(d);
    FormatDMYShape(d);
    assert IsDigit(t[0]) && t[..1] == [t[0]];
  }

  /** The record `handle_invoice_date` writes, if it gets that far, given what `strptime`
      made of the stripped reply: the date in canonical form, the browser and the job folder.
      The record is written for every authorized user whose date parses, and it has the shape
      that sends the next reply to the CAPTCHA handler. */
  function DateSession(users: seq<int>, tmp: Path, u: int, parsed: Option<CalendarDate>, browser: Driver): (r: Option<Session>)
    ensures r.Some? <==> u in users && parsed.Some?
    ensures r.Some? ==> SessionShape(tmp, u, r.value) && r.value.driver == Some(browser)
    ensures r.Some? ==> r.value.date == Some(FormatDMY(parsed.value))
  {
    if u !in users || parsed.None? then None
    else
      var day := FormatDMY(parsed.value);
      DayRelative(parsed.value);
      JobDirUnder(tmp, u, "invoice", day);
      Some(Session("invoice", Some(browser), Some(JobDir(tmp, u, "invoice", day)), Some(day)))
  }

  /** What `handle_invoice_date` does outwardly, given what `strptime` made of the reply. */
  function DateEffects(users: seq<int>, tmp: Path, u: int, parsed: Option<CalendarDate>, browser: Driver, shot: Option<Path>, photoSent: bool): seq<Effect> {
    if u !in users then [Reply(NotAuthorized)]
    else if parsed.None? then [Reply(InvalidDate)]
    else [MakeDirs(JobDir(tmp, u, "invoice", FormatDMY(parsed.value)))] + CaptchaPhoto(browser, shot, photoSent)
  }

  /** A date that does not parse gets the format error and nothing else: no folder, no
      browser, no record. A date that parses gets its folder made first, the one the record
      names, and the CAPTCHA photo (or the error about it) last. */
  lemma DateOutcome(users: seq<int>, tmp: Path, u: int, parsed: Option<CalendarDate>, browser: Driver, shot: Option<Path>, photoSent: bool)
    requires u in users
    ensures var e, s := DateEffects(users, tmp, u, parsed, browser, shot, photoSent), DateSession(users, tmp, u, parsed, browser);
      && (parsed.None? ==> e == [Reply(InvalidDate)] && s.None?)
      && (parsed.Some? ==> |e| == 2 && e[0] == MakeDirs(s.value.downloadDir.value) && (e[1].ReplyPhoto? || e[1] == Reply(CaptchaSendError)))
  {
  }

  /** The stored date is the typed one in "DD-MM-YYYY" form: it reads back as the same date. */
  lemma DateRoundTrip(users: seq<int>, tmp: Path, u: int, input: string, browser: Driver)
    requires u in users && ParseDMY(input).Some?
    ensures var s := DateSession(users, tmp, u, ParseDMY(input), browser);
      && s.Some? && s.value.date.Some? && ParseDMY(s.value.date.value) == ParseDMY(input)
      && |s.value.date.value| == 10 && s.value.date.value[2] == '-' && s.value.date.value[5] == '-'
  {
    CanonicalDate(input);
    FormatDMYShape(ParseDMY(input).value);
  }

  // ---------------------------------------------------------------- handle_captcha

  /** How `zip_download_folder` fares: the archive fails, the archive is made but removing the
      folder fails (it still returns `None`), or both succeed. */
  datatype ZipOutcome = ZipFailed | RemoveFailed | Zipped

  /** What the job can meet after the CAPTCHA reply: whether `login` gets past the form,
      whether the task returns, how the archiver fares, and whether the document is sent. */
  datatype CaptchaEnv = CaptchaEnv(loginOk: bool, taskOk: bool, zip: ZipOutcome, documentSent: bool)

  /** The disk actions of `zip_download_folder(dir)`. */
  function ZipEffects(dir: Path, outcome: ZipOutcome): seq<Effect> {
    match outcome
      case ZipFailed => []
      case RemoveFailed => [Archive(dir)]
      case Zipped => [Archive(dir), RemoveTree(dir)]
  }

  /** The date `handle_captcha` hands to the task: `session.get("date")` for invoices. */
  function TaskDate(s: Session): Option<string> {
    if s.task == "invoice" then s.date else None
  }

  /** The `try` block from a successful login on. */
  function AfterLogin(s: Session, env: CaptchaEnv): seq<Effect>
    requires s.downloadDir.Some?
  {
    var dir := s.downloadDir.value;
    var run := if IsTask(s.task) then [RunTask(s.task, dir, TaskDate(s))] else [];
    if IsTask(s.task) && !env.taskOk then run + [DeleteProgress, Reply(TaskError), QuitBrowser]
    else
      run + [QuitBrowser] + ZipEffects(dir, env.zip) + [DeleteProgress]
      + (if env.zip != Zipped then []
         else if env.documentSent then [SendDocument(s.task + ".zip", dir + ".zip")]
         else [DeleteProgress])
  }

  /** The `try` block of `handle_captcha`. A missing driver makes `login` raise from its own
      handler; a failed login quits the driver and calls `exit()`, whose `SystemExit` passes
      the `except Exception`; a failed task is reported and the driver quit; a failed
      document send makes the handler delete the progress message a second time, which
      raises. Whatever escapes is dropped by the `return` in `finally`. */
  function TryBlock(s: Session, captcha: string, env: CaptchaEnv): seq<Effect>
    requires s.driver.Some? && s.downloadDir.Some?
  {
    if s.driver.value.NoBrowser? then [DeleteProgress, Reply(TaskError)]
    else [LogIn(captcha)] + (if !env.loginOk then [QuitBrowser] else AfterLogin(s, env))
  }

  /** `handle_captcha` as a whole. `s` is the user's record, if any; `[]` with a record that
      lacks "driver" or "download_dir" stands for the `KeyError` raised before anything is sent. */
  function CaptchaEffects(authorized: bool, s: Option<Session>, base: Path, captcha: string, env: CaptchaEnv): seq<Effect> {
    if !authorized then [Reply(NotAuthorized)]
    else if s.None? then [Reply(SessionExpired)]
    else if s.value.driver.None? || s.value.downloadDir.None? then []
    else [Reply(Progress)] + TryBlock(s.value, captcha, env) + [RemoveTree(base)]
  }

  /** Whether `handle_captcha` raises: only the `KeyError` of a record without its keys. */
  predicate CaptchaRaises(authorized: bool, s: Option<Session>) {
    authorized && s.Some? && (s.value.driver.None? || s.value.downloadDir.None?)
  }

  /** The archive a job sends: `"{module}.zip"`, made next to the job's folder. */
  function Document(s: Session): Effect
    requires s.downloadDir.Some?
  {
    SendDocument(s.task + ".zip", s.downloadDir.value + ".zip")
  }

  /** After the login the only removal is the job's folder. */
  lemma AfterLoginRemovals(s: Session, env: CaptchaEnv)
    requires s.downloadDir.Some?
    ensures forall x :: x in AfterLogin(s, env) && x.RemoveTree? ==> x.path == s.downloadDir.value
  {
    var dir := s.downloadDir.value;
    var run := if IsTask(s.task) then [RunTask(s.task, dir, TaskDate(s))] else [];
    var e := AfterLogin(s, env);
    if IsTask(s.task) && !env.taskOk {
      assert e == run + [DeleteProgress, Reply(TaskError), QuitBrowser];
    } else if env.zip == ZipFailed {
      assert e == run + [QuitBrowser, DeleteProgress];
    } else if env.zip == RemoveFailed {
      assert e == run + [QuitBrowser, Archive(dir), DeleteProgress];
    } else if env.documentSent {
      assert e == run + [QuitBrowser, Archive(dir), RemoveTree(dir), DeleteProgress, Document(s)];
    } else {
      assert e == run + [QuitBrowser, Archive(dir), RemoveTree(dir), DeleteProgress, DeleteProgress];
    }
  }

  /** There is no second login, and the only archive sent is the job's. */
  lemma AfterLoginNoRelogin(s: Session, env: CaptchaEnv)
    requires s.downloadDir.Some?
    ensures forall x :: x in AfterLogin(s, env) ==> !x.LogIn?
    ensures forall x :: x in AfterLogin(s, env) && x.SendDocument? ==> x == Document(s)
  {
    var dir := s.downloadDir.value;
    var run := if IsTask(s.task) then [RunTask(s.task, dir, TaskDate(s))] else [];
    var e := AfterLogin(s, env);
    if IsTask(s.task) && !env.taskOk {
      assert e == run + [DeleteProgress, Reply(TaskError), QuitBrowser];
    } else if env.zip == ZipFailed {
      assert e == run + [QuitBrowser, DeleteProgress];
    } else if env.zip == RemoveFailed {
      assert e == run + [QuitBrowser, Archive(dir), DeleteProgress];
    } else if env.documentSent {
      assert e == run + [QuitBrowser, Archive(dir), RemoveTree(dir), DeleteProgress, Document(s)];
    } else {
      assert e == run + [QuitBrowser, Archive(dir), RemoveTree(dir), DeleteProgress, DeleteProgress];
    }
  }

  /** The archive is sent exactly when the task returned, the folder was archived and
      removed and the send succeeded. */
  lemma AfterLoginDocument(s: Session, env: CaptchaEnv)
    requires s.downloadDir.Some?
    ensures Document(s) in AfterLogin(s, env) <==>
              (!IsTask(s.task) || env.taskOk) && env.zip == Zipped && env.documentSent
  {
    var dir := s.downloadDir.value;
    var run := if IsTask(s.task) then [RunTask(s.task, dir, TaskDate(s))] else [];
    var e := AfterLogin(s, env);
    if IsTask(s.task) && !env.taskOk {
      assert e == run + [DeleteProgress, Reply(TaskError), QuitBrowser];
    } else if env.zip == ZipFailed {
      assert e == run + [QuitBrowser, DeleteProgress];
    } else if env.zip == RemoveFailed {
      assert e == run + [QuitBrowser, Archive(dir), DeleteProgress];
    } else if env.documentSent {
      assert e == run + [QuitBrowser, Archive(dir), RemoveTree(dir), DeleteProgress, Document(s)];
    } else {
      assert e == run + [QuitBrowser, Archive(dir), RemoveTree(dir), DeleteProgress, DeleteProgress];
    }
  }

  /** The same facts for the whole `try` block, whose only login is the first, with the reply. */
  lemma TryBlockActions(s: Session, captcha: string, env: CaptchaEnv)
    requires s.driver.Some? && s.downloadDir.Some?
    ensures var e := TryBlock(s, captcha, env);
      && (forall x :: x in e && x.RemoveTree? ==> x.path == s.downloadDir.value)
      && (forall c :: LogIn(c) in e ==> c == captcha && s.driver.value.Browser?)
      && (forall x :: x in e && x.SendDocument? ==> x == Document(s))
      && (Document(s) in e <==> s.driver.value.Browser? && env.loginOk && (!IsTask(s.task) || env.taskOk)
                                && env.zip == Zipped && env.documentSent)
  {
    if s.driver.value.Browser? && env.loginOk {
      AfterLoginRemovals(s, env);
      AfterLoginNoRelogin(s, env);
      AfterLoginDocument(s, env);
      assert TryBlock(s, captcha, env) == [LogIn(captcha)] + AfterLogin(s, env);
    }
  }

  /** Once the handler got a record with a driver and a folder, the `finally` removes the
      user's whole folder, as the very last action, whatever happened before; and every
      other removal stays inside the job's folder. */
  lemma CaptchaCleansUp(s: Session, base: Path, captcha: string, env: CaptchaEnv)
    requires s.driver.Some? && s.downloadDir.Some?
    ensures var e := CaptchaEffects(true, Some(s), base, captcha, env);
      && |e| >= 2 && e[0] == Reply(Progress) && e[|e| - 1] == RemoveTree(base)
      && forall x :: x in e[..|e| - 1] && x.RemoveTree? ==> x.path == s.downloadDir.value
  {
    var t := TryBlock(s, captcha, env);
    TryBlockActions(s, captcha, env);
    var e := CaptchaEffects(true, Some(s), base, captcha, env);
    assert e == ([Reply(Progress)] + t) + [RemoveTree(base)];
    assert e[..|e| - 1] == [Reply(Progress)] + t;
  }

  /** The archive `"{module}.zip"` is sent exactly when the browser was there, the login and
      the task went through, the folder was archived and removed, and the send succeeded;
      no other document is ever sent. */
  lemma DocumentOnlyOnSuccess(s: Session, base: Path, captcha: string, env: CaptchaEnv)
    requires s.driver.Some? && s.downloadDir.Some?
    ensures var e := CaptchaEffects(true, Some(s), base, captcha, env);
      && (Document(s) in e <==> s.driver.value.Browser? && env.loginOk && (!IsTask(s.task) || env.taskOk)
                                && env.zip == Zipped && env.documentSent)
      && forall x :: x in e && x.SendDocument? ==> x == Document(s)
  {
    var t := TryBlock(s, captcha, env);
    TryBlockActions(s, captcha, env);
    assert CaptchaEffects(true, Some(s), base, captcha, env) == ([Reply(Progress)] + t) + [RemoveTree(base)];
  }

  /** The handler logs in only for an authorized user with a record holding a real driver,
      and never with anything but the stripped reply. */
  lemma LoginNeedsSession(authorized: bool, s: Option<Session>, base: Path, captcha: string, env: CaptchaEnv, c: string)
    requires LogIn(c) in CaptchaEffects(authorized, s, base, captcha, env)
    ensures authorized && s.Some? && s.value.driver.Some? && s.value.driver.value.Browser? && c == captcha
  {
    if authorized && s.Some? && s.value.driver.Some? && s.value.downloadDir.Some? {
      var t := TryBlock(s.value, captcha, env);
      TryBlockActions(s.value, captcha, env);
      assert CaptchaEffects(authorized, s, base, captcha, env) == ([Reply(Progress)] + t) + [RemoveTree(base)];
    }
  }

  /** An unauthorized user gets the refusal and nothing else from the date and CAPTCHA
      handlers: no folder, no browser, no login, no record. */
  lemma RefusalOnly(users: seq<int>, tmp: Path, u: int, parsed: Option<CalendarDate>, browser: Driver, shot: Option<Path>,
                    photoSent: bool, s: Option<Session>, captcha: string, env: CaptchaEnv)
    requires !IsUserAuthorized(users, u)
    ensures DateEffects(users, tmp, u, parsed, browser, shot, photoSent) == [Reply(NotAuthorized)]
    ensures DateSession(users, tmp, u, parsed, browser).None?
    ensures CaptchaEffects(false, s, DownloadPilePath(tmp, u), captcha, env) == [Reply(NotAuthorized)]
    ensures !CaptchaRaises(false, s)
  {
  }

  // ---------------------------------------------------------------- the bot

  /** The running bot: the authorized ids, the temporary directory, `USER_SESSIONS`, and the
      log of everything it did outwardly. */
  class Bot {
    const users: seq<int>
    const tmp: Path
    var sessions: map<int, Session>
    var effects: seq<Effect>

    ghost predicate Valid()
      reads this
    {
      SessionsValid(users, tmp, sessions)
    }

    /** Start-up: `AUTHORIZED_USERS` parsed from the variable's value `env`, which must parse
        for the module to load (`DefaultRejected`). */
    constructor (env: Option<string>, tmp: Path)
      requires AuthorizedUsers(env).Some?
      ensures Some(users) == AuthorizedUsers(env) && this.tmp == tmp
      ensures sessions == map[] && effects == []
      ensures Valid()
    {
      this.users := AuthorizedUsers(env).value;
      this.tmp := tmp;
      sessions := map[];
      effects := [];
    }

    /** `start`: the task menu, or the refusal. */
    method Start(u: int)
      modifies this`effects
      ensures effects == old(effects) + [Reply(if IsUserAuthorized(users, u) then Menu else NotAuthorized)]
    {
      if !IsUserAuthorized(users, u) {
        effects := effects + [Reply(NotAuthorized)];
        return;
      }
      effects := effects + [Reply(Menu)];
    }

    /** `invoice_command`: the user's record, whatever it held, becomes `{"module": "invoice"}`. */
    method InvoiceCommand(u: int)
      requires Valid()
      modifies this
      ensures Valid()
      ensures !IsUserAuthorized(users, u) ==> sessions == old(sessions) && effects == old(effects) + [Reply(NotAuthorized)]
      ensures IsUserAuthorized(users, u) ==> sessions == old(sessions)[u := InvoiceStart()] && effects == old(effects) + [Reply(DatePrompt)]
    {
      if !IsUserAuthorized(users, u) {
        effects := effects + [Reply(NotAuthorized)];
        return;
      }
      sessions := sessions[u := InvoiceStart()];
      effects := effects + [Reply(DatePrompt)];
    }

    /** `handle_invoice_date`: `browser` is what `setup_browser` returns, `shot` the path
        `get_captcha_image` returns with a driver, and `photoSent` whether the photo went out. */
    method HandleInvoiceDate(u: int, text: string, browser: Driver, shot: Option<Path>, photoSent: bool)
      requires Valid()
      modifies this
      ensures Valid()
      ensures effects == old(effects) + DateEffects(users, tmp, u, ParseDMY(Strip(text)), browser, shot, photoSent)
      ensures var s := DateSession(users, tmp, u, ParseDMY(Strip(text)), browser);
        sessions == if s.Some? then old(sessions)[u := s.value] else old(sessions)
    {
      var input := Strip(text);
      if !IsUserAuthorized(users, u) {
        effects := effects + [Reply(NotAuthorized)];
        return;
      }
      var parsed := ParseDMY(input);
      if parsed.None? {
        effects := effects + [Reply(InvalidDate)];
        return;
      }
      OpenInvoiceJob(u, parsed.value, browser, shot, photoSent);
    }

    /** The rest of `handle_invoice_date` once the date parsed: the job folder, the browser,
        the record with the canonical date, and the CAPTCHA photo. */
    method OpenInvoiceJob(u: int, date: CalendarDate, browser: Driver, shot: Option<Path>, photoSent: bool)
      requires Valid() && u in users
      modifies this
      ensures Valid()
      ensures effects == old(effects) + DateEffects(users, tmp, u, Some(date), browser, shot, photoSent)
      ensures sessions == old(sessions)[u := DateSession(users, tmp, u, Some(date), browser).value]
    {
      var today := FormatDMY(date);
      var downloadDir := JobDir(tmp, u, "invoice", today);
      var s := Session("invoice", Some(browser), Some(downloadDir), Some(today));
      assert DateSession(users, tmp, u, Some(date), browser) == Some(s);
      SetKeepsValid(users, tmp, sessions, u, s);
      sessions := sessions[u := s];
      effects := effects + ([MakeDirs(downloadDir)] + CaptchaPhoto(browser, shot, photoSent));
    }

    /** `initiate_task(module)` on the day `today`: a fresh job folder, the browser, and the
        record with driver, module and folder, written whether or not the photo is sent. */
    method InitiateTask(u: int, task: string, today: CalendarDate, browser: Driver, shot: Option<Path>, photoSent: bool)
      requires Valid()
      modifies this
      ensures !StartsWith(task, "/") ==> Valid()
      ensures !IsUserAuthorized(users, u) ==> sessions == old(sessions) && effects == old(effects) + [Reply(NotAuthorized)]
      ensures IsUserAuthorized(users, u) ==>
                var dir := JobDir(tmp, u, task, FormatDMY(today));
                && sessions == old(sessions)[u := Session(task, Some(browser), Some(dir), None)]
                && effects == old(effects) + [MakeDirs(dir)] + CaptchaPhoto(browser, shot, photoSent)
    {
      if !IsUserAuthorized(users, u) {
        effects := effects + [Reply(NotAuthorized)];
        return;
      }
      var day := FormatDMY(today);
      var downloadDir := JobDir(tmp, u, task, day);
      var s := Session(task, Some(browser), Some(downloadDir), None);
      if !StartsWith(task, "/") {
        DayRelative(today);
        JobDirUnder(tmp, u, task, day);
        SetKeepsValid(users, tmp, sessions, u, s);
      }
      sessions := sessions[u := s];
      effects := effects + [MakeDirs(downloadDir)] + CaptchaPhoto(browser, shot, photoSent);
    }

    /** `stock_command`. */
    method StockCommand(u: int, today: CalendarDate, browser: Driver, shot: Option<Path>, photoSent: bool)
      requires Valid()
      modifies this
      ensures Valid()
      ensures !IsUserAuthorized(users, u) ==> sessions == old(sessions) && effects == old(effects) + [Reply(NotAuthorized)]
      ensures IsUserAuthorized(users, u) ==>
                var dir := JobDir(tmp, u, "stock", FormatDMY(today));
                && sessions == old(sessions)[u := Session("stock", Some(browser), Some(dir), None)]
                && effects == old(effects) + [MakeDirs(dir)] + CaptchaPhoto(browser, shot, photoSent)
    {
      TaskRelative("stock");
      InitiateTask(u, "stock", today, browser, shot, photoSent);
    }

    /** `inventory_command`. */
    method InventoryCommand(u: int, today: CalendarDate, browser: Driver, shot: Option<Path>, photoSent: bool)
      requires Valid()
      modifies this
      ensures Valid()
      ensures !IsUserAuthorized(users, u) ==> sessions == old(sessions) && effects == old(effects) + [Reply(NotAuthorized)]
      ensures IsUserAuthorized(users, u) ==>
                var dir := JobDir(tmp, u, "inventory", FormatDMY(today));
                && sessions == old(sessions)[u := Session("inventory", Some(browser), Some(dir), None)]
                && effects == old(effects) + [MakeDirs(dir)] + CaptchaPhoto(browser, shot, photoSent)
    {
      TaskRelative("inventory");
      InitiateTask(u, "inventory", today, browser, shot, photoSent);
    }

    /** `zip_download_folder(dir)`: the archive `dir + ".zip"` when both archiving and removing
        the folder succeed, `None` otherwise. */
    static method ZipDownloadFolder(dir: Path, outcome: ZipOutcome) returns (zip: Option<Path>, done: seq<Effect>)
      ensures zip.Some? <==> outcome == Zipped
      ensures zip.Some? ==> zip.value == dir + ".zip" && done == [Archive(dir), RemoveTree(dir)]
      ensures done == ZipEffects(dir, outcome)
    {
      if outcome == ZipFailed {
        return None, [];
      }
      done := [Archive(dir)];
      if outcome == RemoveFailed {
        return None, done;
      }
      done := done + [RemoveTree(dir)];
      return Some(dir + ".zip"), done;
    }

    /** `handle_captcha`: the record is only read, never changed or removed. */
    method HandleCaptcha(u: int, text: string, env: CaptchaEnv) returns (raised: bool)
      modifies this`effects
      ensures var s := if u in sessions then Some(sessions[u]) else None;
        && effects == old(effects) + CaptchaEffects(IsUserAuthorized(users, u), s, DownloadPilePath(tmp, u), Strip(text), env)
        && raised == CaptchaRaises(IsUserAuthorized(users, u), s)
    {
      if !IsUserAuthorized(users, u) {
        effects := effects + [Reply(NotAuthorized)];
        return false;
      }
      if u !in sessions {
        effects := effects + [Reply(SessionExpired)];
        return false;
      }
      var captcha := Strip(text);
      var s := sessions[u];
      if s.driver.None? || s.downloadDir.None? {
        return true;
      }
      var out := RunJob(s, captcha, env);
      // finally
      effects := effects + ([Reply(Progress)] + out + [RemoveTree(DownloadPilePath(tmp, u))]);
      return false;
    }

    /** The `try` block of `handle_captcha`, for a record with a driver and a folder. */
    static method RunJob(s: Session, captcha: string, env: CaptchaEnv) returns (out: seq<Effect>)
      requires s.driver.Some? && s.downloadDir.Some?
      ensures out == TryBlock(s, captcha, env)
    {
      if s.driver.value.NoBrowser? {
        // `login` fails on the missing driver, its handler's `driver.quit()` raises, and so
        // does the second `driver.quit()` in the handler here
        return [DeleteProgress, Reply(TaskError)];
      }
      out := [LogIn(captcha)];
      if !env.loginOk {
        // `login` quits the driver and calls `exit()`
        return out + [QuitBrowser];
      }
      var after := RunTaskAndSend(s, env);
      out := out + after;
    }

    /** The `try` block after a successful login: the task, the archive and the document. */
    static method RunTaskAndSend(s: Session, env: CaptchaEnv) returns (after: seq<Effect>)
      requires s.downloadDir.Some?
      ensures after == AfterLogin(s, env)
    {
      var downloadDir := s.downloadDir.value;
      after := [];
      if IsTask(s.task) {
        after := [RunTask(s.task, downloadDir, TaskDate(s))];
        if !env.taskOk {
          return after + [DeleteProgress, Reply(TaskError), QuitBrowser];
        }
      }
      after := after + [QuitBrowser];
      var zip, done := ZipDownloadFolder(downloadDir, env.zip);
      after := after + done + [DeleteProgress];
      if zip.Some? {
        if env.documentSent {
          after := after + [SendDocument(s.task + ".zip", zip.value)];
        } else {
          after := after + [DeleteProgress];
        }
      }
    }

    /** `dynamic_router`: a user without a record gets the prompt; the `invoice_command`
        record goes to the date handler; every other record to the CAPTCHA handler. On valid
        records no handler raises and the records stay valid. */
    method DynamicRouter(u: int, text: string, browser: Driver, shot: Option<Path>, photoSent: bool, env: CaptchaEnv)
      returns (raised: bool)
      requires Valid()
      modifies this
      ensures Valid()
      ensures !raised
      ensures var s := if u in old(sessions) then Some(old(sessions)[u]) else None;
        match Route(s)
          case PleaseStart => sessions == old(sessions) && effects == old(effects) + [Reply(StartPrompt)]
          case DateHandler =>
            && effects == old(effects) + DateEffects(users, tmp, u, ParseDMY(Strip(text)), browser, shot, photoSent)
            && var d := DateSession(users, tmp, u, ParseDMY(Strip(text)), browser);
               sessions == if d.Some? then old(sessions)[u := d.value] else old(sessions)
          case CaptchaHandler =>
            && sessions == old(sessions)
            && effects == old(effects) + CaptchaEffects(true, s, DownloadPilePath(tmp, u), Strip(text), env)
    {
      RouteSafe(users, tmp, sessions, u);
      if u !in sessions {
        effects := effects + [Reply(StartPrompt)];
        return false;
      }
      var session := sessions[u];
      if session.task == "invoice" && session.driver.None? {
        HandleInvoiceDate(u, text, browser, shot, photoSent);
        return false;
      }
      raised := HandleCaptcha(u, text, env);
    }
  }
}
