/**
 * Build bookkeeping for preview builds: per-session status, error, time
 * and log tables, a FIFO of build jobs, the mtime freshness heuristic,
 * and the two-phase install/build pipeline.
 *
 * The external pieces are inputs: the project tree is an abstract
 * record, each `npm` run is a ProcessResult, and clock readings are
 * integer hundredths of a second. A run of `build_project` is split at
 * its two `await` points: StartBuild runs up to the install, CompleteInstall
 * resumes when the install has finished, CompleteBuild when the build has.
 * `runs` holds the runs suspended at one of those points. Broadcasts and
 * progress-callback calls are recorded, in order, in `notices`.
 */
module Builds {
  import opened Text

  type SessionId = string

  datatype BuildStatus = Pending | Building | Success | Error
  {
    /** The enumeration's string value. */
    function Value(): string
    {
      match this
      case Pending => "pending"
      case Building => "building"
      case Success => "success"
      case Error => "error"
    }
  }

  /** Distinct statuses have distinct string values. */
  lemma StatusValuesDistinct(a: BuildStatus, b: BuildStatus)
    ensures a.Value() == b.Value() <==> a == b
  {
  }

  /** How many log lines a session keeps. */
  const MaxLogs: nat := 100
  /** How many log lines a status report and a progress broadcast carry. */
  const RecentLogs: nat := 20
  /** How much of a failed command's output goes into the returned error. */
  const ErrorTextLimit: nat := 500
  /** How many trailing output lines of a failed build are logged. */
  const ErrorLineCount: nat := 10
  const TimeoutMessage := "Build timed out after 5 minutes"

  /** What the pipeline observes of a session's project directory. */
  datatype ProjectTree = ProjectTree(
    projectExists: bool,
    distExists: bool,
    indexHtmlExists: bool,   // dist/index.html
    distMtime: int,
    srcExists: bool,
    srcMtimes: seq<int>)     // one entry per file under src/

  /** The result of one `npm` subprocess. */
  datatype ProcessResult =
    | Exited(returnCode: int, stdout: string, stderr: string)
    | TimedOut               // subprocess.TimeoutExpired after 300 s
    | Raised(reason: string) // any other exception, as str(e)

  datatype BuildJob = BuildJob(session: SessionId, forceRebuild: bool)

  /** Where a suspended run is waiting, and the clock when it started. */
  datatype Run = Installing(startTime: int) | Compiling(startTime: int)

  /** The dictionaries `build_project` and `queue_build` return. */
  datatype Reply =
    | ErrorReply(error: string)
    | AlreadyBuilding        // "Build already in progress"
    | UpToDate               // "Build is up to date"
    | Queued                 // "Build queued"
    | Completed(buildTime: int)
  {
    function Status(): BuildStatus
    {
      match this
      case ErrorReply(_) => Error
      case AlreadyBuilding => Building
      case UpToDate => Success
      case Queued => Pending
      case Completed(_) => Success
    }
  }

  /** A scheduled broadcast or a progress-callback call. */
  datatype Notice =
    | Progress(session: SessionId, message: string, logs: seq<string>)
    | CallbackLog(session: SessionId, message: string)
    | CompletedNotice(session: SessionId, buildTime: int)
    | ErrorNotice(session: SessionId, error: string)

  /** `get_build_status`. */
  datatype StatusReport = StatusReport(
    status: BuildStatus, error: Option<string>, buildTime: Option<int>, logs: seq<string>)

  // ---------------------------------------------------------------- freshness

  /** `any(f.stat().st_mtime > dist_mtime for f in src files)`. */
  function AnyNewer(mtimes: seq<int>, distMtime: int): (r: bool)
    ensures r <==> exists k :: 0 <= k < |mtimes| && mtimes[k] > distMtime
  {
    if mtimes == [] then false
    else mtimes[0] > distMtime || AnyNewer(mtimes[1..], distMtime)
  }

  /** `src` exists and no file under it is newer than `dist`. */
  predicate SourcesUnchanged(t: ProjectTree)
  {
    t.srcExists && !AnyNewer(t.srcMtimes, t.distMtime)
  }

  /** `is_built`. */
  predicate IsBuilt(t: ProjectTree)
  {
    t.distExists && t.indexHtmlExists
  }

  /**
   * A built project always has a build path, but a build path does not
   * make a project built: `is_built` also needs `dist/index.html`.
   */
  lemma BuiltHasPath(sid: SessionId, t: ProjectTree)
    ensures IsBuilt(t) ==> GetBuildPath(sid, t) == Some(sid + "/dist")
    ensures GetBuildPath(sid, t).Some? && !t.indexHtmlExists ==> !IsBuilt(t)
  {
  }

  /** `get_build_path`: the dist folder, relative to the projects directory. */
  function GetBuildPath(sid: SessionId, t: ProjectTree): (r: Option<string>)
    ensures r.Some? <==> t.distExists
    ensures t.distExists ==> r == Some(sid + "/dist")
  {
    if t.distExists then Some(sid + "/dist") else None
  }

  // ---------------------------------------------------------------- logs

  /** The session logs and the notices scheduled so far. */
  datatype LogBook = LogBook(logs: map<SessionId, seq<string>>, notices: seq<Notice>)

  /** `build_logs.get(sid, [])`. */
  function LogOf(b: LogBook, sid: SessionId): seq<string>
  {
    if sid in b.logs then b.logs[sid] else []
  }

  /** What one `_add_log` schedules: a progress broadcast, then the callback if one is set. */
  function LogNotice(sid: SessionId, newLog: seq<string>, message: string, callback: bool): seq<Notice>
  {
    [Progress(sid, message, Tail(newLog, RecentLogs))] + (if callback then [CallbackLog(sid, message)] else [])
  }

  /** `_add_log(sid, message)`. */
  function Logged(b: LogBook, sid: SessionId, message: string, callback: bool): LogBook
  {
    var log := Tail(LogOf(b, sid) + [message], MaxLogs);
    LogBook(b.logs[sid := log], b.notices + LogNotice(sid, log, message, callback))
  }

  /** `_add_log(sid, m)` for each `m` of `msgs` in turn. */
  function LoggedAll(b: LogBook, sid: SessionId, msgs: seq<string>, callback: bool): (r: LogBook)
    decreases |msgs|
  {
    if msgs == [] then b
    else Logged(LoggedAll(b, sid, msgs[..|msgs| - 1], callback), sid, msgs[|msgs| - 1], callback)
  }

  /** Logging for `sid` touches no other session's log and only appends notices. */
  lemma {:induction false} LoggedAllFrame(b: LogBook, sid: SessionId, msgs: seq<string>, callback: bool)
    ensures var r := LoggedAll(b, sid, msgs, callback);
      && (forall x :: x in b.logs && x != sid ==> x in r.logs && r.logs[x] == b.logs[x])
      && r.logs.Keys <= b.logs.Keys + {sid}
      && |r.notices| >= |b.notices| && r.notices[..|b.notices|] == b.notices
    decreases |msgs|
  {
    if msgs != [] {
      var mid := LoggedAll(b, sid, msgs[..|msgs| - 1], callback);
      LoggedAllFrame(b, sid, msgs[..|msgs| - 1], callback);
      var r := Logged(mid, sid, msgs[|msgs| - 1], callback);
      assert r.notices[..|mid.notices|] == mid.notices;
      assert mid.notices[..|b.notices|] == b.notices;
    }
  }

  lemma LoggedAllOne(b: LogBook, sid: SessionId, message: string, callback: bool)
    ensures LoggedAll(b, sid, [message], callback) == Logged(b, sid, message, callback)
  {
    assert [message][..0] == [];
  }

  lemma LoggedAllTwo(b: LogBook, sid: SessionId, m1: string, m2: string, callback: bool)
    ensures LoggedAll(b, sid, [m1, m2], callback) == Logged(Logged(b, sid, m1, callback), sid, m2, callback)
  {
    assert [m1, m2][..1] == [m1];
    LoggedAllOne(b, sid, m1, callback);
  }

  lemma LoggedAllSnoc(b: LogBook, sid: SessionId, msgs: seq<string>, message: string, callback: bool)
    ensures LoggedAll(b, sid, msgs + [message], callback) == Logged(LoggedAll(b, sid, msgs, callback), sid, message, callback)
  {
    assert (msgs + [message])[..|msgs|] == msgs;
  }

  /** Logging two batches in turn is logging their concatenation. */
  lemma {:induction false} LoggedAllConcat(b: LogBook, sid: SessionId, xs: seq<string>, ys: seq<string>, callback: bool)
    ensures LoggedAll(LoggedAll(b, sid, xs, callback), sid, ys, callback) == LoggedAll(b, sid, xs + ys, callback)
    decreases |ys|
  {
    if ys == [] {
      assert xs + ys == xs;
    } else {
      var init := ys[..|ys| - 1];
      LoggedAllConcat(b, sid, xs, init, callback);
      assert (xs + ys)[..|xs + ys| - 1] == xs + init;
      assert (xs + ys)[|xs + ys| - 1] == ys[|ys| - 1];
    }
  }

  /** No session keeps more than 100 log lines. */
  ghost predicate Bounded(b: LogBook)
  {
    forall x :: x in b.logs ==> |b.logs[x]| <= MaxLogs
  }

  lemma LoggedKeepsBound(b: LogBook, sid: SessionId, message: string, callback: bool)
    requires Bounded(b)
    ensures Bounded(Logged(b, sid, message, callback))
  {
  }

  /** From bounded logs, logging any number of messages keeps every log bounded. */
  lemma {:induction false} LoggedAllKeepsBound(b: LogBook, sid: SessionId, msgs: seq<string>, callback: bool)
    requires Bounded(b)
    ensures Bounded(LoggedAll(b, sid, msgs, callback))
    decreases |msgs|
  {
    if msgs != [] {
      var init := msgs[..|msgs| - 1];
      LoggedAllKeepsBound(b, sid, init, callback);
      LoggedKeepsBound(LoggedAll(b, sid, init, callback), sid, msgs[|msgs| - 1], callback);
    }
  }

  lemma LogOfLogged(b: LogBook, sid: SessionId, message: string, callback: bool)
    ensures LogOf(Logged(b, sid, message, callback), sid) == Tail(LogOf(b, sid) + [message], MaxLogs)
  {
  }

  /** From a bounded log, the session's log is the last 100 of everything logged. */
  lemma {:induction false} LoggedAllKeepsLast(b: LogBook, sid: SessionId, msgs: seq<string>, callback: bool)
    requires |LogOf(b, sid)| <= MaxLogs
    ensures LogOf(LoggedAll(b, sid, msgs, callback), sid) == Tail(LogOf(b, sid) + msgs, MaxLogs)
    decreases |msgs|
  {
    var log := LogOf(b, sid);
    if msgs == [] {
      assert log + msgs == log;
    } else {
      var init, last := msgs[..|msgs| - 1], msgs[|msgs| - 1];
      var mid := LoggedAll(b, sid, init, callback);
      calc {
        LogOf(LoggedAll(b, sid, msgs, callback), sid);
        LogOf(Logged(mid, sid, last, callback), sid);
        { LogOfLogged(mid, sid, last, callback); }
        Tail(LogOf(mid, sid) + [last], MaxLogs);
        { LoggedAllKeepsLast(b, sid, init, callback); }
        Tail(Tail(log + init, MaxLogs) + [last], MaxLogs);
        { TailSnoc(log + init, last, MaxLogs); }
        Tail(log + init + [last], MaxLogs);
        { assert log + init + [last] == log + msgs; }
        Tail(log + msgs, MaxLogs);
      }
    }
  }

  /**
   * The progress broadcast of `_add_log` carries the last 20 lines of
   * everything logged, and the callback follows it exactly when set.
   */
  lemma ProgressCarriesRecentLogs(b: LogBook, sid: SessionId, message: string, callback: bool)
    ensures var r := Logged(b, sid, message, callback);
      && |r.notices| == |b.notices| + (if callback then 2 else 1)
      && r.notices[|b.notices|] == Progress(sid, message, Tail(LogOf(b, sid) + [message], RecentLogs))
      && (callback ==> r.notices[|b.notices| + 1] == CallbackLog(sid, message))
  {
    TailOfTail(LogOf(b, sid) + [message], MaxLogs, RecentLogs);
  }

  // ---------------------------------------------------------------- output text

  /** `result.stderr or result.stdout`. */
  function OutputText(stdout: string, stderr: string): string
  {
    if stderr != "" then stderr else stdout
  }

  /** Each line that is not blank, prefixed with two spaces, in order. */
  function IndentNonBlank(lines: seq<string>): (r: seq<string>)
    ensures |r| <= |lines|
    decreases |lines|
  {
    if lines == [] then []
    else
      var init := IndentNonBlank(lines[..|lines| - 1]);
      var last := lines[|lines| - 1];
      if IsBlank(last) then init else init + ["  " + last]
  }

  /** Every indented line comes from a non-blank input line. */
  lemma {:induction false} IndentedFromNonBlank(lines: seq<string>)
    ensures forall l :: l in IndentNonBlank(lines) ==>
      |l| >= 2 && l[..2] == "  " && l[2..] in lines && !IsBlank(l[2..])
    decreases |lines|
  {
    if lines != [] {
      var init := lines[..|lines| - 1];
      var last := lines[|lines| - 1];
      IndentedFromNonBlank(init);
      assert forall l :: l in init ==> l in lines;
      assert ("  " + last)[2..] == last;
    }
  }

  /** Every non-blank input line is kept, indented. */
  lemma {:induction false} NonBlankIndented(lines: seq<string>)
    ensures forall j :: 0 <= j < |lines| && !IsBlank(lines[j]) ==> "  " + lines[j] in IndentNonBlank(lines)
    decreases |lines|
  {
    if lines != [] {
      var init := lines[..|lines| - 1];
      NonBlankIndented(init);
      assert forall j :: 0 <= j < |init| ==> init[j] == lines[j];
    }
  }

  /** The positions of the non-blank lines, in increasing order. */
  function NonBlankIndices(lines: seq<string>): (idx: seq<nat>)
    ensures forall k :: 0 <= k < |idx| ==> idx[k] < |lines|
    decreases |lines|
  {
    if lines == [] then []
    else
      NonBlankIndices(lines[..|lines| - 1])
      + (if IsBlank(lines[|lines| - 1]) then [] else [|lines| - 1])
  }

  /**
   * The indented lines are exactly the non-blank lines in their original
   * order, repetitions included: the k-th one is the line at the k-th
   * non-blank position, and those positions increase and cover every
   * non-blank line and no other.
   */
  lemma {:induction false} IndentNonBlankByIndex(lines: seq<string>)
    ensures var r := IndentNonBlank(lines);
      var idx := NonBlankIndices(lines);
      && |idx| == |r|
      && (forall k :: 0 <= k < |idx| ==> r[k] == "  " + lines[idx[k]])
      && (forall k, l :: 0 <= k < l < |idx| ==> idx[k] < idx[l])
      && (forall j :: 0 <= j < |lines| ==> (j in idx <==> !IsBlank(lines[j])))
    decreases |lines|
  {
    if lines != [] {
      var init := lines[..|lines| - 1];
      IndentNonBlankByIndex(init);
      assert forall j :: 0 <= j < |init| ==> init[j] == lines[j];
    }
  }

  lemma IndentNonBlankStep(lines: seq<string>, i: nat)
    requires i < |lines|
    ensures IndentNonBlank(lines[..i + 1])
         == IndentNonBlank(lines[..i]) + (if IsBlank(lines[i]) then [] else ["  " + lines[i]])
  {
    assert lines[..i + 1][..i] == lines[..i];
  }

  /** The log book after `_add_log` of each non-blank line of `lines`, indented. */
  function LoggedIndented(b: LogBook, sid: SessionId, lines: seq<string>, callback: bool): LogBook
  {
    LoggedAll(b, sid, IndentNonBlank(lines), callback)
  }

  /** One more line: a blank one logs nothing, any other is logged indented. */
  lemma LoggedIndentedStep(b: LogBook, sid: SessionId, lines: seq<string>, i: nat, callback: bool)
    requires i < |lines|
    ensures LoggedIndented(b, sid, lines[..i + 1], callback) ==
      if IsBlank(lines[i]) then LoggedIndented(b, sid, lines[..i], callback)
      else Logged(LoggedIndented(b, sid, lines[..i], callback), sid, "  " + lines[i], callback)
  {
    IndentNonBlankStep(lines, i);
    if !IsBlank(lines[i]) {
      LoggedAllSnoc(b, sid, IndentNonBlank(lines[..i]), "  " + lines[i], callback);
    } else {
      assert IndentNonBlank(lines[..i]) + [] == IndentNonBlank(lines[..i]);
    }
  }

  /** The log lines a failed build adds after "Error: Build failed". */
  function ErrorLines(text: string): (r: seq<string>)
    ensures |r| <= ErrorLineCount
    ensures forall k :: 0 <= k < |r| ==> '\n' !in r[k]
  {
    var lines := Tail(Split(text, '\n'), ErrorLineCount);
    var r := IndentNonBlank(lines);
    assert forall k :: 0 <= k < |r| ==> '\n' !in r[k] by {
      IndentedFromNonBlank(lines);
      assert forall k :: 0 <= k < |r| ==> r[k] == r[k][..2] + r[k][2..];
    }
    r
  }

  // ---------------------------------------------------------------- decisions

  predicate BuildingIn(status: map<SessionId, BuildStatus>, sid: SessionId)
  {
    sid in status && status[sid] == Building
  }

  /** `queue_build`'s answer. */
  function QueueDecision(status: map<SessionId, BuildStatus>, sid: SessionId, force: bool, t: ProjectTree): Reply
  {
    if BuildingIn(status, sid) then AlreadyBuilding
    else if !force && IsBuilt(t) && SourcesUnchanged(t) then UpToDate
    else Queued
  }

  /** `build_project`'s early return, or None when it starts a run. */
  function StartDecision(status: map<SessionId, BuildStatus>, sid: SessionId, force: bool, t: ProjectTree): Option<Reply>
  {
    if !t.projectExists then Some(ErrorReply("Project not found for session " + sid))
    else if BuildingIn(status, sid) then Some(AlreadyBuilding)
    else if t.distExists && !force && SourcesUnchanged(t) then Some(UpToDate)
    else None
  }

  /**
   * With a built output newer than every source file a non-forced
   * request is answered from cache; touching one source file after the
   * build makes the next request queue a build.
   */
  lemma TouchInvalidatesCache(status: map<SessionId, BuildStatus>, sid: SessionId, t: ProjectTree, k: nat, mtime: int)
    requires !BuildingIn(status, sid) && IsBuilt(t) && t.srcExists
    requires forall j :: 0 <= j < |t.srcMtimes| ==> t.srcMtimes[j] <= t.distMtime
    requires k < |t.srcMtimes| && mtime > t.distMtime
    ensures QueueDecision(status, sid, false, t) == UpToDate
    ensures QueueDecision(status, sid, false, t.(srcMtimes := t.srcMtimes[k := mtime])) == Queued
  {
    assert t.srcMtimes[k := mtime][k] > t.distMtime;
  }

  /**
   * Without a `src` folder the cache is never trusted, and a forced
   * request or a tree without built output always queues.
   */
  lemma QueueWithoutCache(status: map<SessionId, BuildStatus>, sid: SessionId, force: bool, t: ProjectTree)
    requires !BuildingIn(status, sid)
    requires force || !t.srcExists || !IsBuilt(t)
    ensures QueueDecision(status, sid, force, t) == Queued
  {
  }

  /**
   * The two cache checks differ: with `dist` but no `dist/index.html`,
   * a non-forced request is queued, yet the run it starts stops at once
   * as up to date.
   */
  lemma QueuedRunFindsCache(status: map<SessionId, BuildStatus>, sid: SessionId, t: ProjectTree)
    requires t.projectExists && !BuildingIn(status, sid)
    requires t.distExists && !t.indexHtmlExists && SourcesUnchanged(t)
    ensures QueueDecision(status, sid, false, t) == Queued
    ensures StartDecision(status[sid := Pending], sid, false, t) == Some(UpToDate)
  {
    assert !BuildingIn(status[sid := Pending], sid);
  }

  // ---------------------------------------------------------------- outcomes

  const StartMessages: seq<string> := ["Build started", "Installing dependencies..."]
  const InstalledMessages: seq<string> := ["Dependencies installed successfully", "Building project..."]

  /**
   * How a finished command moves the run on: on to the next step, or to
   * ERROR with the error recorded, the error returned, the lines logged,
   * and whether an error broadcast is scheduled.
   */
  datatype Outcome =
    | Proceed
    | Fail(error: string, reply: string, logLines: seq<string>, broadcast: bool)

  /** The two `except` clauses: a timeout, or any other exception. */
  function FaultOutcome(result: ProcessResult): (o: Outcome)
    requires !result.Exited?
    ensures o.Fail? && o.broadcast && o.error == o.reply && o.logLines == ["Error: " + o.error]
    ensures o.error == if result.TimedOut? then TimeoutMessage else "Build error: " + result.reason
  {
    var message := if result.TimedOut? then TimeoutMessage else "Build error: " + result.reason;
    Fail(message, message, ["Error: " + message], true)
  }

  /** What `npm install` finishing with `result` does to the run. */
  function InstallOutcome(result: ProcessResult): (o: Outcome)
    ensures o.Proceed? <==> result.Exited? && result.returnCode == 0
    ensures o.Fail? ==> (o.broadcast <==> !result.Exited?) && |o.logLines| == 1
  {
    match result
    case Exited(code, out, err) =>
      if code == 0 then Proceed
      else
        var text := OutputText(out, err);
        Fail("npm install failed: " + text, "npm install failed: " + Prefix(text, ErrorTextLimit),
             ["Error: npm install failed"], false)
    case _ => FaultOutcome(result)
  }

  /** What `npm run build` finishing with `result` does to the run. */
  function BuildOutcome(result: ProcessResult): (o: Outcome)
    ensures o.Proceed? <==> result.Exited? && result.returnCode == 0
    ensures o.Fail? ==> (o.broadcast <==> !result.Exited?) && 1 <= |o.logLines| <= 1 + ErrorLineCount
  {
    match result
    case Exited(code, out, err) =>
      if code == 0 then Proceed
      else
        var text := OutputText(out, err);
        Fail("Build failed: " + text, "Build failed: " + Prefix(text, ErrorTextLimit),
             ["Error: Build failed"] + ErrorLines(text), false)
    case _ => FaultOutcome(result)
  }

  /**
   * A command that exits non-zero records its whole output but returns
   * at most 500 characters of it, and schedules no error broadcast.
   */
  lemma ExitFailureReport(result: ProcessResult, install: bool)
    requires result.Exited? && result.returnCode != 0
    ensures var o := if install then InstallOutcome(result) else BuildOutcome(result);
      var prefix := if install then "npm install failed: " else "Build failed: ";
      var text := if result.stderr != "" then result.stderr else result.stdout;
      && o.Fail? && !o.broadcast
      && o.error == prefix + text
      && |o.reply| == |prefix| + (if |text| <= ErrorTextLimit then |text| else ErrorTextLimit)
      && o.reply == prefix + text[..|o.reply| - |prefix|]
  {
    var text := if result.stderr != "" then result.stderr else result.stdout;
    var p := Prefix(text, ErrorTextLimit);
    assert p == text[..|p|];
  }

  /**
   * A failed build logs "Error: Build failed" and then every non-blank
   * line among the last ten of the output, indented by two spaces, and
   * nothing else.
   */
  lemma BuildFailureLines(code: int, out: string, err: string)
    requires code != 0
    ensures var o := BuildOutcome(Exited(code, out, err));
      var text := if err != "" then err else out;
      var lines := Tail(Split(text, '\n'), ErrorLineCount);
      var idx := NonBlankIndices(lines);
      && |o.logLines| == 1 + |idx|
      && o.logLines[0] == "Error: Build failed"
      && (forall k :: 0 <= k < |idx| ==> o.logLines[1 + k] == "  " + lines[idx[k]])
      && (forall k, l :: 0 <= k < l < |idx| ==> idx[k] < idx[l])
      && (forall j :: 0 <= j < |lines| ==> (j in idx <==> !IsBlank(lines[j])))
  {
    var text := if err != "" then err else out;
    var lines := Tail(Split(text, '\n'), ErrorLineCount);
    var logLines := BuildOutcome(Exited(code, out, err)).logLines;
    var r := IndentNonBlank(lines);
    assert logLines == ["Error: Build failed"] + r;
    assert forall k :: 0 <= k < |r| ==> logLines[1 + k] == r[k];
    IndentNonBlankByIndex(lines);
  }

  /** The log book after a failed step. */
  function FailureBook(b: LogBook, sid: SessionId, o: Outcome, callback: bool): LogBook
    requires o.Fail?
  {
    var logged := LoggedAll(b, sid, o.logLines, callback);
    if o.broadcast then logged.(notices := logged.notices + [ErrorNotice(sid, o.error)]) else logged
  }

  function CompletedMessage(buildTime: int): string
  {
    "Build completed successfully in " + HundredthsText(buildTime) + "s"
  }

  /** The log book after a successful build. */
  function SuccessBook(b: LogBook, sid: SessionId, buildTime: int, callback: bool): LogBook
  {
    var logged := Logged(b, sid, CompletedMessage(buildTime), callback);
    logged.(notices := logged.notices + [CompletedNotice(sid, buildTime)])
  }

  lemma FailureKeepsBound(b: LogBook, sid: SessionId, o: Outcome, callback: bool)
    requires Bounded(b) && o.Fail?
    ensures Bounded(FailureBook(b, sid, o, callback))
  {
    LoggedAllKeepsBound(b, sid, o.logLines, callback);
  }

  /** Only a fault ends the run with an error broadcast, and it is the last notice. */
  lemma ErrorBroadcastOnlyOnFault(b: LogBook, sid: SessionId, o: Outcome, callback: bool)
    requires o.Fail? && o.logLines != []
    ensures var r := FailureBook(b, sid, o, callback);
      (o.broadcast <==> |r.notices| > 0 && r.notices[|r.notices| - 1] == ErrorNotice(sid, o.error))
  {
    var logged := LoggedAll(b, sid, o.logLines, callback);
    if !o.broadcast {
      LoggedAllEndsWithLogNotice(b, sid, o.logLines, callback);
    }
  }

  /** After logging at least one message the last notice is that message's progress or callback. */
  lemma LoggedAllEndsWithLogNotice(b: LogBook, sid: SessionId, msgs: seq<string>, callback: bool)
    requires msgs != []
    ensures var r := LoggedAll(b, sid, msgs, callback);
      |r.notices| > 0 && (r.notices[|r.notices| - 1].Progress? || r.notices[|r.notices| - 1].CallbackLog?)
  {
  }

  // ---------------------------------------------------------------- the service

  class BuildService {
    var buildStatus: map<SessionId, BuildStatus>
    var buildErrors: map<SessionId, string>
    var buildTimes: map<SessionId, int>
    var buildLogs: map<SessionId, seq<string>>
    var progressCallbacks: set<SessionId>
    var buildQueue: seq<BuildJob>
    var runs: map<SessionId, Run>
    var notices: seq<Notice>

    /** The logs and the scheduled notices, together. */
    function Book(): LogBook
      reads this
    {
      LogBook(buildLogs, notices)
    }

    /** Logs stay bounded, and a session is BUILDING exactly while a run of it is in flight. */
    ghost predicate Valid()
      reads this
    {
      && Bounded(Book())
      && forall x :: x in runs <==> BuildingIn(buildStatus, x)
    }

    /** The state a failed run leaves behind. */
    twostate predicate EndedInFailure(sid: SessionId, o: Outcome)
      requires o.Fail?
      reads this
    {
      && buildStatus == old(buildStatus)[sid := Error]
      && buildErrors == old(buildErrors)[sid := o.error]
      && buildTimes == old(buildTimes)
      && Book() == FailureBook(old(Book()), sid, o, sid in old(progressCallbacks))
      && progressCallbacks == old(progressCallbacks) - {sid}
      && buildQueue == old(buildQueue)
      && runs == old(runs) - {sid}
    }

    /** The state a successful run leaves behind. */
    twostate predicate EndedInSuccess(sid: SessionId, buildTime: int)
      reads this
    {
      && buildStatus == old(buildStatus)[sid := Success]
      && buildTimes == old(buildTimes)[sid := buildTime]
      && buildErrors == old(buildErrors)
      && Book() == SuccessBook(old(Book()), sid, buildTime, sid in old(progressCallbacks))
      && progressCallbacks == old(progressCallbacks) - {sid}
      && buildQueue == old(buildQueue)
      && runs == old(runs) - {sid}
    }

    constructor ()
      ensures Valid()
      ensures buildStatus == map[] && buildErrors == map[] && buildTimes == map[] && buildLogs == map[]
      ensures progressCallbacks == {} && buildQueue == [] && runs == map[] && notices == []
    {
      buildStatus, buildErrors, buildTimes, buildLogs := map[], map[], map[], map[];
      progressCallbacks, buildQueue, runs, notices := {}, [], map[], [];
    }

    /** `set_progress_callback`. */
    method SetProgressCallback(sid: SessionId)
      requires Valid()
      modifies this
      ensures Valid()
      ensures progressCallbacks == old(progressCallbacks) + {sid}
      ensures buildStatus == old(buildStatus) && buildErrors == old(buildErrors) && buildTimes == old(buildTimes)
      ensures Book() == old(Book()) && buildQueue == old(buildQueue) && runs == old(runs)
    {
      progressCallbacks := progressCallbacks + {sid};
    }

    /** `clear_progress_callback`: no error when none is set. */
    method ClearProgressCallback(sid: SessionId)
      requires Valid()
      modifies this
      ensures Valid()
      ensures progressCallbacks == old(progressCallbacks) - {sid}
      ensures buildStatus == old(buildStatus) && buildErrors == old(buildErrors) && buildTimes == old(buildTimes)
      ensures Book() == old(Book()) && buildQueue == old(buildQueue) && runs == old(runs)
    {
      progressCallbacks := progressCallbacks - {sid};
    }

    /** `get_build_logs`. */
    function GetBuildLogs(sid: SessionId): (r: seq<string>)
      reads this
      ensures sid !in buildLogs ==> r == []
      ensures sid in buildLogs ==> r == buildLogs[sid]
      ensures Valid() ==> |r| <= MaxLogs
    {
      LogOf(Book(), sid)
    }

    /** `get_build_status`: PENDING for a session never seen, and the last 20 log lines. */
    function GetBuildStatus(sid: SessionId): (r: StatusReport)
      reads this
      ensures sid !in buildStatus ==> r.status == Pending
      ensures sid in buildStatus ==> r.status == buildStatus[sid]
      ensures r.error == if sid in buildErrors then Some(buildErrors[sid]) else None
      ensures r.buildTime == if sid in buildTimes then Some(buildTimes[sid]) else None
      ensures |r.logs| == if |GetBuildLogs(sid)| <= RecentLogs then |GetBuildLogs(sid)| else RecentLogs
      ensures r.logs == GetBuildLogs(sid)[|GetBuildLogs(sid)| - |r.logs|..]
    {
      StatusReport(
        if sid in buildStatus then buildStatus[sid] else Pending,
        if sid in buildErrors then Some(buildErrors[sid]) else None,
        if sid in buildTimes then Some(buildTimes[sid]) else None,
        Tail(GetBuildLogs(sid), RecentLogs))
    }

    /** `_add_log`. */
    method AddLog(sid: SessionId, message: string)
      requires Bounded(Book())
      modifies this
      ensures Bounded(Book())
      ensures Book() == Logged(old(Book()), sid, message, sid in progressCallbacks)
      ensures buildStatus == old(buildStatus) && buildErrors == old(buildErrors) && buildTimes == old(buildTimes)
      ensures progressCallbacks == old(progressCallbacks) && buildQueue == old(buildQueue) && runs == old(runs)
    {
      var log := GetBuildLogs(sid) + [message];
      if |log| > MaxLogs {
        log := log[|log| - MaxLogs..];
      }
      buildLogs := buildLogs[sid := log];
      notices := notices + [Progress(sid, message, Tail(log, RecentLogs))];
      if sid in progressCallbacks {
        notices := notices + [CallbackLog(sid, message)];
      }
      LoggedKeepsBound(old(Book()), sid, message, sid in progressCallbacks);
    }

    /** `queue_build`. */
    method QueueBuild(sid: SessionId, force: bool, tree: ProjectTree) returns (r: Reply)
      requires Valid()
      modifies this
      ensures Valid()
      ensures r == QueueDecision(old(buildStatus), sid, force, tree)
      ensures r.Status() == Building <==> BuildingIn(old(buildStatus), sid)
      ensures r == Queued ==> sid in buildStatus && buildStatus[sid] == r.Status()
      ensures r == Queued ==>
        && buildQueue == old(buildQueue) + [BuildJob(sid, force)]
        && buildStatus == old(buildStatus)[sid := Pending]
        && buildLogs == old(buildLogs)[sid := []]
      ensures r != Queued ==>
        buildQueue == old(buildQueue) && buildStatus == old(buildStatus) && buildLogs == old(buildLogs)
      ensures buildErrors == old(buildErrors) && buildTimes == old(buildTimes) && notices == old(notices)
      ensures progressCallbacks == old(progressCallbacks) && runs == old(runs)
    {
      if sid in buildStatus && buildStatus[sid] == Building {
        return AlreadyBuilding;
      }
      if !force && IsBuilt(tree) {
        if tree.srcExists {
          var newer := AnyNewer(tree.srcMtimes, tree.distMtime);
          if !newer {
            return UpToDate;
          }
        }
      }
      buildQueue := buildQueue + [BuildJob(sid, force)];
      buildStatus := buildStatus[sid := Pending];
      buildLogs := buildLogs[sid := []];
      r := Queued;
    }

    /** `_process_build_queue`, one turn: take the oldest job, whose run is then started. */
    method DispatchNext() returns (job: Option<BuildJob>)
      requires Valid()
      modifies this
      ensures Valid()
      ensures old(buildQueue) == [] ==> job.None? && buildQueue == []
      ensures old(buildQueue) != [] ==> job == Some(old(buildQueue)[0]) && buildQueue == old(buildQueue)[1..]
      ensures buildStatus == old(buildStatus) && buildErrors == old(buildErrors) && buildTimes == old(buildTimes)
      ensures Book() == old(Book()) && progressCallbacks == old(progressCallbacks) && runs == old(runs)
    {
      if buildQueue == [] {
        return None;
      }
      job := Some(buildQueue[0]);
      buildQueue := buildQueue[1..];
    }

    /** `build_project` up to its first `await`: the checks, then the start of the run at clock `now`. */
    method StartBuild(sid: SessionId, force: bool, tree: ProjectTree, now: int) returns (r: Option<Reply>)
      requires Valid()
      modifies this
      ensures Valid()
      ensures r == StartDecision(old(buildStatus), sid, force, tree)
      ensures r.Some? ==> buildStatus == old(buildStatus) && runs == old(runs) && Book() == old(Book())
      ensures r.None? ==>
        && buildStatus == old(buildStatus)[sid := Building]
        && runs == old(runs)[sid := Installing(now)]
        && Book() == LoggedAll(old(Book()), sid, StartMessages, sid in progressCallbacks)
      ensures buildErrors == old(buildErrors) && buildTimes == old(buildTimes)
      ensures progressCallbacks == old(progressCallbacks) && buildQueue == old(buildQueue)
    {
      if !tree.projectExists {
        return Some(ErrorReply("Project not found for session " + sid));
      }
      if sid in buildStatus && buildStatus[sid] == Building {
        return Some(AlreadyBuilding);
      }
      if tree.distExists && !force {
        if tree.srcExists {
          var newer := AnyNewer(tree.srcMtimes, tree.distMtime);
          if !newer {
            return Some(UpToDate);
          }
        }
      }
      r := None;
      runs := runs[sid := Installing(now)];
      buildStatus := buildStatus[sid := Building];
      LoggedAllTwo(Book(), sid, "Build started", "Installing dependencies...", sid in progressCallbacks);
      AddLog(sid, "Build started");
      AddLog(sid, "Installing dependencies...");
    }

    /** The `except` clauses and `finally`: record the fault and end the run. */
    method EndWithFault(sid: SessionId, result: ProcessResult) returns (r: Reply)
      requires Valid() && sid in runs && !result.Exited?
      modifies this
      ensures Valid()
      ensures r == ErrorReply(FaultOutcome(result).reply)
      ensures EndedInFailure(sid, FaultOutcome(result))
    {
      var message := if result.TimedOut? then TimeoutMessage else "Build error: " + result.reason;
      buildStatus := buildStatus[sid := Error];
      buildErrors := buildErrors[sid := message];
      LoggedAllOne(Book(), sid, "Error: " + message, sid in progressCallbacks);
      AddLog(sid, "Error: " + message);
      notices := notices + [ErrorNotice(sid, message)];
      progressCallbacks := progressCallbacks - {sid};
      runs := runs - {sid};
      r := ErrorReply(message);
    }

    /** `build_project` resumed once `npm install` has finished with `result`. */
    method CompleteInstall(sid: SessionId, result: ProcessResult) returns (r: Option<Reply>)
      requires Valid() && sid in runs && runs[sid].Installing?
      modifies this
      ensures Valid()
      ensures InstallOutcome(result).Proceed? ==>
        && r.None?
        && runs == old(runs)[sid := Compiling(old(runs)[sid].startTime)]
        && Book() == LoggedAll(old(Book()), sid, InstalledMessages, sid in progressCallbacks)
        && buildStatus == old(buildStatus) && buildErrors == old(buildErrors) && buildTimes == old(buildTimes)
        && progressCallbacks == old(progressCallbacks) && buildQueue == old(buildQueue)
      ensures InstallOutcome(result).Fail? ==>
        r == Some(ErrorReply(InstallOutcome(result).reply)) && EndedInFailure(sid, InstallOutcome(result))
    {
      match result {
        case Exited(code, out, err) =>
          if code != 0 {
            var reply := FailInstall(sid, result);
            r := Some(reply);
          } else {
            var startTime := runs[sid].startTime;
            LoggedAllTwo(Book(), sid, "Dependencies installed successfully", "Building project...", sid in progressCallbacks);
            AddLog(sid, "Dependencies installed successfully");
            AddLog(sid, "Building project...");
            runs := runs[sid := Compiling(startTime)];
            r := None;
          }
        case _ =>
          var reply := EndWithFault(sid, result);
          r := Some(reply);
      }
    }

    /** The non-zero exit branch of the install step: record, log, end the run. */
    method FailInstall(sid: SessionId, result: ProcessResult) returns (r: Reply)
      requires Valid() && sid in runs && result.Exited? && result.returnCode != 0
      modifies this
      ensures Valid()
      ensures r == ErrorReply(InstallOutcome(result).reply)
      ensures EndedInFailure(sid, InstallOutcome(result))
    {
      var text := OutputText(result.stdout, result.stderr);
      buildStatus := buildStatus[sid := Error];
      buildErrors := buildErrors[sid := "npm install failed: " + text];
      LoggedAllOne(Book(), sid, "Error: npm install failed", sid in progressCallbacks);
      AddLog(sid, "Error: npm install failed");
      progressCallbacks := progressCallbacks - {sid};
      runs := runs - {sid};
      r := ErrorReply("npm install failed: " + Prefix(text, ErrorTextLimit));
    }

    /** `build_project` resumed once `npm run build` has finished with `result`, at clock `now`. */
    method CompleteBuild(sid: SessionId, result: ProcessResult, now: int) returns (r: Reply)
      requires Valid() && sid in runs && runs[sid].Compiling?
      modifies this
      ensures Valid()
      ensures BuildOutcome(result).Proceed? ==>
        r == Completed(now - old(runs)[sid].startTime) && EndedInSuccess(sid, now - old(runs)[sid].startTime)
      ensures BuildOutcome(result).Fail? ==>
        r == ErrorReply(BuildOutcome(result).reply) && EndedInFailure(sid, BuildOutcome(result))
    {
      match result {
        case Exited(code, out, err) =>
          if code != 0 {
            r := FailBuild(sid, result);
          } else {
            r := SucceedBuild(sid, now - runs[sid].startTime);
          }
        case _ =>
          r := EndWithFault(sid, result);
      }
    }

    /** The zero exit branch of the build step: record the time, log and broadcast it, end the run. */
    method SucceedBuild(sid: SessionId, buildTime: int) returns (r: Reply)
      requires Valid() && sid in runs
      modifies this
      ensures Valid()
      ensures r == Completed(buildTime)
      ensures EndedInSuccess(sid, buildTime)
    {
      buildStatus := buildStatus[sid := Success];
      buildTimes := buildTimes[sid := buildTime];
      AddLog(sid, CompletedMessage(buildTime));
      notices := notices + [CompletedNotice(sid, buildTime)];
      progressCallbacks := progressCallbacks - {sid};
      runs := runs - {sid};
      r := Completed(buildTime);
    }

    /** The non-zero exit branch of the build step: record, log the output's tail, end the run. */
    method FailBuild(sid: SessionId, result: ProcessResult) returns (r: Reply)
      requires Valid() && sid in runs && result.Exited? && result.returnCode != 0
      modifies this
      ensures Valid()
      ensures r == ErrorReply(BuildOutcome(result).reply)
      ensures EndedInFailure(sid, BuildOutcome(result))
    {
      var text := OutputText(result.stdout, result.stderr);
      ghost var callback := sid in progressCallbacks;
      buildStatus := buildStatus[sid := Error];
      buildErrors := buildErrors[sid := "Build failed: " + text];
      ghost var before := Book();
      AddLog(sid, "Error: Build failed");
      LoggedAllOne(before, sid, "Error: Build failed", callback);
      var lines := Tail(Split(text, '\n'), ErrorLineCount);
      LogErrorLines(sid, lines);
      LoggedAllConcat(before, sid, ["Error: Build failed"], IndentNonBlank(lines), callback);
      progressCallbacks := progressCallbacks - {sid};
      runs := runs - {sid};
      r := ErrorReply("Build failed: " + Prefix(text, ErrorTextLimit));
    }

    /** The loop of the build step's failure branch: each non-blank line, indented. */
    method LogErrorLines(sid: SessionId, lines: seq<string>)
      requires Bounded(Book())
      modifies this
      ensures Bounded(Book())
      ensures Book() == LoggedAll(old(Book()), sid, IndentNonBlank(lines), sid in progressCallbacks)
      ensures buildStatus == old(buildStatus) && buildErrors == old(buildErrors) && buildTimes == old(buildTimes)
      ensures progressCallbacks == old(progressCallbacks) && buildQueue == old(buildQueue) && runs == old(runs)
    {
      ghost var start := Book();
      ghost var callback := sid in progressCallbacks;
      var i := 0;
      assert LoggedIndented(start, sid, lines[..0], callback) == start by {
        assert lines[..0] == [];
      }
      while i < |lines|
        invariant 0 <= i <= |lines|
        invariant Bounded(Book())
        invariant Book() == LoggedIndented(start, sid, lines[..i], callback)
        invariant buildStatus == old(buildStatus) && buildErrors == old(buildErrors) && buildTimes == old(buildTimes)
        invariant progressCallbacks == old(progressCallbacks) && buildQueue == old(buildQueue) && runs == old(runs)
      {
        LoggedIndentedStep(start, sid, lines, i, callback);
        if !IsBlank(lines[i]) {
          AddLog(sid, "  " + lines[i]);
        }
        i := i + 1;
      }
      assert lines[..|lines|] == lines;
    }
  }

  // ---------------------------------------------------------------- scenarios

  /**
   * A fresh session from request to result: the forced request is queued,
   * dispatched and started, and whatever the two commands do the session
   * ends in SUCCESS (both exit with 0, with the elapsed time) or ERROR,
   * never left BUILDING.
   */
  method FreshSessionBuild(sid: SessionId, tree: ProjectTree, install: ProcessResult,
                           build: ProcessResult, t0: int, t1: int)
    returns (queued: Reply, final: Reply, status: BuildStatus)
    requires tree.projectExists
    ensures queued == Queued
    ensures final.Completed? <==>
      install.Exited? && install.returnCode == 0 && build.Exited? && build.returnCode == 0
    ensures final.Completed? ==> final.buildTime == t1 - t0 && status == Success
    ensures !final.Completed? ==> final.ErrorReply? && status == Error
  {
    var service := new BuildService();
    queued := service.QueueBuild(sid, true, tree);
    var job := service.DispatchNext();
    var started := service.StartBuild(job.value.session, job.value.forceRebuild, tree, t0);
    var installed := service.CompleteInstall(sid, install);
    if installed.Some? {
      final := installed.value;
    } else {
      final := service.CompleteBuild(sid, build, t1);
    }
    status := service.GetBuildStatus(sid).status;
  }

  /**
   * Two requests for one session before dispatch are both queued: the
   * "already building" check only sees runs that have started.
   */
  method QueueTwiceBeforeDispatch(sid: SessionId, tree: ProjectTree)
    returns (first: Reply, second: Reply, queued: seq<BuildJob>)
    ensures first == Queued && second == Queued
    ensures queued == [BuildJob(sid, true), BuildJob(sid, true)]
  {
    var service := new BuildService();
    first := service.QueueBuild(sid, true, tree);
    second := service.QueueBuild(sid, true, tree);
    queued := service.buildQueue;
  }

  /**
   * With `dist` but no `dist/index.html`, a non-forced request is queued,
   * and the run it starts returns at once as up to date: the session is
   * left PENDING with an empty log, and no run is in flight.
   */
  method QueuedRunLeftPending(sid: SessionId, tree: ProjectTree)
    returns (queued: Reply, started: Option<Reply>, report: StatusReport)
    requires tree.projectExists && tree.distExists && !tree.indexHtmlExists && SourcesUnchanged(tree)
    ensures queued == Queued && started == Some(UpToDate)
    ensures report.status == Pending && report.logs == []
  {
    var service := new BuildService();
    queued := service.QueueBuild(sid, false, tree);
    var job := service.DispatchNext();
    started := service.StartBuild(job.value.session, job.value.forceRebuild, tree, 0);
    report := service.GetBuildStatus(sid);
  }

  /**
   * A later successful build keeps the error text of an earlier failed
   * one: `get_build_status` reports SUCCESS together with the old error.
   */
  method StaleErrorAfterSuccess(sid: SessionId, tree: ProjectTree, out: string, t0: int, t1: int, t2: int, t3: int)
    returns (status: StatusReport)
    requires tree.projectExists
    ensures status.status == Success
    ensures status.error == Some("npm install failed: " + out)
    ensures status.buildTime == Some(t3 - t2)
  {
    var service := new BuildService();
    var started := service.StartBuild(sid, true, tree, t0);
    var failed := service.CompleteInstall(sid, Exited(1, out, ""));
    started := service.StartBuild(sid, true, tree, t2);
    var installed := service.CompleteInstall(sid, Exited(0, "", ""));
    var built := service.CompleteBuild(sid, Exited(0, "", ""), t3);
    status := service.GetBuildStatus(sid);
  }
}
