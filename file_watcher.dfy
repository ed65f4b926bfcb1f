/**
 * Live reload: a per-session handler that filters file-system events,
 * debounces them per path, and calls the session's change callback; and
 * the registry of watched sessions. Clock readings are integer
 * milliseconds supplied by the caller; the watchdog Observer thread is
 * represented only by its presence in the registry.
 */
module Watching {
  import opened Text

  type SessionId = string

  /** Path components under which no event is processed. */
  const ExcludedParts: set<string> := {"node_modules", "dist", ".git", "__pycache__"}

  /** The only file suffixes whose events are processed. */
  const WatchedSuffixes: set<string> := {".tsx", ".ts", ".jsx", ".js", ".css", ".json"}

  /** The debounce window the watcher gives every handler: 1.0 s. */
  const DefaultDebounceMillis: nat := 1000

  /**
   * The named components of a '/'-separated path, as pathlib's `parts`
   * without the root: empty and "." segments are dropped.
   */
  function Components(path: string): (r: seq<string>)
    ensures forall k :: 0 <= k < |r| ==> r[k] != "" && r[k] != "."
  {
    NamedSegments(Split(path, '/'))
  }

  function NamedSegments(segments: seq<string>): (r: seq<string>)
    ensures forall k :: 0 <= k < |r| ==> r[k] != "" && r[k] != "."
    ensures forall s :: s in segments && s != "" && s != "." ==> s in r
    ensures forall s :: s in r ==> s in segments
  {
    if segments == [] then []
    else if segments[0] == "" || segments[0] == "." then NamedSegments(segments[1..])
    else [segments[0]] + NamedSegments(segments[1..])
  }

  /** pathlib's `name`: the last component, or "" for a path with none. */
  function Name(path: string): string
  {
    var parts := Components(path);
    if parts == [] then "" else parts[|parts| - 1]
  }

  /** The position of the last `c` in `s`, or -1 (Python's `rfind`). */
  function LastIndexOf(s: string, c: char): (i: int)
    ensures -1 <= i < |s|
    ensures i >= 0 ==> s[i] == c
    ensures forall k :: i < k < |s| ==> s[k] != c
  {
    if |s| == 0 then -1
    else if s[|s| - 1] == c then |s| - 1
    else LastIndexOf(s[..|s| - 1], c)
  }

  /**
   * pathlib's `suffix` of a file name: from the last dot on, provided the
   * dot is neither the first nor the last character; "" otherwise.
   */
  function Suffix(name: string): (r: string)
    ensures r != "" ==> 2 <= |r| < |name| && r == name[|name| - |r|..]
                        && r[0] == '.' && '.' !in r[1..]
  {
    var i := LastIndexOf(name, '.');
    if 0 < i < |name| - 1 then name[i..] else ""
  }

  /** Python's `any(part in parts for part in excluded)`, as a scan. */
  function HasExcludedPart(parts: seq<string>): (r: bool)
    ensures r <==> exists k :: 0 <= k < |parts| && parts[k] in ExcludedParts
  {
    if parts == [] then false
    else parts[0] in ExcludedParts || HasExcludedPart(parts[1..])
  }

  /** `CodeChangeHandler.should_process_event`. */
  function ShouldProcessEvent(path: string): (r: bool)
    ensures r <==>
      (forall k :: 0 <= k < |Components(path)| ==> Components(path)[k] !in ExcludedParts)
      && Suffix(Name(path)) in WatchedSuffixes
  {
    if HasExcludedPart(Components(path)) then false
    else if Suffix(Name(path)) !in WatchedSuffixes then false
    else true
  }

  /** A path with an excluded directory anywhere among its segments is ignored. */
  lemma ExcludedSegmentIgnored(path: string, k: nat)
    requires k < |Split(path, '/')| && Split(path, '/')[k] in ExcludedParts
    ensures !ShouldProcessEvent(path)
  {
    var seg := Split(path, '/')[k];
    assert seg in Split(path, '/');
    assert seg in Components(path);
  }

  /** A file with a watched suffix, outside excluded directories, is processed. */
  lemma WatchedFileProcessed(dir: string, name: string)
    requires '/' !in name && Suffix(name) in WatchedSuffixes
    requires forall k :: 0 <= k < |Components(dir)| ==> Components(dir)[k] !in ExcludedParts
    ensures ShouldProcessEvent(dir + "/" + name)
  {
    assert name != "" && name != ".";
    if name in ExcludedParts {
      ExcludedNamesHaveNoSuffix(name);
    }
    SplitAfterSeparator(dir, name);
    ComponentsAppend(Split(dir, '/'), name);
    assert Components(dir + "/" + name) == Components(dir) + [name];
  }

  /** `rfind` finds the position of a `c` with no `c` after it. */
  lemma LastIndexOfAt(s: string, c: char, i: nat)
    requires i < |s| && s[i] == c
    requires forall k :: i < k < |s| ==> s[k] != c
    ensures LastIndexOf(s, c) == i
    decreases |s|
  {
    if i < |s| - 1 {
      LastIndexOfAt(s[..|s| - 1], c, i);
    }
  }

  /**
   * A name whose last dot is neither its first nor its last character has
   * the suffix starting at that dot ("App.tsx" has ".tsx").
   */
  lemma SuffixFromLastDot(name: string, i: nat)
    requires 0 < i < |name| - 1 && name[i] == '.'
    requires forall k :: i < k < |name| ==> name[k] != '.'
    ensures Suffix(name) == name[i..]
  {
    LastIndexOfAt(name, '.', i);
  }

  /** No excluded directory name has a suffix (".git" starts with its only dot). */
  lemma ExcludedNamesHaveNoSuffix(name: string)
    requires name in ExcludedParts
    ensures Suffix(name) == ""
  {
    if name == ".git" {
      LastIndexOfAt(name, '.', 0);
    } else {
      assert '.' !in name;
    }
  }

  /** Splitting `dir + "/" + name` (no '/' in name) adds `name` as the last segment. */
  lemma {:induction false} SplitAfterSeparator(dir: string, name: string)
    requires '/' !in name
    ensures Split(dir + "/" + name, '/') == Split(dir, '/') + [name]
    decreases |dir|
  {
    var s := dir + "/" + name;
    if |dir| == 0 {
      assert s == "/" + name;
      SplitNoSeparator(name);
      assert s[1..] == name;
    } else {
      assert s[1..] == dir[1..] + "/" + name;
      SplitAfterSeparator(dir[1..], name);
    }
  }

  lemma {:induction false} SplitNoSeparator(name: string)
    requires '/' !in name
    ensures Split(name, '/') == [name]
    decreases |name|
  {
    if |name| > 0 {
      SplitNoSeparator(name[1..]);
      assert [name[0]] + name[1..] == name;
    }
  }

  lemma {:induction false} ComponentsAppend(segments: seq<string>, name: string)
    requires name != "" && name != "."
    ensures NamedSegments(segments + [name]) == NamedSegments(segments) + [name]
    decreases |segments|
  {
    if segments == [] {
      assert NamedSegments([name]) == [name] + NamedSegments([]);
    } else {
      assert (segments + [name])[1..] == segments[1..] + [name];
      ComponentsAppend(segments[1..], name);
    }
  }

  /** A modification event as watchdog reports it. */
  datatype FsEvent = FsEvent(srcPath: string, isDirectory: bool)

  /**
   * The debounced task last scheduled for a path: the change time it
   * carries, and whether it is still sleeping (`waiting`) or has run.
   */
  datatype DebounceTask = DebounceTask(changeTime: int, waiting: bool)

  /** What the session's `on_change` callback did; either way nothing propagates. */
  datatype CallbackResult = Returned | Raised(reason: string)

  class CodeChangeHandler {
    const sessionId: SessionId
    const debounceWindow: nat
    var lastChangeTime: map<string, int>
    var pendingTasks: map<string, DebounceTask>
    /** The paths for which `on_change(sessionId)` was invoked, in order. */
    var handled: seq<string>

    constructor (sessionId: SessionId, debounceWindow: nat)
      ensures this.sessionId == sessionId && this.debounceWindow == debounceWindow
      ensures lastChangeTime == map[] && pendingTasks == map[] && handled == []
    {
      this.sessionId := sessionId;
      this.debounceWindow := debounceWindow;
      lastChangeTime := map[];
      pendingTasks := map[];
      handled := [];
    }

    /** `last_change_time.get(path, 0)`. */
    function LastTime(path: string): int
      reads this
    {
      if path in lastChangeTime then lastChangeTime[path] else 0
    }

    /**
     * `on_modified`: an event outside the window of the path's last
     * recorded change fires at once and records `now`; one inside it
     * cancels the path's pending task and schedules a new one.
     */
    method OnModified(event: FsEvent, now: int, callback: CallbackResult)
      modifies this
      ensures event.isDirectory || !ShouldProcessEvent(event.srcPath) ==>
        lastChangeTime == old(lastChangeTime) && pendingTasks == old(pendingTasks) && handled == old(handled)
      ensures !event.isDirectory && ShouldProcessEvent(event.srcPath)
              && now - old(LastTime(event.srcPath)) >= debounceWindow ==>
        lastChangeTime == old(lastChangeTime)[event.srcPath := now]
        && pendingTasks == old(pendingTasks)
        && handled == old(handled) + [event.srcPath]
      ensures !event.isDirectory && ShouldProcessEvent(event.srcPath)
              && now - old(LastTime(event.srcPath)) < debounceWindow ==>
        pendingTasks == old(pendingTasks)[event.srcPath := DebounceTask(now, true)]
        && lastChangeTime == old(lastChangeTime)
        && handled == old(handled)
    {
      if event.isDirectory {
        return;
      }
      var path := event.srcPath;
      if !ShouldProcessEvent(path) {
        return;
      }
      var lastTime := LastTime(path);
      if now - lastTime < debounceWindow {
        // cancelling the old task and storing the new one is one map update
        pendingTasks := pendingTasks[path := DebounceTask(now, true)];
      } else {
        lastChangeTime := lastChangeTime[path := now];
        HandleChange(path, callback);
      }
    }

    /**
     * `_debounced_change` once its sleep is over: the sleeping task of
     * `path` runs, and fires only if no later change has been recorded.
     * A path without a sleeping task (never scheduled, cancelled and
     * replaced, or already run) has nothing to wake.
     */
    method FirePending(path: string, callback: CallbackResult) returns (fired: bool)
      modifies this
      ensures path !in old(pendingTasks) || !old(pendingTasks)[path].waiting ==>
        !fired && lastChangeTime == old(lastChangeTime) && pendingTasks == old(pendingTasks)
        && handled == old(handled)
      ensures path in old(pendingTasks) && old(pendingTasks)[path].waiting ==>
        var t := old(pendingTasks)[path].changeTime;
        pendingTasks == old(pendingTasks)[path := DebounceTask(t, false)]
        && fired == (old(LastTime(path)) <= t)
        && lastChangeTime == (if fired then old(lastChangeTime)[path := t] else old(lastChangeTime))
        && handled == old(handled) + (if fired then [path] else [])
    {
      fired := false;
      if path !in pendingTasks || !pendingTasks[path].waiting {
        return;
      }
      var changeTime := pendingTasks[path].changeTime;
      pendingTasks := pendingTasks[path := DebounceTask(changeTime, false)];
      if LastTime(path) <= changeTime {
        lastChangeTime := lastChangeTime[path := changeTime];
        HandleChange(path, callback);
        fired := true;
      }
    }

    /** `_handle_change`: invokes the callback; an exception it raises is swallowed. */
    method HandleChange(path: string, callback: CallbackResult)
      modifies this
      ensures handled == old(handled) + [path]
      ensures lastChangeTime == old(lastChangeTime) && pendingTasks == old(pendingTasks)
    {
      handled := handled + [path];
      match callback {
        case Returned =>
        case Raised(_) =>
          // printed and dropped
      }
    }
  }

  /**
   * Three events on one path 300 ms apart with a 1 s window: the first
   * fires at once (nothing recorded yet), the second is superseded by the
   * third, and the third fires when its task wakes, so the callback runs
   * twice.
   */
  method BurstFiresLeadingAndTrailing(path: string, t0: int) returns (calls: seq<string>, last: int)
    requires ShouldProcessEvent(path)
    requires t0 >= DefaultDebounceMillis
    ensures calls == [path, path]
    ensures last == t0 + 600
  {
    var h := new CodeChangeHandler("abc", DefaultDebounceMillis);
    h.OnModified(FsEvent(path, false), t0, Returned);
    h.OnModified(FsEvent(path, false), t0 + 300, Returned);
    h.OnModified(FsEvent(path, false), t0 + 600, Returned);
    var fired := h.FirePending(path, Returned);
    calls := h.handled;
    last := h.LastTime(path);
  }

  /**
   * A task scheduled inside the window is not cancelled when a later
   * event fires at once; when it wakes it finds a later change recorded
   * and does nothing.
   */
  method SupersededTaskDoesNothing(path: string, t0: int) returns (calls: seq<string>, fired: bool)
    requires ShouldProcessEvent(path)
    requires t0 >= DefaultDebounceMillis
    ensures calls == [path, path] && !fired
  {
    var h := new CodeChangeHandler("abc", DefaultDebounceMillis);
    h.OnModified(FsEvent(path, false), t0, Returned);
    h.OnModified(FsEvent(path, false), t0 + 500, Returned);
    h.OnModified(FsEvent(path, false), t0 + 1200, Raised("callback failed"));
    fired := h.FirePending(path, Returned);
    calls := h.handled;
  }

  class FileWatcher {
    /** Sessions with a started Observer thread. */
    var observers: set<SessionId>
    var handlers: map<SessionId, CodeChangeHandler>
    var isWatching: map<SessionId, bool>

    ghost predicate Valid()
      reads this
    {
      && handlers.Keys == observers
      && isWatching.Keys == observers
      && (forall s :: s in isWatching ==> isWatching[s])
      && (forall s :: s in handlers ==> handlers[s].sessionId == s)
    }

    constructor ()
      ensures Valid()
      ensures observers == {} && handlers == map[] && isWatching == map[]
    {
      observers := {};
      handlers := map[];
      isWatching := map[];
    }

    /** `is_watching_session`. */
    function IsWatchingSession(sid: SessionId): (r: bool)
      reads this
      requires Valid()
      ensures r <==> sid in observers
    {
      if sid in isWatching then isWatching[sid] else false
    }

    /**
     * `watch_session`: a no-op when the session is already watched or its
     * `src` directory is missing; otherwise a fresh handler with the
     * default window is registered and the observer started.
     */
    method WatchSession(sid: SessionId, srcExists: bool)
      requires Valid()
      modifies this
      ensures Valid()
      ensures sid in old(observers) || !srcExists ==>
        observers == old(observers) && handlers == old(handlers) && isWatching == old(isWatching)
      ensures sid !in old(observers) && srcExists ==>
        && observers == old(observers) + {sid}
        && sid in handlers && fresh(handlers[sid])
        && handlers == old(handlers)[sid := handlers[sid]]
        && handlers[sid].debounceWindow == DefaultDebounceMillis
        && handlers[sid].lastChangeTime == map[] && handlers[sid].pendingTasks == map[]
        && handlers[sid].handled == []
        && isWatching == old(isWatching)[sid := true]
    {
      if sid in observers {
        return;
      }
      if !srcExists {
        return;
      }
      var handler := new CodeChangeHandler(sid, DefaultDebounceMillis);
      handlers := handlers[sid := handler];
      observers := observers + {sid};
      isWatching := isWatching[sid := true];
    }

    /**
     * `stop_watching`: forgets the session in all three tables. The
     * handler itself is left as it is, so its sleeping tasks still run.
     */
    method StopWatching(sid: SessionId)
      requires Valid()
      modifies this
      ensures Valid()
      ensures observers == old(observers) - {sid}
      ensures handlers == old(handlers) - {sid}
      ensures isWatching == old(isWatching) - {sid}
    {
      if sid in observers {
        observers := observers - {sid};
        handlers := handlers - {sid};
        isWatching := isWatching - {sid};
      }
    }

    /** `stop_all`: stops every session in a snapshot of the watched ones. */
    method StopAll()
      requires Valid()
      modifies this
      ensures Valid()
      ensures observers == {} && handlers == map[] && isWatching == map[]
      ensures forall s :: !IsWatchingSession(s)
    {
      var sessions := observers;
      while sessions != {}
        invariant Valid()
        invariant observers == sessions
        decreases sessions
      {
        var sid :| sid in sessions;
        StopWatching(sid);
        sessions := sessions - {sid};
      }
      assert handlers.Keys == {} && isWatching.Keys == {};
    }
  }

  /**
   * `stop_watching` does not cancel a sleeping debounce task: after the
   * session is stopped, the task still wakes and calls back.
   */
  method StopLeavesPendingTask(path: string, t0: int) returns (watched: bool, calls: seq<string>)
    requires ShouldProcessEvent(path)
    requires t0 >= DefaultDebounceMillis
    ensures !watched && calls == [path, path]
  {
    var watcher := new FileWatcher();
    watcher.WatchSession("abc", true);
    var h := watcher.handlers["abc"];
    assert h.handled == [] && h.LastTime(path) == 0;
    h.OnModified(FsEvent(path, false), t0, Returned);
    assert h.handled == [path] && h.LastTime(path) == t0;
    h.OnModified(FsEvent(path, false), t0 + 100, Returned);
    assert h.pendingTasks[path] == DebounceTask(t0 + 100, true);
    watcher.StopWatching("abc");
    watched := watcher.IsWatchingSession("abc");
    var fired := h.FirePending(path, Returned);
    calls := h.handled;
  }
}
