/**
 * The folder watcher: a per-path debounce map, the ordered validation of
 * each event, the two-sample stability test, the initial sweep of files
 * already present, the start/stop state of the monitor and the name given
 * to an archived file. The disk and the clock are inputs: a file is seen
 * through the results of its `exists`/`stat` calls, time is an integer
 * number of milliseconds.
 */
module FileMonitor {
  import opened Wrappers
  import opened Text
  import opened Paths
  import opened Handoff
  import opened Browser

  // ---------- stability ----------

  /** One `stat().st_size`: a size, `FileNotFoundError`, or any other exception. */
  datatype Stat = Size(bytes: nat) | StatMissing | StatError

  /** The two size samples `_is_file_stable` takes, one wait apart. */
  datatype Samples = Samples(first: Stat, second: Stat)

  /**
   * `_is_file_stable`: `Some(b)` is the returned boolean, `None` an
   * exception other than `FileNotFoundError`, which propagates.
   */
  function IsFileStable(s: Samples): (r: Option<bool>)
    ensures r == Some(true) <==> s.first.Size? && s.second.Size? && s.first.bytes == s.second.bytes && s.second.bytes > 0
    ensures r.None? <==> s.first == StatError || (s.first.Size? && s.second == StatError)
    ensures s.first == StatMissing || (s.first.Size? && s.second == StatMissing) ==> r == Some(false)
  {
    match s.first
    case StatMissing => Some(false)
    case StatError => None
    case Size(s1) =>
      match s.second
      case StatMissing => Some(false)
      case StatError => None
      case Size(s2) => Some(s1 == s2 && s2 > 0)
  }

  /** The wait between the two samples: `max(800, retry_delay_ms)`. */
  function StabilityWaitMs(retryDelayMs: int): (w: int)
    ensures w >= 800 && w >= retryDelayMs
    ensures w == 800 || w == retryDelayMs
  {
    if retryDelayMs > 800 then retryDelayMs else 800
  }

  /** The pause before the second stability check: `max(0.2 s, retry_delay_ms)`. */
  function RetryPauseMs(retryDelayMs: int): (w: int)
    ensures w >= 200 && w >= retryDelayMs
    ensures w == 200 || w == retryDelayMs
  {
    if retryDelayMs > 200 then retryDelayMs else 200
  }

  // ---------- screening one event ----------

  /** What `_process` learns about a file from the disk, call by call. */
  datatype FileProbe = FileProbe(present: bool, size: Stat, check1: Samples, check2: Samples)

  /** How the handling of one event ended. */
  datatype Verdict =
    | Debounced          // an event for the same path inside the window
    | Missing            // `exists()` is false
    | StatFailed         // `stat()` raised; logged and swallowed
    | Empty              // size 0
    | ExtensionRejected  // lower-cased suffix not allowed
    | TooLarge           // above `max_file_size_mb` MiB
    | Unstable           // both stability checks failed
    | CheckFailed        // a stability check raised; logged and swallowed
    | Delivered          // handed to the callback

  datatype Screening = Screening(verdict: Verdict, checks: nat)

  const MiB: nat := 1024 * 1024

  /** `size / (1024*1024) > max_mb`, in exact arithmetic. */
  predicate TooBig(size: nat, maxMb: int) {
    size > maxMb * MiB
  }

  /** The file's suffix, lower-cased, is one of the (lower-cased) allowed extensions. */
  predicate ExtensionAllowed(name: string, allowed: seq<string>) {
    Lower(Suffix(name)) in allowed
  }

  /** The stability test passes on the first check, or fails cleanly once and passes on the second. */
  predicate SettlesWithinTwo(p: FileProbe) {
    IsFileStable(p.check1) == Some(true) ||
    (IsFileStable(p.check1) == Some(false) && IsFileStable(p.check2) == Some(true))
  }

  /** Everything `_process` demands of a file before it calls back. */
  predicate Acceptable(name: string, p: FileProbe, allowed: seq<string>, maxMb: int) {
    p.present && p.size.Size? && p.size.bytes > 0 && ExtensionAllowed(name, allowed) &&
    !TooBig(p.size.bytes, maxMb) && SettlesWithinTwo(p)
  }

  /**
   * The checks of `_process` after the debounce, in their order: exists,
   * size > 0, extension, maximum size, then stability, retried once.
   */
  function Screen(name: string, p: FileProbe, allowed: seq<string>, maxMb: int): (r: Screening)
    ensures r.verdict == Delivered <==> Acceptable(name, p, allowed, maxMb)
    ensures r.verdict != Debounced
    ensures r.checks <= 2
    ensures r.checks > 0 <==>
      p.present && p.size.Size? && p.size.bytes > 0 && ExtensionAllowed(name, allowed) && !TooBig(p.size.bytes, maxMb)
    ensures r.checks == 2 <==> r.checks > 0 && IsFileStable(p.check1) == Some(false)
    ensures r.verdict == Unstable ==> r.checks == 2
  {
    if !p.present then Screening(Missing, 0)
    else match p.size
      case StatMissing => Screening(StatFailed, 0)
      case StatError => Screening(StatFailed, 0)
      case Size(size) =>
        if size == 0 then Screening(Empty, 0)
        else if !ExtensionAllowed(name, allowed) then Screening(ExtensionRejected, 0)
        else if TooBig(size, maxMb) then Screening(TooLarge, 0)
        else match IsFileStable(p.check1)
          case None => Screening(CheckFailed, 1)
          case Some(true) => Screening(Delivered, 1)
          case Some(false) =>
            match IsFileStable(p.check2)
            case None => Screening(CheckFailed, 2)
            case Some(true) => Screening(Delivered, 2)
            case Some(false) => Screening(Unstable, 2)
  }

  // ---------- debounce ----------

  /**
   * `last and (now - last) < debounce_sec`: a recorded time of 0 counts as
   * no record, as Python's truthiness does.
   */
  predicate Suppressed(recent: map<FilePath, int>, file: FilePath, now: int, debounceMs: int) {
    file in recent && recent[file] != 0 && now - recent[file] < debounceMs
  }

  /** After an event at a non-zero time `t`, exactly the events for that path before `t + window` are suppressed. */
  lemma DebounceWindow(recent: map<FilePath, int>, file: FilePath, t: int, later: int, debounceMs: int)
    requires t != 0
    ensures Suppressed(recent[file := t], file, later, debounceMs) <==> later < t + debounceMs
  {
  }

  /** Recording an event for one path leaves every other path's window as it was. */
  lemma DebounceIsPerPath(recent: map<FilePath, int>, file: FilePath, other: FilePath, t: int, later: int, debounceMs: int)
    requires other != file
    ensures Suppressed(recent[file := t], other, later, debounceMs) == Suppressed(recent, other, later, debounceMs)
  {
  }

  /** `[ext.lower() for ext in allowed_extensions]`. */
  function LowerAll(exts: seq<string>): (r: seq<string>)
    ensures |r| == |exts|
    ensures forall i :: 0 <= i < |exts| ==> r[i] == Lower(exts[i])
  {
    seq(|exts|, i requires 0 <= i < |exts| => Lower(exts[i]))
  }

  /** The stored allow-list holds no capital letter, and lower-casing it again changes nothing. */
  lemma LowerAllIsLowerCase(exts: seq<string>)
    ensures forall i, j :: 0 <= i < |LowerAll(exts)| && 0 <= j < |LowerAll(exts)[i]| ==> !('A' <= LowerAll(exts)[i][j] <= 'Z')
    ensures LowerAll(LowerAll(exts)) == LowerAll(exts)
  {
    forall i | 0 <= i < |exts|
      ensures Lower(Lower(exts[i])) == Lower(exts[i])
    {
      LowerIdempotent(exts[i]);
    }
  }

  /** Because the allow-list is stored lower-cased, the extension test ignores the case of the suffix. */
  lemma ExtensionTestIgnoresCase(name1: string, name2: string, exts: seq<string>)
    requires Lower(Suffix(name1)) == Lower(Suffix(name2))
    ensures ExtensionAllowed(name1, LowerAll(exts)) == ExtensionAllowed(name2, LowerAll(exts))
  {
  }

  /** An allowed extension written in any case admits a file whose suffix is that extension in any case. */
  lemma AllowListCaseInsensitive(name: string, exts: seq<string>, k: nat)
    requires k < |exts| && Lower(Suffix(name)) == Lower(exts[k])
    ensures ExtensionAllowed(name, LowerAll(exts))
  {
    assert LowerAll(exts)[k] == Lower(exts[k]);
  }

  /** `max(0.1, float(debounce_sec))`, with the window in milliseconds. */
  function DebounceWindowMs(requestedMs: int): (w: int)
    ensures w >= 100 && w >= requestedMs
    ensures w == 100 || w == requestedMs
  {
    if requestedMs > 100 then requestedMs else 100
  }

  // ---------- the event handler ----------

  /**
   * `FileHandler`: its callback is the owning monitor's `_handle_file`; it
   * keeps the allow-list lower-cased, the debounce window and the map from
   * path to the time of its last accepted event.
   */
  class FileHandler {
    const owner: Monitor
    const allowed: seq<string>
    const debounceMs: int
    var recent: map<FilePath, int>

    constructor (owner: Monitor, allowedExtensions: seq<string>, debounceRequestedMs: int)
      ensures this.owner == owner
      ensures allowed == LowerAll(allowedExtensions)
      ensures debounceMs == DebounceWindowMs(debounceRequestedMs)
      ensures recent == map[]
    {
      this.owner := owner;
      allowed := LowerAll(allowedExtensions);
      debounceMs := DebounceWindowMs(debounceRequestedMs);
      recent := map[];
    }

    /**
     * `_process(file)` at time `now`: drop the event inside the window;
     * otherwise record `now` for the path first, then run the checks and
     * hand the file to the monitor only when all pass. No exception escapes.
     */
    method Process(file: FilePath, now: int, probe: FileProbe, maxMb: int, retryDelayMs: int) returns (s: Screening)
      modifies this, owner.callback
      ensures Suppressed(old(recent), file, now, debounceMs) ==> s == Screening(Debounced, 0) && recent == old(recent)
      ensures !Suppressed(old(recent), file, now, debounceMs) ==>
        s == Screen(file.name, probe, allowed, maxMb) && recent == old(recent)[file := now]
      ensures s.verdict == Delivered <==>
        !Suppressed(old(recent), file, now, debounceMs) && Acceptable(file.name, probe, allowed, maxMb)
      ensures owner.callback != null ==>
        owner.callback.items == old(owner.callback.items) + (if s.verdict == Delivered then [file] else [])
      ensures owner.callback != null ==> owner.callback.unfinished == old(owner.callback.unfinished) + (if s.verdict == Delivered then 1 else 0)
    {
      if Suppressed(recent, file, now, debounceMs) {
        return Screening(Debounced, 0);
      }
      recent := recent[file := now];

      if !probe.present {
        return Screening(Missing, 0);
      }
      if !probe.size.Size? {
        return Screening(StatFailed, 0);
      }
      var size := probe.size.bytes;
      if size == 0 {
        return Screening(Empty, 0);
      }
      if !ExtensionAllowed(file.name, allowed) {
        return Screening(ExtensionRejected, 0);
      }
      if TooBig(size, maxMb) {
        return Screening(TooLarge, 0);
      }

      // Wait for the copy to finish: each check waits StabilityWaitMs(retryDelayMs).
      var checks := 1;
      var stable := IsFileStable(probe.check1);
      if stable == Some(false) {
        // pause RetryPauseMs(retryDelayMs), then check again
        checks := 2;
        stable := IsFileStable(probe.check2);
      }
      if stable.None? {
        return Screening(CheckFailed, checks);
      }
      if stable == Some(false) {
        return Screening(Unstable, checks);
      }
      owner.HandleFile(file);
      s := Screening(Delivered, checks);
    }
  }

  // ---------- the initial sweep ----------

  /** One entry of `monitor_folder.glob("*")`: its path, `is_file()`, its `stat()` and the stability samples. */
  datatype SweepEntry = SweepEntry(path: FilePath, isFile: bool, size: Stat, samples: Samples)

  /** The entry gets as far as `stat()`: a regular file with an allowed extension. */
  predicate ReachesStat(e: SweepEntry, allowed: seq<string>) {
    e.isFile && ExtensionAllowed(e.path.name, LowerAll(allowed))
  }

  /** What the sweep does with one entry: pass over it, hand it over, or stop on an exception. */
  datatype SweepStep = Skip | Take | Halt

  /** Handling the entry raises, which ends the whole sweep. */
  predicate SweepRaises(e: SweepEntry, allowed: seq<string>) {
    ReachesStat(e, allowed) &&
    (!e.size.Size? || (e.size.bytes > 0 && IsFileStable(e.samples).None?))
  }

  /** The entry is handed over: a regular file, allowed extension, positive size, one passing stability check. */
  predicate SweepEligible(e: SweepEntry, allowed: seq<string>) {
    ReachesStat(e, allowed) && e.size.Size? && e.size.bytes > 0 && IsFileStable(e.samples) == Some(true)
  }

  /** The paths handed over from the eligible entries of `entries`, in order. */
  function Picks(entries: seq<SweepEntry>, allowed: seq<string>): (r: seq<FilePath>)
    ensures |r| <= |entries|
    ensures forall p :: p in r ==> exists i :: 0 <= i < |entries| && SweepEligible(entries[i], allowed) && entries[i].path == p
  {
    if entries == [] then []
    else
      var init := entries[..|entries| - 1];
      var e := entries[|entries| - 1];
      var r := Picks(init, allowed) + (if SweepEligible(e, allowed) then [e.path] else []);
      assert forall p :: p in Picks(init, allowed) ==> exists i :: 0 <= i < |entries| && SweepEligible(entries[i], allowed) && entries[i].path == p by {
        forall p | p in Picks(init, allowed)
          ensures exists i :: 0 <= i < |entries| && SweepEligible(entries[i], allowed) && entries[i].path == p
        {
          var i :| 0 <= i < |init| && SweepEligible(init[i], allowed) && init[i].path == p;
          assert entries[i] == init[i];
        }
      }
      r
  }

  /** The index of the first entry whose handling raises, or `|entries|`. */
  function FirstRaise(entries: seq<SweepEntry>, allowed: seq<string>): (k: nat)
    ensures k <= |entries|
    ensures k < |entries| ==> SweepRaises(entries[k], allowed)
    ensures forall j :: 0 <= j < k ==> !SweepRaises(entries[j], allowed)
  {
    if entries == [] then 0
    else if SweepRaises(entries[0], allowed) then 0
    else
      var k := FirstRaise(entries[1..], allowed);
      assert forall j :: 1 <= j < k + 1 ==> entries[j] == entries[1..][j - 1];
      k + 1
  }

  /** What `_initial_sweep` hands over: the eligible entries before the first one that raises. */
  function SweepSelection(entries: seq<SweepEntry>, allowed: seq<string>): seq<FilePath> {
    Picks(entries[..FirstRaise(entries, allowed)], allowed)
  }

  lemma PicksMember(entries: seq<SweepEntry>, allowed: seq<string>, i: nat)
    requires i < |entries| && SweepEligible(entries[i], allowed)
    ensures entries[i].path in Picks(entries, allowed)
    decreases |entries|
  {
    if i < |entries| - 1 {
      PicksMember(entries[..|entries| - 1], allowed, i);
    }
  }

  /**
   * When no entry raises, the sweep hands over exactly the eligible entries:
   * no maximum-size check and no debounce take part.
   */
  lemma SweepSelectsEligible(entries: seq<SweepEntry>, allowed: seq<string>, p: FilePath)
    requires forall j :: 0 <= j < |entries| ==> !SweepRaises(entries[j], allowed)
    ensures p in SweepSelection(entries, allowed) <==>
      exists i :: 0 <= i < |entries| && SweepEligible(entries[i], allowed) && entries[i].path == p
  {
    assert entries[..FirstRaise(entries, allowed)] == entries;
    if exists i :: 0 <= i < |entries| && SweepEligible(entries[i], allowed) && entries[i].path == p {
      var i :| 0 <= i < |entries| && SweepEligible(entries[i], allowed) && entries[i].path == p;
      PicksMember(entries, allowed, i);
    }
  }

  lemma PicksSnoc(entries: seq<SweepEntry>, allowed: seq<string>, i: nat)
    requires i < |entries|
    ensures Picks(entries[..i + 1], allowed) ==
      Picks(entries[..i], allowed) + (if SweepEligible(entries[i], allowed) then [entries[i].path] else [])
  {
    assert entries[..i + 1][..i] == entries[..i];
  }

  // ---------- the monitor ----------

  /** Which observer the monitor holds: none yet, the native one, or the polling fallback. */
  datatype Backend = NoObserver | Native | Polling

  /** Creating an observer, and scheduling plus starting it. */
  datatype ObserverEnv = ObserverEnv(create: Call, run: Call)

  /** What `start` meets: the `mkdir` outcome, the two observers and the folder listing for the sweep. */
  datatype StartEnv = StartEnv(mkdirOk: bool, native: ObserverEnv, polling: ObserverEnv, entries: seq<SweepEntry>)

  /** The native observer starts: polling is not forced and neither its creation nor its start raises. */
  predicate NativeStarts(usePolling: bool, env: StartEnv) {
    !usePolling && env.native.create.Done? && env.native.run.Done?
  }

  predicate PollingStarts(env: StartEnv) {
    env.polling.create.Done? && env.polling.run.Done?
  }

  /** The observer field after the attempts: it is assigned as soon as an observer is created. */
  function ObserverAfter(old_: Backend, usePolling: bool, env: StartEnv): Backend {
    if NativeStarts(usePolling, env) then Native
    else if env.polling.create.Done? then Polling
    else if !usePolling && env.native.create.Done? then Native
    else old_
  }

  /** `FileMonitor`: the observer in use, the monitoring flag, the user callback and the configuration it was built with. */
  class Monitor {
    var observer: Backend
    var isMonitoring: bool
    var callback: WorkQueue?
    var usePolling: bool
    const folder: string
    const allowed: seq<string>
    const checkInterval: int

    /** Monitoring is on only with an observer. */
    predicate Valid()
      reads this
    {
      isMonitoring ==> observer != NoObserver
    }

    constructor (folder: string, allowed: seq<string>, intervalSeconds: int)
      ensures Valid()
      ensures observer == NoObserver && !isMonitoring && callback == null && !usePolling
      ensures this.folder == folder && this.allowed == allowed
      ensures checkInterval >= 1 && checkInterval == if intervalSeconds >= 1 then intervalSeconds else 1
    {
      observer := NoObserver;
      isMonitoring := false;
      callback := null;
      usePolling := false;
      this.folder := folder;
      this.allowed := allowed;
      checkInterval := if intervalSeconds >= 1 then intervalSeconds else 1;
    }

    /** `_handle_file`: forward to the callback when there is one; nothing escapes. */
    method HandleFile(p: FilePath)
      modifies callback
      ensures callback != null ==> callback.items == old(callback.items) + [p]
      ensures callback != null ==> callback.unfinished == old(callback.unfinished) + 1
    {
      if callback != null {
        callback.Put(p);
      }
    }

    /**
     * `_initial_sweep`: hand over each listed regular file with an allowed
     * extension, a positive size and one passing stability check. The first
     * exception ends the sweep (it is logged); `count` is the number handed over.
     */
    method InitialSweep(entries: seq<SweepEntry>) returns (count: nat)
      modifies callback
      ensures count == |SweepSelection(entries, allowed)|
      ensures callback != null ==> callback.items == old(callback.items) + SweepSelection(entries, allowed)
      ensures callback != null ==> callback.unfinished == old(callback.unfinished) + count
    {
      count := 0;
      var stop := FirstRaise(entries, allowed);
      var i := 0;
      while i < |entries|
        invariant i <= stop
        invariant count == |Picks(entries[..i], allowed)|
        invariant callback != null ==> callback.items == old(callback.items) + Picks(entries[..i], allowed)
        invariant callback != null ==> callback.unfinished == old(callback.unfinished) + count
        decreases |entries| - i
      {
        var e := entries[i];
        PicksSnoc(entries, allowed, i);
        var step := ExamineEntry(e);
        if step == Halt {
          break;
        }
        if step == Take {
          HandleFile(e.path);
          count := count + 1;
        }
        i := i + 1;
      }
    }

    /**
     * The checks `_initial_sweep` makes on one listed entry: not a regular
     * file or an extension outside the allow-list is skipped; a `stat()`
     * that raises halts the sweep; an empty file is skipped; a stability
     * check that raises halts the sweep; otherwise the file is taken when
     * it is stable.
     */
    method ExamineEntry(e: SweepEntry) returns (step: SweepStep)
      ensures step == Halt <==> SweepRaises(e, allowed)
      ensures step == Take <==> SweepEligible(e, allowed)
    {
      if !e.isFile || !ExtensionAllowed(e.path.name, LowerAll(allowed)) {
        return Skip;
      }
      if !e.size.Size? {
        return Halt;     // stat() raised
      }
      if e.size.bytes == 0 {
        return Skip;
      }
      var stable := IsFileStable(e.samples);
      if stable.None? {
        return Halt;     // the stability check raised
      }
      step := if stable == Some(true) then Take else Skip;
    }

    /**
     * `start(callback)`: create the folder, record the callback, start the
     * native observer unless polling is forced, else the polling one; then
     * sweep the folder. Returns false when `mkdir` or the polling fallback
     * fails. `handler` is the event handler registered with the observer.
     */
    method Start(cb: WorkQueue, env: StartEnv) returns (ok: bool, handler: FileHandler?)
      requires Valid()
      modifies this, cb
      ensures Valid()
      ensures usePolling == old(usePolling)
      ensures !env.mkdirOk ==> (!ok && handler == null && callback == old(callback) &&
        observer == old(observer) && isMonitoring == old(isMonitoring) && cb.items == old(cb.items))
      ensures env.mkdirOk ==> (callback == cb && handler != null && fresh(handler) &&
        handler.owner == this && handler.allowed == LowerAll(allowed) && handler.debounceMs == 1000 && handler.recent == map[])
      ensures env.mkdirOk ==> observer == ObserverAfter(old(observer), old(usePolling), env)
      ensures ok <==> env.mkdirOk && (NativeStarts(old(usePolling), env) || PollingStarts(env))
      ensures ok ==> isMonitoring
      ensures !ok ==> isMonitoring == old(isMonitoring)
      ensures ok ==> cb.items == old(cb.items) + SweepSelection(env.entries, allowed)
      ensures ok ==> cb.unfinished == old(cb.unfinished) + |SweepSelection(env.entries, allowed)|
      ensures !ok ==> cb.items == old(cb.items) && cb.unfinished == old(cb.unfinished)
    {
      handler := null;
      if !env.mkdirOk {
        return false, null;
      }
      callback := cb;
      handler := new FileHandler(this, allowed, 1000);

      var started := false;
      if !usePolling && env.native.create.Done? {
        observer := Native;
        started := env.native.run.Done?;
      }
      if !started {
        // fall back to the polling observer
        if env.polling.create.Raise? {
          return false, handler;
        }
        observer := Polling;
        if env.polling.run.Raise? {
          return false, handler;
        }
      }
      isMonitoring := true;

      var _ := InitialSweep(env.entries);
      ok := true;
    }

    /**
     * `stop()`: acts only when there is an observer and monitoring is on;
     * whether or not stopping it raises, monitoring ends.
     */
    method Stop() returns (acted: bool)
      requires Valid()
      modifies this
      ensures Valid()
      ensures acted == (old(observer) != NoObserver && old(isMonitoring))
      ensures !isMonitoring
      ensures observer == old(observer) && callback == old(callback) && usePolling == old(usePolling)
    {
      acted := observer != NoObserver && isMonitoring;
      if acted {
        isMonitoring := false;
      }
    }
  }

  /** Once stopped, stopping again does nothing. */
  method StopTwice(m: Monitor) returns (first: bool, second: bool)
    requires m.Valid()
    modifies m
    ensures !second
    ensures first == old(m.observer != NoObserver && m.isMonitoring)
    ensures !m.isMonitoring && m.observer == old(m.observer)
  {
    first := m.Stop();
    second := m.Stop();
  }

  // ---------- archiving ----------

  /** `f"{stem}_{ts}{suffix}"`: the name a processed file gets in the processed folder. */
  function ArchiveName(name: string, ts: string): string {
    Stem(name) + "_" + ts + Suffix(name)
  }

  /** `strftime("%Y%m%d_%H%M%S")` output: digits and underscores, no dot. */
  predicate IsTimestamp(ts: string) {
    forall i :: 0 <= i < |ts| ==> IsDigit(ts[i]) || ts[i] == '_'
  }

  /** A file with a suffix keeps it; the timestamp goes between stem and suffix. */
  lemma ArchiveKeepsSuffix(name: string, ts: string)
    requires HasSuffix(name) && IsTimestamp(ts)
    ensures Suffix(ArchiveName(name, ts)) == Suffix(name)
    ensures Stem(ArchiveName(name, ts)) == Stem(name) + "_" + ts
  {
    var a := ArchiveName(name, ts);
    var d := LastDot(name);
    var k := |Stem(name)| + 1 + |ts|;
    assert Stem(name) == name[..d];
    assert a[k..] == Suffix(name) == name[d..];
    assert a[k] == '.';
    forall j | k < j < |a|
      ensures a[j] != '.'
    {
      assert a[j] == name[d + (j - k)];
    }
    LastDotUnique(a, k);
    assert a[..k] == Stem(name) + "_" + ts;
  }

  /** Different timestamps give different archive names for the same file. */
  lemma ArchiveNameDistinguishesTimestamps(name: string, ts1: string, ts2: string)
    requires ArchiveName(name, ts1) == ArchiveName(name, ts2)
    ensures ts1 == ts2
  {
    var a1, a2 := ArchiveName(name, ts1), ArchiveName(name, ts2);
    var n := |Stem(name)| + 1;
    assert |ts1| == |ts2|;
    assert ts1 == a1[n..n + |ts1|];
    assert ts2 == a2[n..n + |ts2|];
  }

  /** A name made of a dot-free stem and one extension is archived as stem, timestamp, extension. */
  lemma ArchiveNameOfParts(stem: string, ext: string, ts: string)
    requires |stem| > 0 && forall j :: 0 <= j < |stem| ==> stem[j] != '.'
    requires |ext| >= 2 && ext[0] == '.' && forall j :: 1 <= j < |ext| ==> ext[j] != '.'
    ensures ArchiveName(stem + ext, ts) == stem + "_" + ts + ext
  {
    var name := stem + ext;
    forall j | |stem| < j < |name|
      ensures name[j] != '.'
    {
      assert name[j] == ext[j - |stem|];
    }
    LastDotUnique(name, |stem|);
    assert name[..|stem|] == stem && name[|stem|..] == ext;
  }

  /**
   * `archive_file`: with moving disabled, report success without moving;
   * otherwise move the file to `processed/<stem>_<ts><suffix>`. `moveOk` is
   * the outcome of `move_file` (its `mkdir` and `shutil.move`, whose
   * exceptions become false). Returns the success flag and the destination.
   */
  function ArchiveFile(file: FilePath, moveProcessed: bool, processedFolder: string, ts: string, moveOk: bool): (r: (bool, Option<FilePath>))
    ensures !moveProcessed ==> r == (true, None)
    ensures moveProcessed ==> r.0 == moveOk && r.1.Some? && r.1.value.folder == processedFolder
    ensures moveProcessed ==> r.1.Some? && r.1.value.name == ArchiveName(file.name, ts)
    ensures moveProcessed && HasSuffix(file.name) && IsTimestamp(ts) ==> Suffix(r.1.value.name) == Suffix(file.name)
  {
    if !moveProcessed then (true, None)
    else
      var dst := FilePath(processedFolder, ArchiveName(file.name, ts));
      if HasSuffix(file.name) && IsTimestamp(ts) then
        ArchiveKeepsSuffix(file.name, ts);
        (moveOk, Some(dst))
      else
        (moveOk, Some(dst))
  }

  /** Two files of the same name archived within the same second get the same destination: the later move replaces the earlier file. */
  lemma SameSecondArchivesCollide(a: FilePath, b: FilePath, processedFolder: string, ts: string)
    requires a.name == b.name && a.folder != b.folder
    ensures ArchiveFile(a, true, processedFolder, ts, true).1 == ArchiveFile(b, true, processedFolder, ts, true).1
  {
  }
}
