/**
 * The orchestration after login: the folder watcher hands detected files
 * to the work queue, and the main loop takes them one at a time, uploads
 * each and post-processes the ones that were uploaded. The model is
 * single-threaded: the loop consumes what the queue holds when it starts,
 * for a given number of rounds (the rounds before the user interrupts).
 */
module MainLoop {
  import opened Wrappers
  import opened Browser
  import opened Paths
  import opened Handoff
  import opened ConfigLoader
  import Settings
  import Analisis
  import FileMonitor

  // ---------- post-processing ----------

  /** The post-processing switches, read with Python truthiness, and the processed folder. */
  datatype Policy = Policy(move: bool, delete: bool, processedFolder: string)

  function PolicyOf(c: Json, processedFolder: string): Policy {
    Policy(Settings.Truthy(Settings.Prop(c, Settings.MoveProcessedFiles)),
           Settings.Truthy(Settings.Prop(c, Settings.DeleteAfterProcessing)),
           processedFolder)
  }

  /** Without either switch configured, processed files are archived and never deleted. */
  lemma DefaultPolicyArchives(c: Json, processedFolder: string)
    requires !Settings.Stored(c, "monitoring", "move_processed_files")
    requires !Settings.Stored(c, "monitoring", "delete_after_processing")
    ensures PolicyOf(c, processedFolder).move && !PolicyOf(c, processedFolder).delete
  {
  }

  /** What happened to a file after its upload attempt. */
  datatype PostAction =
    | Untouched                              // left where it is
    | Archived(moved: bool, dest: FilePath)  // `archive_file`; `moved` is its result, which is ignored
    | Deleted(ok: bool)                      // `unlink(missing_ok=True)`; `ok` is false when it raised

  /** One dequeued file: whether `perform_upload` returned normally, and what followed. */
  datatype Handled = Handled(file: FilePath, uploaded: bool, action: PostAction)

  /** The world one item meets: the page during its upload, the archive timestamp, and the move and unlink outcomes. */
  datatype ItemEnv = ItemEnv(page: Analisis.UploadEnv, ts: string, moveOk: bool, unlinkOk: bool)

  /**
   * The post-processing of an uploaded file: archiving wins over deleting;
   * deleting tolerates a file that is already gone.
   */
  function PostProcess(p: FilePath, policy: Policy, env: ItemEnv): (a: PostAction)
    ensures a.Archived? <==> policy.move
    ensures a.Deleted? <==> !policy.move && policy.delete
    ensures a == Untouched <==> !policy.move && !policy.delete
    ensures a.Archived? ==> a.dest.folder == policy.processedFolder && a.moved == env.moveOk
    ensures a.Archived? ==> a.dest.name == FileMonitor.ArchiveName(p.name, env.ts)
    ensures a.Archived? && HasSuffix(p.name) && FileMonitor.IsTimestamp(env.ts) ==> Suffix(a.dest.name) == Suffix(p.name)
  {
    if policy.move then
      var archived := FileMonitor.ArchiveFile(p, true, policy.processedFolder, env.ts, env.moveOk);
      Archived(archived.0, archived.1.value)
    else if policy.delete then Deleted(env.unlinkOk)
    else Untouched
  }

  /** What a round does with file `p` and the upload outcome: post-process only after a normal return. */
  function AfterUpload(p: FilePath, uploaded: bool, policy: Policy, env: ItemEnv): Handled {
    Handled(p, uploaded, if uploaded then PostProcess(p, policy, env) else Untouched)
  }

  /** A file that was archived or deleted had been uploaded; a deleted file was never archived. */
  lemma OnlyUploadedFilesAreTouched(p: FilePath, uploaded: bool, policy: Policy, env: ItemEnv)
    ensures AfterUpload(p, uploaded, policy, env).action != Untouched ==> uploaded && (policy.move || policy.delete)
    ensures AfterUpload(p, uploaded, policy, env).action.Deleted? ==> !policy.move
  {
  }

  // ---------- the consumer loop ----------

  /** The `try` around `perform_upload`: whether the upload returned normally rather than raising. */
  method TryUpload(p: FilePath, defaultServicio: string, page: Analisis.UploadEnv) returns (uploaded: bool)
    ensures uploaded == Analisis.UploadSucceeds(page, defaultServicio)
    ensures uploaded ==> Analisis.SomeTacticWorks(page.attach)
  {
    var r, _ := Analisis.PerformUpload(p.name, defaultServicio, page);
    uploaded := r.Success?;
  }

  /**
   * The `while True` loop for `rounds` rounds: take the oldest queued file
   * (a wait that times out does nothing), upload it, post-process it when
   * the upload returned normally, and mark the task done whatever happened.
   * Item `k` meets `envs(k)`.
   */
  method Consume(q: WorkQueue, rounds: nat, policy: Policy, defaultServicio: string, envs: nat -> ItemEnv)
    returns (log: seq<Handled>)
    requires q.unfinished >= |q.items|
    modifies q
    ensures |log| == if rounds < |old(q.items)| then rounds else |old(q.items)|
    ensures q.items == old(q.items)[|log|..]
    ensures q.unfinished == old(q.unfinished) - |log|
    ensures forall k :: 0 <= k < |log| ==> log[k].file == old(q.items)[k]
    ensures forall k :: 0 <= k < |log| ==> log[k] == AfterUpload(log[k].file, log[k].uploaded, policy, envs(k))
    ensures forall k :: 0 <= k < |log| && log[k].uploaded ==> Analisis.SomeTacticWorks(envs(k).page.attach)
    ensures forall k :: 0 <= k < |log| ==> log[k].uploaded == Analisis.UploadSucceeds(envs(k).page, defaultServicio)
  {
    log := [];
    var round := 0;
    while round < rounds
      invariant round <= rounds
      invariant |log| == if round < |old(q.items)| then round else |old(q.items)|
      invariant q.items == old(q.items)[|log|..]
      invariant q.unfinished == old(q.unfinished) - |log|
      invariant forall k :: 0 <= k < |log| ==> log[k].file == old(q.items)[k]
      invariant forall k :: 0 <= k < |log| ==> log[k] == AfterUpload(log[k].file, log[k].uploaded, policy, envs(k))
      invariant forall k :: 0 <= k < |log| && log[k].uploaded ==> Analisis.SomeTacticWorks(envs(k).page.attach)
      invariant forall k :: 0 <= k < |log| ==> log[k].uploaded == Analisis.UploadSucceeds(envs(k).page, defaultServicio)
    {
      var next := q.Get();
      if next.Some? {
        var p := next.value;
        var env := envs(|log|);
        var uploaded := TryUpload(p, defaultServicio, env.page);
        log := log + [AfterUpload(p, uploaded, policy, env)];
        var done := q.TaskDone();
        assert done;
      }
      round := round + 1;
    }
  }

  // ---------- start-up and shutdown ----------

  /** The outcomes of closing the browser context, the browser, and stopping Playwright. */
  datatype CloseEnv = CloseEnv(context: Call, browser: Call, driver: Call)

  /** The browser session main.py owns. A close that raises leaves its resource open. */
  class Resources {
    var contextOpen: bool
    var browserOpen: bool
    var driverRunning: bool

    constructor ()
      ensures contextOpen && browserOpen && driverRunning
    {
      contextOpen, browserOpen, driverRunning := true, true, true;
    }

    /** `context.close(); browser.close(); pw.stop()` inside one `try`: the first failure skips the rest. */
    method CloseInOneTry(env: CloseEnv)
      modifies this
      ensures contextOpen == (old(contextOpen) && env.context != Done)
      ensures browserOpen == (old(browserOpen) && !(env.context == Done && env.browser == Done))
      ensures driverRunning == (old(driverRunning) && !(env.context == Done && env.browser == Done && env.driver == Done))
    {
      if env.context == Done {
        contextOpen := false;
        if env.browser == Done {
          browserOpen := false;
          if env.driver == Done {
            driverRunning := false;
          }
        }
      }
    }

    /** The `finally` block: each close in its own `try`, so one failure does not stop the others. */
    method CloseEach(env: CloseEnv)
      modifies this
      ensures contextOpen == (old(contextOpen) && env.context != Done)
      ensures browserOpen == (old(browserOpen) && env.browser != Done)
      ensures driverRunning == (old(driverRunning) && env.driver != Done)
    {
      if env.context == Done {
        contextOpen := false;
      }
      if env.browser == Done {
        browserOpen := false;
      }
      if env.driver == Done {
        driverRunning := false;
      }
    }
  }

  /**
   * `main` after login: start the monitor with the queue's `put` as the
   * callback; when that fails, close the session and stop without
   * uploading; otherwise run the loop, then stop the monitor and close
   * everything.
   */
  method Run(m: FileMonitor.Monitor, q: WorkQueue, res: Resources, start: FileMonitor.StartEnv, closing: CloseEnv,
             rounds: nat, policy: Policy, defaultServicio: string, envs: nat -> ItemEnv)
    returns (started: bool, log: seq<Handled>)
    requires m.Valid() && q.items == [] && q.unfinished == 0
    modifies m, q, res
    ensures started <==> start.mkdirOk && (FileMonitor.NativeStarts(old(m.usePolling), start) || FileMonitor.PollingStarts(start))
    ensures !started ==> log == [] && q.items == [] && q.unfinished == 0
    ensures !started ==> res.contextOpen == (old(res.contextOpen) && closing.context != Done)
    ensures !started ==> res.browserOpen == (old(res.browserOpen) && !(closing.context == Done && closing.browser == Done))
    ensures !started ==> res.driverRunning == (old(res.driverRunning) && !(closing.context == Done && closing.browser == Done && closing.driver == Done))
    ensures started ==> !m.isMonitoring
    ensures started ==> res.contextOpen == (old(res.contextOpen) && closing.context != Done)
    ensures started ==> res.browserOpen == (old(res.browserOpen) && closing.browser != Done)
    ensures started ==> res.driverRunning == (old(res.driverRunning) && closing.driver != Done)
    ensures started ==> |log| == if rounds < |FileMonitor.SweepSelection(start.entries, m.allowed)| then rounds
                                 else |FileMonitor.SweepSelection(start.entries, m.allowed)|
    ensures started ==> forall k :: 0 <= k < |log| ==> log[k].file == FileMonitor.SweepSelection(start.entries, m.allowed)[k]
    ensures started ==> q.unfinished == |q.items|
    ensures forall k :: 0 <= k < |log| ==> log[k] == AfterUpload(log[k].file, log[k].uploaded, policy, envs(k))
    ensures forall k :: 0 <= k < |log| ==> log[k].uploaded == Analisis.UploadSucceeds(envs(k).page, defaultServicio)
  {
    var ok, _ := m.Start(q, start);
    started := ok;
    if !ok {
      log := [];
      res.CloseInOneTry(closing);
    } else {
      ghost var queued := FileMonitor.SweepSelection(start.entries, m.allowed);
      assert q.items == queued && q.unfinished == |queued|;
      log := Consume(q, rounds, policy, defaultServicio, envs);
      var _ := m.Stop();
      res.CloseEach(closing);
    }
  }
}
