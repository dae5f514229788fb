/** The batch layer of the TXM converter: the serial worker loop with its
    stop flag, and the sequential bookkeeping of the parallel route
    (convert_scans and ParallelWorkerThread.run). Qt signals are recorded as
    a trace of events; the moment the GUI calls stop() and the order in
    which the parallel jobs complete are parameters chosen by the
    environment. */
module TxmBatch {

  import opened Common
  import opened Text
  import opened Ole
  import opened Fields
  import opened TxmConvert

  /** A .txm file found by rglob: its name, its stem and its contents. */
  datatype TxmFile = TxmFile(name: string, stem: string, container: Container)

  /** The conversion options shared by every file of a batch. */
  datatype Options = Options(baseDir: string, formatIndex: int, display: bool, convert: bool, num: Float32 -> real)

  /** The per-file conversion as the loops see it: given a container, its
      stem and its output folder name, success or the exception raised. */
  type Job = (Container, string, string) -> Result<TxmOutput>

  /** process_txm with the batch's options bound; the loops below are stated
      for any job, and the workers run this one. */
  function ProcessJob(opt: Options): Job
  {
    (c, stem, short) => ProcessTxm(c, stem, opt.baseDir, short, opt.formatIndex, opt.display, opt.convert, opt.num)
  }

  /** The text of a progress update: a file label, or the error report of
      the parallel route. */
  datatype Label = FileLabel(name: string) | FailedLabel(name: string, error: Error)

  datatype Message =
    | Processed(name: string)
    | FileFailed(name: string, error: Error)
    | Starting(count: nat)
    | Completed
    | WorkerFailed(error: Error)

  /** One emitted signal: progress_update, log_message, finished, stopped or
      error. */
  datatype Event = Progress(count: nat, text: Label) | Log(msg: Message) | Finished | Stopped | ErrorSignal(error: Error)

  /** f"scan_{str(i+1).zfill(2)}": the output folder name of the i-th file. */
  function ScanName(i: nat): string
  {
    "scan_" + ZFill(NatToString(i + 1), 2)
  }

  /** Different files never share an output folder, however many there are. */
  lemma ScanNamesDistinct(i: nat, j: nat)
    requires ScanName(i) == ScanName(j)
    ensures i == j
  {
    var zi, zj := ZFill(NatToString(i + 1), 2), ZFill(NatToString(j + 1), 2);
    assert zi == ScanName(i)[5..];
    assert zj == ScanName(j)[5..];
    ZFillNatInjective(i + 1, j + 1, 2);
  }

  /** The job run on the i-th file of the batch, with output folder
      ScanName(i). */
  function Convert(files: seq<TxmFile>, i: nat, job: Job): Result<TxmOutput>
    requires i < |files|
  {
    job(files[i].container, files[i].stem, ScanName(i))
  }

  /** The value of is_stopped at the t-th time it is read: stop() is called
      just before read number stopAt, unless the worker was stopped before
      it started. */
  predicate StopSeen(stoppedBefore: bool, stopAt: nat, t: nat)
  {
    stoppedBefore || stopAt <= t
  }

  lemma AppendAssoc(a: seq<Event>, b: seq<Event>, c: seq<Event>)
    ensures (a + b) + c == a + (b + c)
  {
  }

  // ---------------------------------------------------------------- serial

  /** What SerialWorkerThread.run emits for the i-th file. */
  function SerialFileEvents(files: seq<TxmFile>, i: nat, job: Job): seq<Event>
    requires i < |files|
  {
    match Convert(files, i, job)
    case Ok(_) => [Progress(i + 1, FileLabel(files[i].name)), Log(Processed(files[i].name))]
    case Err(e) => [Log(FileFailed(files[i].name, e))]
  }

  /** The events of the first n files of the serial loop. */
  function SerialEvents(files: seq<TxmFile>, n: nat, job: Job): seq<Event>
    requires n <= |files|
  {
    if n == 0 then [] else SerialEvents(files, n - 1, job) + SerialFileEvents(files, n - 1, job)
  }

  /** The number of files the serial loop starts: it stops at the first read
      of the flag that sees it set. */
  function SerialStarted(n: nat, stoppedBefore: bool, stopAt: nat): (k: nat)
    ensures k <= n
  {
    if stoppedBefore then 0 else if stopAt < n then stopAt else n
  }

  /** The whole trace of one serial run: the files' events, the completion
      message, then exactly one of stopped and finished. */
  function SerialRun(files: seq<TxmFile>, job: Job, stoppedBefore: bool, stopAt: nat): seq<Event>
  {
    SerialEvents(files, SerialStarted(|files|, stoppedBefore, stopAt), job)
      + [Log(Completed)]
      + [if StopSeen(stoppedBefore, stopAt, SerialStarted(|files|, stoppedBefore, stopAt)) then Stopped else Finished]
  }

  /** SerialWorkerThread: the stop flag and the signals emitted so far. */
  class SerialWorker {
    var isStopped: bool
    var events: seq<Event>

    constructor()
      ensures !isStopped && events == []
    {
      isStopped := false;
      events := [];
    }

    /** stop(): sets the flag and nothing else. */
    method Stop()
      modifies this
      ensures isStopped && events == old(events)
    {
      isStopped := true;
    }

    /** One round of the loop: process_txm, then progress and a log line on
        success, or the error logged and the loop carried on. */
    method RunFile(files: seq<TxmFile>, i: nat, job: Job)
      requires i < |files|
      modifies this
      ensures events == old(events) + SerialFileEvents(files, i, job)
      ensures isStopped == old(isStopped)
    {
      var r := Convert(files, i, job);
      if r.Ok? {
        events := events + [Progress(i + 1, FileLabel(files[i].name)), Log(Processed(files[i].name))];
      } else {
        events := events + [Log(FileFailed(files[i].name, r.error))];
      }
    }

    /** run() over the files rglob found. The environment calls stop() just
        before the loop's read number stopAt of the flag (the read after the
        loop has number |files| when no file was skipped). */
    method Run(files: seq<TxmFile>, job: Job, stopAt: nat)
      modifies this
      ensures events == old(events) + SerialRun(files, job, old(isStopped), stopAt)
      ensures isStopped == StopSeen(old(isStopped), stopAt, SerialStarted(|files|, old(isStopped), stopAt))
    {
      ghost var before := old(isStopped);
      ghost var start := events;
      var i := 0;
      while i < |files|
        invariant 0 <= i <= SerialStarted(|files|, before, stopAt)
        invariant isStopped == (before || stopAt < i)
        invariant events == start + SerialEvents(files, i, job)
      {
        if i == stopAt {
          Stop();
        }
        if isStopped {
          break;
        }
        RunFile(files, i, job);
        AppendAssoc(start, SerialEvents(files, i, job), SerialFileEvents(files, i, job));
        i := i + 1;
      }
      assert i == SerialStarted(|files|, before, stopAt);
      if i == stopAt {
        Stop();
      }
      events := events + [Log(Completed)];
      if isStopped {
        events := events + [Stopped];
      } else {
        events := events + [Finished];
      }
    }
  }

  /** The i-th file's events hold a progress update only when it
      converted: its 1-based position and its name. */
  lemma FileProgress(files: seq<TxmFile>, i: nat, job: Job, k: nat, l: Label)
    requires i < |files|
    ensures Progress(k, l) in SerialFileEvents(files, i, job) <==>
      k == i + 1 && l == FileLabel(files[i].name) && Convert(files, i, job).Ok?
  {
  }

  /** A progress update of the serial loop names a file among the first n
      that converted, with its 1-based position. */
  lemma {:induction false} SerialProgress(files: seq<TxmFile>, n: nat, job: Job, k: nat, l: Label)
    requires n <= |files|
    ensures Progress(k, l) in SerialEvents(files, n, job) <==>
      1 <= k <= n && l == FileLabel(files[k - 1].name) && Convert(files, k - 1, job).Ok?
  {
    if n > 0 {
      SerialProgress(files, n - 1, job, k, l);
      FileProgress(files, n - 1, job, k, l);
      assert SerialEvents(files, n, job) == SerialEvents(files, n - 1, job) + SerialFileEvents(files, n - 1, job);
    }
  }

  /** Every started file leaves a log line: Processed when it converted, its
      error otherwise; one failing file does not hide the later ones. */
  lemma {:induction false} SerialLogs(files: seq<TxmFile>, n: nat, job: Job, i: nat)
    requires i < n <= |files|
    ensures Convert(files, i, job).Ok? ==> Log(Processed(files[i].name)) in SerialEvents(files, n, job)
    ensures Convert(files, i, job).Err? ==> Log(FileFailed(files[i].name, Convert(files, i, job).error)) in SerialEvents(files, n, job)
  {
    assert SerialEvents(files, n, job) == SerialEvents(files, n - 1, job) + SerialFileEvents(files, n - 1, job);
    if i < n - 1 {
      SerialLogs(files, n - 1, job, i);
    }
  }

  /** A stop requested before the loop reaches file k means file k is never
      started; without a stop every file is started and the run finishes. */
  lemma SerialStopSpec(files: seq<TxmFile>, job: Job, stoppedBefore: bool, stopAt: nat)
    ensures var tr := SerialRun(files, job, stoppedBefore, stopAt);
      && |tr| >= 2 && tr[|tr| - 2] == Log(Completed)
      && (tr[|tr| - 1] == Stopped <==> stoppedBefore || stopAt <= |files|)
      && (tr[|tr| - 1] == Finished <==> !stoppedBefore && stopAt > |files|)
    ensures stoppedBefore ==> SerialRun(files, job, stoppedBefore, stopAt) == [Log(Completed), Stopped]
    ensures !stoppedBefore && stopAt >= |files| ==> SerialStarted(|files|, stoppedBefore, stopAt) == |files|
    ensures forall k: nat, l :: Progress(k, l) in SerialRun(files, job, stoppedBefore, stopAt) ==>
      !stoppedBefore && k <= stopAt && k <= |files|
  {
    var n := SerialStarted(|files|, stoppedBefore, stopAt);
    var tr := SerialRun(files, job, stoppedBefore, stopAt);
    forall k: nat, l | Progress(k, l) in tr
      ensures !stoppedBefore && k <= stopAt && k <= |files|
    {
      assert Progress(k, l) in SerialEvents(files, n, job);
      SerialProgress(files, n, job, k, l);
    }
  }

  // -------------------------------------------------------------- parallel

  /** The environment's completion order: every submitted job exactly once. */
  predicate IsOrder(order: seq<nat>, n: nat)
  {
    && |order| == n
    && (forall k :: 0 <= k < n ==> order[k] < n)
    && (forall q :: 0 <= q < n ==> q in order)
    && (forall k, m :: 0 <= k < m < n ==> order[k] != order[m])
  }

  /** as_completed(futures): the completion order restricted to the jobs that
      were submitted (the first s files). */
  function Submitted(order: seq<nat>, s: nat): (r: seq<nat>)
    ensures forall k :: 0 <= k < |r| ==> r[k] < s && r[k] in order
    ensures |r| <= |order|
  {
    if order == [] then []
    else if order[|order| - 1] < s then Submitted(order[..|order| - 1], s) + [order[|order| - 1]]
    else Submitted(order[..|order| - 1], s)
  }

  /** When every job was submitted, all of them complete, in the
      environment's order. */
  lemma {:induction false} SubmittedAll(order: seq<nat>, s: nat)
    requires forall k :: 0 <= k < |order| ==> order[k] < s
    ensures Submitted(order, s) == order
  {
    if order != [] {
      SubmittedAll(order[..|order| - 1], s);
    }
  }

  /** How many rounds a loop with `count` rounds, whose first read of the
      flag is read number `base`, runs before it sees the flag. */
  function Rounds(stoppedBefore: bool, stopAt: nat, base: nat, count: nat): (k: nat)
    ensures k <= count
  {
    if StopSeen(stoppedBefore, stopAt, base) then 0
    else if stopAt - base < count then stopAt - base else count
  }

  /** How many reads of the flag such a loop makes: one per round, plus the
      one that breaks it. */
  function Reads(stoppedBefore: bool, stopAt: nat, base: nat, count: nat): nat
  {
    var k := Rounds(stoppedBefore, stopAt, base, count);
    if k < count then k + 1 else count
  }

  /** What convert_scans emits for the k-th completion (1-based), job idx. */
  function Completion(files: seq<TxmFile>, job: Job, idx: nat, k: nat): seq<Event>
    requires idx < |files|
  {
    match Convert(files, idx, job)
    case Ok(_) => [Progress(k, FileLabel(files[idx].stem)), Log(Processed(files[idx].stem))]
    case Err(e) => [Progress(k, FailedLabel(files[idx].stem, e)), Log(FileFailed(files[idx].stem, e))]
  }

  /** The events of the first k completions. */
  function Completions(files: seq<TxmFile>, job: Job, done: seq<nat>, k: nat): seq<Event>
    requires k <= |done| && forall m :: 0 <= m < |done| ==> done[m] < |files|
  {
    if k == 0 then [] else Completions(files, job, done, k - 1) + Completion(files, job, done[k - 1], k)
  }

  /** The trace of convert_scans: submit until the flag is seen, announce the
      batch, report completions until the flag is seen, then the completion
      message. */
  function ConvertScans(files: seq<TxmFile>, job: Job, order: seq<nat>, stoppedBefore: bool, stopAt: nat): seq<Event>
  {
    var s := Rounds(stoppedBefore, stopAt, 0, |files|);
    var done := Submitted(order, s);
    var base := Reads(stoppedBefore, stopAt, 0, |files|);
    [Log(Starting(|files|))]
      + Completions(files, job, done, Rounds(stoppedBefore, stopAt, base, |done|))
      + [Log(Completed)]
  }

  /** The read of the flag after convert_scans returns. */
  function FinalRead(files: seq<TxmFile>, order: seq<nat>, stoppedBefore: bool, stopAt: nat): nat
  {
    var s := Rounds(stoppedBefore, stopAt, 0, |files|);
    var base := Reads(stoppedBefore, stopAt, 0, |files|);
    base + Reads(stoppedBefore, stopAt, base, |Submitted(order, s)|)
  }

  /** The trace of ParallelWorkerThread.run: no files is an error; otherwise
      convert_scans, then finished if the flag is clear; in any case stopped
      if the flag is set at the last read. */
  function ParallelRun(files: seq<TxmFile>, job: Job, order: seq<nat>, stoppedBefore: bool, stopAt: nat): seq<Event>
  {
    if files == [] then
      [ErrorSignal(NoFiles), Log(WorkerFailed(NoFiles))]
        + (if StopSeen(stoppedBefore, stopAt, 0) then [Stopped] else [])
    else
      var t := FinalRead(files, order, stoppedBefore, stopAt);
      ConvertScans(files, job, order, stoppedBefore, stopAt)
        + (if StopSeen(stoppedBefore, stopAt, t) then [] else [Finished])
        + (if StopSeen(stoppedBefore, stopAt, t + 1) then [Stopped] else [])
  }

  /** ParallelWorkerThread with the files rglob found when it was built. */
  class ParallelWorker {
    var isStopped: bool
    var events: seq<Event>
    const files: seq<TxmFile>

    constructor(found: seq<TxmFile>)
      ensures files == found && !isStopped && events == []
    {
      files := found;
      isStopped := false;
      events := [];
    }

    /** stop(): sets the flag (cancelling the Dask jobs is not modelled). */
    method Stop()
      modifies this
      ensures isStopped && events == old(events)
    {
      isStopped := true;
    }

    /** One read of is_stopped, read number t; the environment calls stop()
        just before read number stopAt. */
    method ReadFlag(t: nat, stopAt: nat) returns (stopped: bool)
      modifies this
      ensures isStopped == (old(isStopped) || t == stopAt)
      ensures stopped == isStopped && events == old(events)
    {
      if t == stopAt {
        Stop();
      }
      stopped := isStopped;
    }

    /** The submission loop of convert_scans: one job per file, in file
        order, until the flag is seen; futures maps each submitted job to
        its file's stem. */
    method SubmitAll(stopAt: nat) returns (futures: map<nat, string>, s: nat, t: nat)
      modifies this
      ensures s == Rounds(old(isStopped), stopAt, 0, |files|)
      ensures t == Reads(old(isStopped), stopAt, 0, |files|)
      ensures forall j: nat :: j in futures <==> j < s
      ensures forall j :: j in futures ==> futures[j] == files[j].stem
      ensures isStopped == (old(isStopped) || stopAt < t)
      ensures events == old(events)
    {
      ghost var before := isStopped;
      futures := map[];
      t := 0;
      s := 0;
      while s < |files|
        invariant s <= Rounds(before, stopAt, 0, |files|) && t == s
        invariant isStopped == (before || stopAt < t)
        invariant forall j: nat :: j in futures <==> j < s
        invariant forall j :: j in futures ==> j < |files| && futures[j] == files[j].stem
        invariant events == old(events)
      {
        var stopped := ReadFlag(t, stopAt);
        t := t + 1;
        if stopped {
          break;
        }
        futures := futures[s := files[s].stem];
        s := s + 1;
      }
    }

    /** One completed job: progress with the stem, or with the error. */
    method Report(job: Job, idx: nat, stem: string, k: nat)
      requires idx < |files| && stem == files[idx].stem
      modifies this
      ensures events == old(events) + Completion(files, job, idx, k)
      ensures isStopped == old(isStopped)
    {
      var r := Convert(files, idx, job);
      if r.Ok? {
        events := events + [Progress(k, FileLabel(stem)), Log(Processed(stem))];
      } else {
        events := events + [Progress(k, FailedLabel(stem, r.error)), Log(FileFailed(stem, r.error))];
      }
    }

    /** The as_completed loop of convert_scans, whose first read of the flag
        is read number base. */
    method ReportAll(job: Job, done: seq<nat>, futures: map<nat, string>, base: nat, stopAt: nat) returns (t: nat)
      requires forall m :: 0 <= m < |done| ==> done[m] in futures && done[m] < |files| && futures[done[m]] == files[done[m]].stem
      requires stopAt < base ==> isStopped
      modifies this
      ensures t == base + Reads(old(isStopped), stopAt, base, |done|)
      ensures events == old(events) + Completions(files, job, done, Rounds(old(isStopped), stopAt, base, |done|))
      ensures isStopped == (old(isStopped) || stopAt < t)
    {
      ghost var before := isStopped;
      ghost var start := events;
      t := base;
      var k := 0;
      while k < |done|
        invariant k <= Rounds(before, stopAt, base, |done|) && t == base + k
        invariant isStopped == (before || stopAt < t)
        invariant events == start + Completions(files, job, done, k)
      {
        var stopped := ReadFlag(t, stopAt);
        t := t + 1;
        if stopped {
          break;
        }
        Report(job, done[k], futures[done[k]], k + 1);
        AppendAssoc(start, Completions(files, job, done, k), Completion(files, job, done[k], k + 1));
        k := k + 1;
      }
    }

    /** convert_scans(...): `order` is the order in which the jobs finish. */
    method ConvertAll(job: Job, order: seq<nat>, stopAt: nat) returns (t: nat)
      modifies this
      ensures events == old(events) + ConvertScans(files, job, order, old(isStopped), stopAt)
      ensures t == FinalRead(files, order, old(isStopped), stopAt)
      ensures isStopped == (old(isStopped) || stopAt < t)
    {
      ghost var before := isStopped;
      ghost var start := events;
      var futures, s, t1 := SubmitAll(stopAt);
      events := events + [Log(Starting(|files|))];
      var done := Submitted(order, s);
      t := ReportAll(job, done, futures, t1, stopAt);
      ghost var reported := Completions(files, job, done, Rounds(before, stopAt, t1, |done|));
      AppendAssoc(start, [Log(Starting(|files|))], reported);
      events := events + [Log(Completed)];
      AppendAssoc(start, [Log(Starting(|files|))] + reported, [Log(Completed)]);
    }

    /** run(). */
    method Run(job: Job, order: seq<nat>, stopAt: nat)
      requires IsOrder(order, |files|)
      modifies this
      ensures events == old(events) + ParallelRun(files, job, order, old(isStopped), stopAt)
    {
      ghost var before := isStopped;
      var t := 0;
      if files == [] {
        events := events + [ErrorSignal(NoFiles), Log(WorkerFailed(NoFiles))];
      } else {
        t := ConvertAll(job, order, stopAt);
        var stopped := ReadFlag(t, stopAt);
        t := t + 1;
        if !stopped {
          events := events + [Finished];
        }
      }
      var stopped := ReadFlag(t, stopAt);
      if stopped {
        events := events + [Stopped];
      }
    }
  }

  /** The k-th completion's events hold one progress update: count k, and
      the stem with the error when the job failed. */
  lemma CompletionProgress(files: seq<TxmFile>, job: Job, idx: nat, k: nat, m: nat, l: Label)
    requires idx < |files|
    ensures Progress(m, l) in Completion(files, job, idx, k) <==>
      && m == k
      && l == (if Convert(files, idx, job).Ok? then FileLabel(files[idx].stem)
               else FailedLabel(files[idx].stem, Convert(files, idx, job).error))
  {
  }

  /** The labels of the first k completions: the k-th progress update is the
      k-th finished job, whatever its outcome. */
  lemma {:induction false} CompletionsProgress(files: seq<TxmFile>, job: Job, done: seq<nat>, k: nat, m: nat, l: Label)
    requires k <= |done| && forall j :: 0 <= j < |done| ==> done[j] < |files|
    ensures Progress(m, l) in Completions(files, job, done, k) <==>
      && 1 <= m <= k
      && l == (if Convert(files, done[m - 1], job).Ok? then FileLabel(files[done[m - 1]].stem)
               else FailedLabel(files[done[m - 1]].stem, Convert(files, done[m - 1], job).error))
  {
    if k > 0 {
      CompletionsProgress(files, job, done, k - 1, m, l);
      CompletionProgress(files, job, done[k - 1], k, m, l);
      assert Completions(files, job, done, k) == Completions(files, job, done, k - 1) + Completion(files, job, done[k - 1], k);
    }
  }

  /** Without a stop, every read of the flag sees it clear: all files are
      submitted, all jobs collected, and the last two reads come after. */
  lemma NoStopSchedule(files: seq<TxmFile>, order: seq<nat>, stopAt: nat)
    requires IsOrder(order, |files|) && stopAt > 2 * |files| + 1
    ensures Rounds(false, stopAt, 0, |files|) == |files| && Reads(false, stopAt, 0, |files|) == |files|
    ensures Submitted(order, |files|) == order
    ensures Rounds(false, stopAt, |files|, |files|) == |files|
    ensures FinalRead(files, order, false, stopAt) == 2 * |files|
  {
    SubmittedAll(order, |files|);
  }

  /** Without a stop every file is submitted and reported exactly once, the
      progress count runs 1..n in completion order, and the run finishes. */
  lemma ParallelNoStop(files: seq<TxmFile>, job: Job, order: seq<nat>, stopAt: nat)
    requires IsOrder(order, |files|) && |files| > 0 && stopAt > 2 * |files| + 1
    ensures ParallelRun(files, job, order, false, stopAt) ==
      [Log(Starting(|files|))] + Completions(files, job, order, |files|) + [Log(Completed), Finished]
  {
    NoStopSchedule(files, order, stopAt);
    var head := [Log(Starting(|files|))] + Completions(files, job, order, |files|);
    assert ParallelRun(files, job, order, false, stopAt) == head + [Log(Completed)] + [Finished] + [];
    AppendAssoc(head, [Log(Completed)], [Finished]);
  }

  /** A stop seen while submitting means no job is reported and nothing
      after the stop is submitted; the run then ends with stopped, not
      finished. */
  lemma ParallelStopWhileSubmitting(files: seq<TxmFile>, job: Job, order: seq<nat>, stoppedBefore: bool, stopAt: nat)
    requires IsOrder(order, |files|) && |files| > 0 && (stoppedBefore || stopAt < |files|)
    ensures Rounds(stoppedBefore, stopAt, 0, |files|) == (if stoppedBefore then 0 else stopAt)
    ensures ParallelRun(files, job, order, stoppedBefore, stopAt) == [Log(Starting(|files|)), Log(Completed), Stopped]
  {
    var s := Rounds(stoppedBefore, stopAt, 0, |files|);
    var base := Reads(stoppedBefore, stopAt, 0, |files|);
    assert Rounds(stoppedBefore, stopAt, base, |Submitted(order, s)|) == 0;
  }
}
