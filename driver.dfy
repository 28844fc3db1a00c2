/**
 * The benchmark web app's job logic (`app.py`): `submit_and_wait`, which submits
 * the image job to the cluster, waits for it, describes it and measures the time
 * between its RUNNING and final states; and `index`, which runs the job twice on
 * one dataset (parallelism 8, then 1) and reports the two times or the errors.
 *
 * The gcloud CLI, `json.loads` and `datetime.fromisoformat` are external: they are
 * the three functions of an `Env`.
 */
module Driver {
  import opened Wrappers
  import opened Text

  const ProjectId: string := "cipp-516-ecc"
  const ClusterName: string := "new-cluster2"
  const Region: string := "us-central1"
  const PysparkScript: string := "gs://input-bucket-ecc/scripts/image_processing_v2.py"

  /** The datasets the form offers, by label, and the prefix each one reads. */
  const Datasets: map<string, string> := map[
    "Small"  := "gs://input-bucket-ecc/caltech101/small/",
    "Medium" := "gs://input-bucket-ecc/caltech101/medium/",
    "Large"  := "gs://input-bucket-ecc/caltech101/large/"
  ]

  /** What `subprocess.run(..., capture_output=True, text=True)` gives back. */
  datatype CmdResult = CmdResult(returncode: int, stdout: string, stderr: string)

  /** A status object of the job description: its `state` and `stateStartTime`, each possibly absent. */
  datatype StatusRecord = StatusRecord(state: Option<string>, stateStartTime: Option<string>)

  /**
   * The parsed job description: its `status` (all fields absent when the key is
   * missing) and its `statusHistory` (empty when the key is missing).
   */
  datatype Metadata = Metadata(status: StatusRecord, statusHistory: seq<StatusRecord>)

  /**
   * The outside world: the CLI's answer to each command, `json.loads` of the
   * describe output, and a timestamp's instant in microseconds since the epoch.
   */
  datatype Env = Env(
    run: seq<string> -> CmdResult,
    decodeJson: string -> Metadata,
    parseTime: string -> int)

  /**
   * One `submit_and_wait` call: the elapsed time in microseconds or None, the log
   * or error text, and the commands it ran, in order.
   */
  datatype Run = Run(elapsed: Option<int>, log: string, issued: seq<seq<string>>)

  /** The `metrics` dictionary: the dataset label and each sub-run's elapsed time. */
  datatype Metrics = Metrics(datasetLabel: string, parallel: int, sequential: int)

  /** A `flash(message, category)` call. */
  datatype Flash = Flash(message: string, category: string)

  /** What `index` renders, or the `KeyError` of an unknown dataset label. */
  datatype Response =
    | Rendered(metrics: Option<Metrics>, flashes: seq<Flash>)
    | UnknownDataset(requested: string)

  const TimestampError: string := "Could not parse start/completion timestamps"
  const ParallelFlags: seq<string> := ["--properties", "spark.default.parallelism=8"]
  const SequentialFlags: seq<string> := ["--properties", "spark.default.parallelism=1"]

  /** An optional list with a missing one read as empty (`x or []`). */
  function OrEmpty(xs: Option<seq<string>>): seq<string>
  {
    if xs.Some? then xs.value else []
  }

  /** The fixed head of the submit command. */
  const SubmitPrefix: seq<string> := [
    "gcloud.cmd", "dataproc", "jobs", "submit", "pyspark",
    PysparkScript,
    "--cluster=" + ClusterName,
    "--region=" + Region,
    "--project=" + ProjectId,
    "--format=value(reference.jobId)"
  ]

  /** The submit command: the fixed head, the extra gcloud flags, `--`, the script arguments. */
  function SubmitCommand(flags: Option<seq<string>>, args: Option<seq<string>>): seq<string>
  {
    SubmitPrefix + OrEmpty(flags) + ["--"] + OrEmpty(args)
  }

  /** The wait command for a job. */
  function WaitCommand(jobId: string): seq<string>
  {
    ["gcloud.cmd", "dataproc", "jobs", "wait", jobId, "--region=" + Region, "--project=" + ProjectId]
  }

  /** The describe command for a job, asking for JSON. */
  function DescribeCommand(jobId: string): seq<string>
  {
    ["gcloud.cmd", "dataproc", "jobs", "describe", jobId, "--region=" + Region, "--project=" + ProjectId, "--format=json"]
  }

  /**
   * Where each part sits in the submit command: the fixed head, then the flags in
   * order, then `--`, then the script arguments in order.
   */
  lemma SubmitCommandLayout(flags: seq<string>, args: seq<string>)
    ensures var cmd := SubmitCommand(Some(flags), Some(args));
      && |SubmitPrefix| == 10
      && |cmd| == 10 + |flags| + 1 + |args|
      && cmd[..10] == SubmitPrefix
      && cmd[10..10 + |flags|] == flags
      && cmd[10 + |flags|] == "--"
      && cmd[10 + |flags| + 1..] == args
  {
    var cmd := SubmitCommand(Some(flags), Some(args));
    assert cmd == SubmitPrefix + flags + ["--"] + args;
  }

  /** Leaving the flags or the arguments out is the same as passing empty lists. */
  lemma MissingListsAreEmpty(flags: Option<seq<string>>, args: Option<seq<string>>)
    ensures SubmitCommand(None, args) == SubmitCommand(Some([]), args)
    ensures SubmitCommand(flags, None) == SubmitCommand(flags, Some([]))
  {
  }

  /** Whether a status record is in the RUNNING state (`rec.get("state") == "RUNNING"`). */
  predicate IsRunning(rec: StatusRecord)
  {
    rec.state == Some("RUNNING")
  }

  /** The position of the first RUNNING record of the history, or its length when there is none. */
  function FirstRunning(history: seq<StatusRecord>): (k: nat)
    ensures k <= |history|
    ensures k < |history| ==> IsRunning(history[k])
    ensures forall j :: 0 <= j < k ==> !IsRunning(history[j])
  {
    if history == [] || IsRunning(history[0]) then 0 else 1 + FirstRunning(history[1..])
  }

  /** `start_ts` after the history loop: the start time of the first RUNNING record, if any. */
  function StartStamp(history: seq<StatusRecord>): Option<string>
  {
    var k := FirstRunning(history);
    if k < |history| then history[k].stateStartTime else None
  }

  /** `completion_ts`: the start time of the job's current status. */
  function EndStamp(info: Metadata): Option<string>
  {
    info.status.stateStartTime
  }

  /** Python truthiness of a timestamp: present and not empty. */
  predicate Present(ts: Option<string>)
  {
    ts.Some? && ts.value != ""
  }

  /** The elapsed time between the two timestamps, or None when either is missing. */
  function Elapsed(info: Metadata, parseTime: string -> int): Option<int>
  {
    var start, end := StartStamp(info.statusHistory), EndStamp(info);
    if !Present(start) || !Present(end) then None
    else Some(parseTime(end.value) - parseTime(start.value))
  }

  /** The specification of `submit_and_wait`. */
  function Drive(flags: Option<seq<string>>, args: Option<seq<string>>, env: Env): Run
  {
    var submit := SubmitCommand(flags, args);
    var sub := env.run(submit);
    if sub.returncode != 0 then Run(None, Strip(sub.stderr), [submit])
    else
      var waitCmd := WaitCommand(Strip(sub.stdout));
      var wait := env.run(waitCmd);
      if wait.returncode != 0 then Run(None, Strip(wait.stderr), [submit, waitCmd])
      else
        var descCmd := DescribeCommand(Strip(sub.stdout));
        var desc := env.run(descCmd);
        var issued := [submit, waitCmd, descCmd];
        if desc.returncode != 0 then Run(None, Strip(desc.stderr), issued)
        else
          var elapsed := Elapsed(env.decodeJson(desc.stdout), env.parseTime);
          if elapsed.None? then Run(None, TimestampError, issued)
          else Run(elapsed, Strip(wait.stdout), issued)
  }

  /**
   * `submit_and_wait(gcloud_flags, script_args)`: the three CLI steps with early
   * returns, then the scan of the history for the first RUNNING record.
   */
  method SubmitAndWait(flags: Option<seq<string>>, args: Option<seq<string>>, env: Env)
    returns (elapsed: Option<int>, log: string, issued: seq<seq<string>>)
    ensures Run(elapsed, log, issued) == Drive(flags, args, env)
  {
    var gcloudFlags := OrEmpty(flags);
    var scriptArgs := OrEmpty(args);

    var submitCmd := SubmitPrefix + gcloudFlags + ["--"] + scriptArgs;
    assert submitCmd == SubmitCommand(flags, args);
    issued := [submitCmd];
    var sub := env.run(submitCmd);
    if sub.returncode != 0 {
      return None, Strip(sub.stderr), issued;
    }
    var jobId := Strip(sub.stdout);

    var waitCmd := WaitCommand(jobId);
    issued := issued + [waitCmd];
    var wait := env.run(waitCmd);
    if wait.returncode != 0 {
      return None, Strip(wait.stderr), issued;
    }

    var descCmd := DescribeCommand(jobId);
    issued := issued + [descCmd];
    assert issued == [submitCmd, waitCmd, descCmd];
    var desc := env.run(descCmd);
    if desc.returncode != 0 {
      return None, Strip(desc.stderr), issued;
    }

    var info := env.decodeJson(desc.stdout);
    var history := info.statusHistory;
    var completionTs := info.status.stateStartTime;

    var startTs := FindStart(history);
    if !Present(startTs) || !Present(completionTs) {
      return None, TimestampError, issued;
    }
    elapsed := Some(env.parseTime(completionTs.value) - env.parseTime(startTs.value));
    log := Strip(wait.stdout);
  }

  /** The `for rec in history` loop: the start time of the first RUNNING record, then `break`. */
  method FindStart(history: seq<StatusRecord>) returns (startTs: Option<string>)
    ensures startTs == StartStamp(history)
  {
    startTs := None;
    for i := 0 to |history|
      invariant startTs == None
      invariant forall j :: 0 <= j < i ==> !IsRunning(history[j])
    {
      if history[i].state == Some("RUNNING") {
        startTs := history[i].stateStartTime;
        assert FirstRunning(history) == i;
        break;
      }
    }
  }

  /** Where the start is found: at the first RUNNING record, whatever follows it. */
  lemma StartIsFirstRunning(history: seq<StatusRecord>, i: nat)
    requires i < |history| && IsRunning(history[i])
    requires forall j :: 0 <= j < i ==> !IsRunning(history[j])
    ensures StartStamp(history) == history[i].stateStartTime
  {
  }

  /** Without a RUNNING record there is no start time. */
  lemma NoRunningNoStart(history: seq<StatusRecord>)
    requires forall j :: 0 <= j < |history| ==> !IsRunning(history[j])
    ensures StartStamp(history) == None
  {
  }

  /**
   * Records after the first RUNNING one never change the start time, even a later
   * RUNNING record with a time when the first one has none.
   */
  lemma {:induction false} LaterRecordsIgnored(history: seq<StatusRecord>, later: seq<StatusRecord>)
    requires exists j :: 0 <= j < |history| && IsRunning(history[j])
    ensures StartStamp(history + later) == StartStamp(history)
  {
    if IsRunning(history[0]) {
      assert (history + later)[0] == history[0];
    } else {
      var rest := history[1..];
      var j :| 0 <= j < |history| && IsRunning(history[j]);
      assert IsRunning(rest[j - 1]);
      LaterRecordsIgnored(rest, later);
      assert (history + later)[1..] == rest + later;
      assert (history + later)[0] == history[0];
    }
  }

  /**
   * A failing CLI step ends the call with that step's stripped error text and no
   * time, and no later step runs.
   */
  lemma FailedStepShortCircuits(flags: Option<seq<string>>, args: Option<seq<string>>, env: Env)
    ensures var submit := SubmitCommand(flags, args);
      var sub := env.run(submit);
      sub.returncode != 0 ==> Drive(flags, args, env) == Run(None, Strip(sub.stderr), [submit])
    ensures var submit := SubmitCommand(flags, args);
      var sub := env.run(submit);
      var waitCmd := WaitCommand(Strip(sub.stdout));
      var wait := env.run(waitCmd);
      sub.returncode == 0 && wait.returncode != 0 ==>
        Drive(flags, args, env) == Run(None, Strip(wait.stderr), [submit, waitCmd])
    ensures var submit := SubmitCommand(flags, args);
      var sub := env.run(submit);
      var waitCmd := WaitCommand(Strip(sub.stdout));
      var descCmd := DescribeCommand(Strip(sub.stdout));
      var desc := env.run(descCmd);
      sub.returncode == 0 && env.run(waitCmd).returncode == 0 && desc.returncode != 0 ==>
        Drive(flags, args, env) == Run(None, Strip(desc.stderr), [submit, waitCmd, descCmd])
  {
  }

  /**
   * The wait and describe commands name the job id the submit step printed
   * (stripped), with the same region and project, in that order after the submit.
   */
  lemma JobIdThreaded(flags: Option<seq<string>>, args: Option<seq<string>>, env: Env)
    requires env.run(SubmitCommand(flags, args)).returncode == 0
    ensures var r := Drive(flags, args, env);
      var jobId := Strip(env.run(SubmitCommand(flags, args)).stdout);
      && 2 <= |r.issued| <= 3
      && r.issued[0] == SubmitCommand(flags, args)
      && r.issued[1][..4] == ["gcloud.cmd", "dataproc", "jobs", "wait"]
      && r.issued[1][4] == jobId
      && r.issued[1][5..] == ["--region=" + Region, "--project=" + ProjectId]
      && (|r.issued| == 3 ==>
          && r.issued[2][..4] == ["gcloud.cmd", "dataproc", "jobs", "describe"]
          && r.issued[2][4] == jobId
          && r.issued[2][5..] == ["--region=" + Region, "--project=" + ProjectId, "--format=json"])
  {
  }

  /**
   * Once all three steps succeeded: a missing or empty start or end time gives
   * exactly the timestamp error; otherwise the time is end minus start, where the
   * end is the status's own time whatever the history holds, with the wait output.
   */
  lemma CompletedJobOutcome(flags: Option<seq<string>>, args: Option<seq<string>>, env: Env)
    requires var sub := env.run(SubmitCommand(flags, args));
      && sub.returncode == 0
      && env.run(WaitCommand(Strip(sub.stdout))).returncode == 0
      && env.run(DescribeCommand(Strip(sub.stdout))).returncode == 0
    ensures var jobId := Strip(env.run(SubmitCommand(flags, args)).stdout);
      var info := env.decodeJson(env.run(DescribeCommand(jobId)).stdout);
      var start, end := StartStamp(info.statusHistory), info.status.stateStartTime;
      var r := Drive(flags, args, env);
      && |r.issued| == 3
      && (!Present(start) || !Present(end) ==> r.elapsed == None && r.log == "Could not parse start/completion timestamps")
      && (Present(start) && Present(end) ==>
          && r.elapsed == Some(env.parseTime(end.value) - env.parseTime(start.value))
          && r.log == Strip(env.run(WaitCommand(jobId)).stdout))
  {
  }

  /** A job whose history never shows RUNNING always ends with the timestamp error. */
  lemma NeverRunningIsTimestampError(flags: Option<seq<string>>, args: Option<seq<string>>, env: Env)
    requires var sub := env.run(SubmitCommand(flags, args));
      && sub.returncode == 0
      && env.run(WaitCommand(Strip(sub.stdout))).returncode == 0
      && env.run(DescribeCommand(Strip(sub.stdout))).returncode == 0
    requires var info := env.decodeJson(env.run(DescribeCommand(Strip(env.run(SubmitCommand(flags, args)).stdout))).stdout);
      forall j :: 0 <= j < |info.statusHistory| ==> !IsRunning(info.statusHistory[j])
    ensures Drive(flags, args, env) == Run(None, TimestampError, Drive(flags, args, env).issued)
  {
    var info := env.decodeJson(env.run(DescribeCommand(Strip(env.run(SubmitCommand(flags, args)).stdout))).stdout);
    NoRunningNoStart(info.statusHistory);
  }

  /** The script arguments of each sub-run: the dataset prefix and the shared run id. */
  function SubRunArgs(prefix: string, runId: string): seq<string>
  {
    [prefix, runId]
  }

  /** The error flash of a sub-run: present exactly when it has no time. */
  function ErrorFlashes(title: string, r: Run): (fs: seq<Flash>)
    ensures |fs| <= 1
    ensures fs != [] <==> r.elapsed.None?
    ensures fs != [] ==> fs[0] == Flash(title + r.log, "danger")
  {
    if r.elapsed.None? then [Flash(title + r.log, "danger")] else []
  }

  /**
   * The two submissions of one benchmark differ only in the parallelism property
   * (8, then 1) and both end with `--`, the dataset prefix and the run id.
   */
  lemma SubRunsDifferOnlyInParallelism(prefix: string, runId: string)
    ensures var par := SubmitCommand(Some(ParallelFlags), Some(SubRunArgs(prefix, runId)));
      var sq := SubmitCommand(Some(SequentialFlags), Some(SubRunArgs(prefix, runId)));
      && |par| == |sq| == 15
      && par[11] == "spark.default.parallelism=8" && sq[11] == "spark.default.parallelism=1"
      && (forall i :: 0 <= i < 15 && i != 11 ==> par[i] == sq[i])
      && par[12..] == sq[12..] == ["--", prefix, runId]
  {
    SubmitCommandLayout(ParallelFlags, SubRunArgs(prefix, runId));
    SubmitCommandLayout(SequentialFlags, SubRunArgs(prefix, runId));
  }

  /**
   * `index()`: on a POST, look the dataset up, run the parallel then the sequential
   * job with the same arguments, build the metrics only when both have a time and
   * flash each failed run's error on its own.
   */
  method Index(isPost: bool, dataset: string, runId: string, env: Env)
    returns (resp: Response, issued: seq<seq<string>>)
    ensures !isPost ==> resp == Rendered(None, []) && issued == []
    ensures isPost && dataset !in Datasets ==> resp == UnknownDataset(dataset) && issued == []
    ensures isPost && dataset in Datasets ==>
      var args := SubRunArgs(Datasets[dataset], runId);
      var p := Drive(Some(ParallelFlags), Some(args), env);
      var s := Drive(Some(SequentialFlags), Some(args), env);
      && resp.Rendered?
      && issued == p.issued + s.issued
      && (resp.metrics.Some? <==> p.elapsed.Some? && s.elapsed.Some?)
      && (resp.metrics.Some? ==> resp.metrics.value == Metrics(dataset, p.elapsed.value, s.elapsed.value))
      && resp.flashes == ErrorFlashes("Parallel job error: ", p) + ErrorFlashes("Sequential job error: ", s)
  {
    var metrics: Option<Metrics> := None;
    var flashes: seq<Flash> := [];
    issued := [];
    if !isPost {
      return Rendered(metrics, flashes), issued;
    }
    if dataset !in Datasets {
      return UnknownDataset(dataset), issued;
    }
    var inPrefix := Datasets[dataset];

    var pTime, pLog, pIssued := SubmitAndWait(Some(ParallelFlags), Some([inPrefix, runId]), env);
    var sTime, sLog, sIssued := SubmitAndWait(Some(SequentialFlags), Some([inPrefix, runId]), env);
    issued := pIssued + sIssued;

    if pTime.Some? && sTime.Some? {
      metrics := Some(Metrics(dataset, pTime.value, sTime.value));
    }
    if pTime.None? {
      flashes := flashes + [Flash("Parallel job error: " + pLog, "danger")];
    }
    if sTime.None? {
      flashes := flashes + [Flash("Sequential job error: " + sLog, "danger")];
    }
    resp := Rendered(metrics, flashes);
  }
}
