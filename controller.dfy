/**
 * The request controller's own logic: translating the monitor's status
 * words, listing a monitor's steps as job tasks, computing a job's progress,
 * turning a bounding box into a WKT polygon, and deriving ids and paths from
 * a request's name.
 */
module Controller {
  import opened Wrappers
  import opened Text
  import opened Json
  import opened Workflow

  // ---------------------------------------------------------------------------
  // Status words
  // ---------------------------------------------------------------------------

  /** `_translate_status`: the monitor's status word as a job status; `None` for any other word. */
  function TranslateStatus(pmStatus: string): (r: Option<string>)
    ensures r.Some? ==> r.value in JobStatuses
  {
    if pmStatus == "ERROR" || pmStatus == "FAILED" then Some("failed")
    else if pmStatus == "RUNNING" then Some("running")
    else if pmStatus == "DONE" || pmStatus == "SUCCEEDED" then Some("succeeded")
    else if pmStatus == "CANCELLED" then Some("cancelled")
    else if pmStatus == "INITIAL" then Some("new")
    else None
  }

  /** The statuses a job can be reported in. */
  const JobStatuses: set<string> := {"failed", "running", "succeeded", "cancelled", "new"}

  /** Which monitor status word becomes which job status. */
  const StatusTable: map<string, string> := map[
    "ERROR" := "failed", "FAILED" := "failed",
    "RUNNING" := "running",
    "DONE" := "succeeded", "SUCCEEDED" := "succeeded",
    "CANCELLED" := "cancelled",
    "INITIAL" := "new"]

  /** The translation follows the table, and a word missing from it translates to `None`. */
  lemma TranslateStatusTable(pmStatus: string)
    ensures TranslateStatus(pmStatus) == if pmStatus in StatusTable then Some(StatusTable[pmStatus]) else None
  {
    if pmStatus !in StatusTable {
      assert pmStatus != "ERROR" && pmStatus != "FAILED" && pmStatus != "RUNNING" && pmStatus != "DONE";
      assert pmStatus != "SUCCEEDED" && pmStatus != "CANCELLED" && pmStatus != "INITIAL";
    }
  }

  /** Every job status is reached, `failed` and `succeeded` from two words each. */
  lemma TranslateStatusOnto(status: string)
    requires status in JobStatuses
    ensures exists pmStatus :: pmStatus in StatusTable && TranslateStatus(pmStatus) == Some(status)
  {
    var w := if status == "failed" then "FAILED" else if status == "running" then "RUNNING"
      else if status == "succeeded" then "DONE" else if status == "cancelled" then "CANCELLED" else "INITIAL";
    assert w in StatusTable;
    TranslateStatusTable(w);
  }

  // ---------------------------------------------------------------------------
  // The monitor's steps as job tasks
  // ---------------------------------------------------------------------------

  /**
   * What the controller sees of a monitor: the tasks not yet started, the
   * commands running, finished and failed (each in the order the monitor
   * iterates them), and the workflow's `get_progress`.
   */
  datatype MonitorView = MonitorView(backlog: seq<Task>, running: seq<string>, commands: seq<string>,
                                     failed: seq<string>, progressOf: string -> int)

  /** One step of a monitor's workflow as the controller lists it. */
  datatype Entry = Entry(step: string, status: string, progress: int)

  /** The step line of a task not yet started: call, parameters, inputs, outputs, then a newline. */
  function StepLine(t: Task): string {
    t.call + " " + Join(" ", t.parameters) + " " + Join(" ", t.inputs) + " " + Join(" ", t.outputs) + "\n"
  }

  /**
   * A step line is the call and the fields of the parameters, the inputs and
   * the outputs joined by single spaces, then a newline; an empty list leaves
   * an empty field between two spaces.
   */
  lemma StepLineWords(t: Task)
    ensures StepLine(t) == Join(" ", [t.call] + Fields(t.parameters) + Fields(t.inputs) + Fields(t.outputs)) + "\n"
  {
    var same := (c: string) => c;
    CommandLineJoins(None, same, t.call, t.inputs, t.outputs, t.parameters);
    assert CommandHead(None, same, t.call) == [t.call];
  }

  /** With space-free words, a step line without its newline splits back into the call and the three lists' fields. */
  lemma StepLineSplits(t: Task)
    requires ' ' !in t.call
    requires forall i :: 0 <= i < |t.parameters| ==> ' ' !in t.parameters[i]
    requires forall i :: 0 <= i < |t.inputs| ==> ' ' !in t.inputs[i]
    requires forall i :: 0 <= i < |t.outputs| ==> ' ' !in t.outputs[i]
    ensures |StepLine(t)| > 0 && StepLine(t)[|StepLine(t)| - 1] == '\n'
    ensures Split(StepLine(t)[..|StepLine(t)| - 1], ' ') == [t.call] + Fields(t.parameters) + Fields(t.inputs) + Fields(t.outputs)
  {
    var same := (c: string) => c;
    var line := CommandLine(None, same, t.call, t.inputs, t.outputs, t.parameters);
    assert StepLine(t) == line + "\n";
    assert StepLine(t)[..|StepLine(t)| - 1] == line;
    CommandLineWords(None, same, t.call, t.inputs, t.outputs, t.parameters);
    assert CommandHead(None, same, t.call) == [t.call];
  }

  /** How many steps a monitor lists. */
  function StepCount(pm: MonitorView): nat {
    |pm.backlog| + |pm.running| + |pm.commands| + |pm.failed|
  }

  /**
   * `accu` lists the monitor's steps: the backlog as `initial` step lines at
   * 0, then the running commands at their progress, the finished ones as
   * `succeeded` at 100 and the failed ones at their progress.
   */
  ghost predicate ListsSteps(pm: MonitorView, accu: seq<Entry>) {
    && |accu| == StepCount(pm)
    && (forall i :: 0 <= i < |pm.backlog| ==> accu[i] == Entry(StepLine(pm.backlog[i]), "initial", 0))
    && (forall i :: 0 <= i < |pm.running| ==>
          accu[|pm.backlog| + i] == Entry(pm.running[i], "running", pm.progressOf(pm.running[i])))
    && (forall i :: 0 <= i < |pm.commands| ==>
          accu[|pm.backlog| + |pm.running| + i] == Entry(pm.commands[i], "succeeded", 100))
    && (forall i :: 0 <= i < |pm.failed| ==>
          accu[|pm.backlog| + |pm.running| + |pm.commands| + i] == Entry(pm.failed[i], "failed", pm.progressOf(pm.failed[i])))
  }

  /**
   * `_pm_workflow_of`: the backlog as `initial` steps at progress 0, then
   * the running commands at their progress, the finished ones as `succeeded`
   * at 100 and the failed ones at their progress.
   */
  method PmWorkflowOf(pm: MonitorView) returns (accu: seq<Entry>)
    ensures ListsSteps(pm, accu)
  {
    accu := [];
    for k := 0 to |pm.backlog|
      invariant |accu| == k
      invariant forall i :: 0 <= i < k ==> accu[i] == Entry(StepLine(pm.backlog[i]), "initial", 0)
    {
      accu := accu + [Entry(StepLine(pm.backlog[k]), "initial", 0)];
    }
    ghost var a0 := accu;
    for k := 0 to |pm.running|
      invariant |accu| == |a0| + k && accu[..|a0|] == a0
      invariant forall i :: 0 <= i < k ==> accu[|a0| + i] == Entry(pm.running[i], "running", pm.progressOf(pm.running[i]))
    {
      accu := accu + [Entry(pm.running[k], "running", pm.progressOf(pm.running[k]))];
    }
    ghost var a1 := accu;
    for k := 0 to |pm.commands|
      invariant |accu| == |a1| + k && accu[..|a1|] == a1
      invariant forall i :: 0 <= i < k ==> accu[|a1| + i] == Entry(pm.commands[i], "succeeded", 100)
    {
      accu := accu + [Entry(pm.commands[k], "succeeded", 100)];
    }
    ghost var a2 := accu;
    for k := 0 to |pm.failed|
      invariant |accu| == |a2| + k && accu[..|a2|] == a2
      invariant forall i :: 0 <= i < k ==> accu[|a2| + i] == Entry(pm.failed[i], "failed", pm.progressOf(pm.failed[i]))
    {
      accu := accu + [Entry(pm.failed[k], "failed", pm.progressOf(pm.failed[k]))];
    }
  }

  // ---------------------------------------------------------------------------
  // Job progress
  // ---------------------------------------------------------------------------

  /** One task of a job as the controller reports it. */
  datatype TaskDict = TaskDict(name: string, status: string, progress: int)

  /** A job as the controller reports it. */
  datatype JobDict = JobDict(id: string, name: string, status: Option<string>, tasks: seq<TaskDict>, progress: int)

  /** A task counts 100 when it has succeeded and 0 otherwise. */
  function TaskProgress(status: string): int {
    if status == "succeeded" then 100 else 0
  }

  /** How many of the steps have succeeded. */
  function Succeeded(entries: seq<Entry>): (n: nat)
    ensures n <= |entries|
  {
    if |entries| == 0 then 0
    else Succeeded(entries[..|entries| - 1]) + (if entries[|entries| - 1].status == "succeeded" then 1 else 0)
  }

  /** The job progress: the share of succeeded steps in percent, truncated; 100 for a job without steps. */
  function JobProgress(entries: seq<Entry>): int {
    if |entries| > 0 then (100 * Succeeded(entries)) / |entries| else 100
  }

  /** A job's progress is a percentage. */
  lemma JobProgressBounds(entries: seq<Entry>)
    ensures 0 <= JobProgress(entries) <= 100
  {
    if |entries| > 0 {
      QuotientAtMost(100 * Succeeded(entries), |entries|, 100);
    }
  }

  /** A share of at most `c` times the divisor gives a quotient of at most `c`. */
  lemma QuotientAtMost(x: int, n: int, c: int)
    requires n > 0 && 0 <= x <= c * n
    ensures 0 <= x / n <= c
  {
    var q := x / n;
    assert q * n <= x;
    MulCancelLe(q, c, n);
  }

  /** A share of less than `c` times the divisor gives a quotient below `c`. */
  lemma QuotientBelow(x: int, n: int, c: int)
    requires n > 0 && 0 <= x < c * n
    ensures x / n < c
  {
    var q := x / n;
    assert q * n <= x;
    MulCancelLt(q, c, n);
  }

  lemma MulCancelLe(q: int, c: int, n: int)
    requires n > 0 && q * n <= c * n
    ensures q <= c
  {
    assert (c - q) * n >= 0;
  }

  lemma MulCancelLt(q: int, c: int, n: int)
    requires n > 0 && q * n < c * n
    ensures q < c
  {
    assert (c - q) * n > 0;
  }

  /** A job is at 100 exactly when every one of its steps has succeeded. */
  lemma JobProgressComplete(entries: seq<Entry>)
    ensures JobProgress(entries) == 100 <==> forall i :: 0 <= i < |entries| ==> entries[i].status == "succeeded"
  {
    AllSucceeded(entries);
    if |entries| > 0 {
      FullShare(Succeeded(entries), |entries|);
    }
  }

  /** `k` of `n` in percent, truncated, is 100 exactly when `k` is `n`. */
  lemma FullShare(k: nat, n: nat)
    requires 0 < n && k <= n
    ensures (100 * k) / n == 100 <==> k == n
  {
    if k < n {
      QuotientBelow(100 * k, n, 100);
    } else {
      assert 100 * k == 100 * n;
    }
  }

  /** Every step has succeeded exactly when all of them count. */
  lemma {:induction false} AllSucceeded(entries: seq<Entry>)
    ensures Succeeded(entries) == |entries| <==> forall i :: 0 <= i < |entries| ==> entries[i].status == "succeeded"
  {
    if |entries| > 0 {
      var init := entries[..|entries| - 1];
      AllSucceeded(init);
      assert forall i :: 0 <= i < |init| ==> init[i] == entries[i];
    }
  }

  /**
   * `job` reports the steps: one task per step, in order, named by the step,
   * at 100 when it has succeeded and 0 otherwise, and the job progress over
   * all of them.
   */
  ghost predicate ReportsEntries(entries: seq<Entry>, job: JobDict) {
    && |job.tasks| == |entries|
    && (forall i :: 0 <= i < |entries| ==>
          job.tasks[i] == TaskDict(entries[i].step, entries[i].status, TaskProgress(entries[i].status)))
    && job.progress == JobProgress(entries)
  }

  /**
   * What `submit_request` and `get_job` report of a monitor: the backlog's
   * step lines as `initial` tasks at 0, the running commands at 0, the
   * finished ones as `succeeded` at 100, the failed ones at 0, and the
   * truncated share of finished commands among all steps, or 100 when there
   * are none.
   */
  ghost predicate ReportsMonitor(pm: MonitorView, job: JobDict) {
    && |job.tasks| == StepCount(pm)
    && (forall i :: 0 <= i < |pm.backlog| ==> job.tasks[i] == TaskDict(StepLine(pm.backlog[i]), "initial", 0))
    && (forall i :: 0 <= i < |pm.running| ==> job.tasks[|pm.backlog| + i] == TaskDict(pm.running[i], "running", 0))
    && (forall i :: 0 <= i < |pm.commands| ==>
          job.tasks[|pm.backlog| + |pm.running| + i] == TaskDict(pm.commands[i], "succeeded", 100))
    && (forall i :: 0 <= i < |pm.failed| ==>
          job.tasks[|pm.backlog| + |pm.running| + |pm.commands| + i] == TaskDict(pm.failed[i], "failed", 0))
    && job.progress == if StepCount(pm) > 0 then (100 * |pm.commands|) / StepCount(pm) else 100
  }

  /** `x` clipped to at most `n`. */
  function Clip(x: nat, n: nat): nat {
    if x < n then x else n
  }

  /** Steps that have succeeded exactly at the positions `lo` to `hi - 1` count `hi - lo`, clipped to the list. */
  lemma {:induction false} SucceededRange(entries: seq<Entry>, lo: nat, hi: nat)
    requires lo <= hi
    requires forall i :: 0 <= i < |entries| ==> (entries[i].status == "succeeded" <==> lo <= i < hi)
    ensures Succeeded(entries) == Clip(hi, |entries|) - Clip(lo, |entries|)
  {
    if |entries| > 0 {
      var init := entries[..|entries| - 1];
      assert forall i :: 0 <= i < |init| ==> init[i] == entries[i];
      SucceededRange(init, lo, hi);
    }
  }

  /** Where a step sits in the listing decides whether it has succeeded: exactly the finished commands have. */
  lemma ListedSucceeded(pm: MonitorView, tasks: seq<Entry>)
    requires ListsSteps(pm, tasks)
    ensures Succeeded(tasks) == |pm.commands|
  {
    var b := |pm.backlog|;
    var lo := b + |pm.running|;
    var hi := lo + |pm.commands|;
    forall i | 0 <= i < |tasks| ensures (tasks[i].status == "succeeded" <==> lo <= i < hi) {
      if i < b {
        assert tasks[i] == Entry(StepLine(pm.backlog[i]), "initial", 0);
      } else if i < lo {
        var k := i - b;
        assert tasks[b + k] == Entry(pm.running[k], "running", pm.progressOf(pm.running[k]));
      } else if i < hi {
        var k := i - lo;
        assert tasks[lo + k] == Entry(pm.commands[k], "succeeded", 100);
      } else {
        var k := i - hi;
        assert tasks[hi + k] == Entry(pm.failed[k], "failed", pm.progressOf(pm.failed[k]));
      }
    }
    SucceededRange(tasks, lo, hi);
  }

  /** Reporting the listed steps of a monitor reports the monitor. */
  lemma ReportedMonitor(pm: MonitorView, tasks: seq<Entry>, job: JobDict)
    requires ListsSteps(pm, tasks) && ReportsEntries(tasks, job)
    ensures ReportsMonitor(pm, job)
  {
    ListedSucceeded(pm, tasks);
  }

  /**
   * The loop `submit_request` and `get_job` share: one task per step, in
   * order, named by the step, at 100 when it has succeeded and 0 otherwise,
   * and the job progress over all of them.
   */
  method JobDictOf(id: string, name: string, status: Option<string>, tasks: seq<Entry>) returns (job: JobDict)
    ensures job.id == id && job.name == name && job.status == status
    ensures ReportsEntries(tasks, job)
  {
    var taskDicts: seq<TaskDict> := [];
    var jobProgress := 0;
    for i := 0 to |tasks|
      invariant |taskDicts| == i
      invariant forall j :: 0 <= j < i ==>
        taskDicts[j] == TaskDict(tasks[j].step, tasks[j].status, TaskProgress(tasks[j].status))
      invariant jobProgress == 100 * Succeeded(tasks[..i])
    {
      assert tasks[..i + 1][..i] == tasks[..i];
      var status := tasks[i].status;
      var progress := 0;
      if status == "succeeded" {
        progress := 100;
      }
      jobProgress := jobProgress + progress;
      taskDicts := taskDicts + [TaskDict(tasks[i].step, status, progress)];
    }
    assert tasks[..|tasks|] == tasks;
    var p := if |tasks| > 0 then jobProgress / |tasks| else 100;
    job := JobDict(id, name, status, taskDicts, p);
  }

  // ---------------------------------------------------------------------------
  // Names and paths
  // ---------------------------------------------------------------------------

  /** The job id: the request name with every space replaced by `_`. */
  function JobId(name: string): (id: string)
    ensures |id| == |name| && ' ' !in id
    ensures forall i :: 0 <= i < |name| && name[i] != ' ' ==> id[i] == name[i]
    ensures forall i :: 0 <= i < |name| && name[i] == ' ' ==> id[i] == '_'
  {
    ReplaceChar(name, ' ', '_')
  }

  /** The job's working directory. */
  function WorkDir(workdirRoot: string, id: string): string {
    workdirRoot + "/" + id
  }

  /** The request file the monitor is given. */
  function RequestFile(workdir: string, id: string): string {
    workdir + "/" + id + ".json"
  }

  /** The `requestName` the monitor's request carries. */
  function RequestName(workdir: string, name: string): string {
    workdir + "/" + name
  }

  /** The name `get_job` reports: the last `/`-separated part of the request name. */
  function ReportedName(requestName: string): string {
    LastPart(requestName, '/')
  }

  /**
   * `get_job` reports the name the request was submitted under, provided
   * the name holds no `/`.
   */
  lemma ReportedNameOfSubmitted(workdir: string, name: string)
    requires '/' !in name
    ensures ReportedName(RequestName(workdir, name)) == name
  {
    assert RequestName(workdir, name) == workdir + ['/'] + name;
    LastPartAfterSeparator(workdir, '/', name);
  }

  /** A request whose name has no space gets that name as its id. */
  lemma JobIdOfPlainName(name: string)
    requires ' ' !in name
    ensures JobId(name) == name
  {
  }

  /**
   * The fields of the monitor's request that `_pm_request_of` and
   * `submit_request` derive from the job: its request name, id, data root,
   * log directory, region, prior directory and request file.
   */
  datatype PmRequest = PmRequest(requestName: string, requestId: string, dataRoot: string, logDir: string,
                                 roi: string, priorsDir: string, requestFile: string)

  /** What `submit_request` hands to the processing server, and the job dict it returns. */
  datatype Submission = Submission(request: PmRequest, job: JobDict)

  /**
   * `_pm_request_of` for the fields derived from the job, with the request
   * file `submit_request` adds: a bbox that does not split into four parts
   * raises before any of them is set.
   */
  function PmRequestOf(name: string, bbox: string, workdir: string, id: string, requestFile: string): Result<PmRequest, BboxError> {
    match BboxToWkt(bbox)
    case Err(e) => Err(e)
    case Ok(roi) => Ok(PmRequest(RequestName(workdir, name), id, workdir, workdir + "/log", roi, workdir + "/priors", requestFile))
  }

  /**
   * `submit_request`: the request derived from the name, the working
   * directory root and the bbox, then the job dict built from the status and
   * monitor the processing server returns. A bbox that does not split into
   * four parts raises the unpacking error, before anything is written or
   * submitted.
   */
  method SubmitRequest(name: string, bbox: string, workdirRoot: string, pmStatus: string, pm: MonitorView)
    returns (r: Result<Submission, BboxError>)
    ensures r.Err? <==> |Split(bbox, ',')| != 4
    ensures r.Err? ==> r.error == WrongPartCount(|Split(bbox, ',')|)
    ensures r.Ok? ==>
      var id := JobId(name);
      var workdir := WorkDir(workdirRoot, id);
      && r.value.request == PmRequest(RequestName(workdir, name), id, workdir, workdir + "/log",
                                      BboxToWkt(bbox).value, workdir + "/priors", RequestFile(workdir, id))
      && r.value.job.id == id && r.value.job.name == name && r.value.job.status == TranslateStatus(pmStatus)
      && ReportsMonitor(pm, r.value.job)
      && 0 <= r.value.job.progress <= 100
    ensures r.Ok? && '/' !in name ==> ReportedName(r.value.request.requestName) == name
  {
    var id := JobId(name);
    var workdir := WorkDir(workdirRoot, id);
    var requestFile := RequestFile(workdir, id);
    var request := PmRequestOf(name, bbox, workdir, id, requestFile);
    if request.Err? {
      return Err(request.error);
    }
    var tasks := PmWorkflowOf(pm);
    var job := JobDictOf(id, name, TranslateStatus(pmStatus), tasks);
    JobProgressBounds(tasks);
    ReportedMonitor(pm, tasks, job);
    if '/' !in name {
      ReportedNameOfSubmitted(workdir, name);
    }
    return Ok(Submission(request.value, job));
  }

  /** `get_job`: the job dict of a known job, named by the last part of its request name. */
  method GetJob(id: string, requestName: string, pmStatus: string, pm: MonitorView) returns (job: JobDict)
    ensures job.id == id && job.name == ReportedName(requestName) && job.status == TranslateStatus(pmStatus)
    ensures ReportsMonitor(pm, job)
    ensures 0 <= job.progress <= 100
  {
    var tasks := PmWorkflowOf(pm);
    job := JobDictOf(id, ReportedName(requestName), TranslateStatus(pmStatus), tasks);
    JobProgressBounds(tasks);
    ReportedMonitor(pm, tasks, job);
  }

  // ---------------------------------------------------------------------------
  // Bounding box to WKT
  // ---------------------------------------------------------------------------

  /** The corners of a polygon ring, as coordinate texts. */
  datatype Vertex = Vertex(x: string, y: string)

  /** The closed ring around a box, counter-clockwise from its lower-left corner. */
  function BoxRing(minLon: string, minLat: string, maxLon: string, maxLat: string): (ring: seq<Vertex>)
    ensures |ring| == 5 && ring[0] == ring[4] == Vertex(minLon, minLat)
  {
    [Vertex(minLon, minLat), Vertex(maxLon, minLat), Vertex(maxLon, maxLat), Vertex(minLon, maxLat), Vertex(minLon, minLat)]
  }

  /** `acc` followed by each vertex, every one after a `,`, its coordinates separated by a space. */
  function AppendVertices(acc: string, vs: seq<Vertex>): string
    decreases |vs|
  {
    if |vs| == 0 then acc else AppendVertices(acc + "," + vs[0].x + " " + vs[0].y, vs[1..])
  }

  /** A `POLYGON` with one ring: the vertices separated by `,`, coordinates by a space. */
  function WktPolygon(ring: seq<Vertex>): string {
    if |ring| == 0 then "POLYGON(())"
    else AppendVertices("POLYGON((" + ring[0].x + " " + ring[0].y, ring[1..]) + "))"
  }

  /** The error unpacking a split that does not have four parts raises. */
  datatype BboxError = WrongPartCount(parts: nat)

  /**
   * The region text `get_inputs` and `_pm_request_of` build from a bbox
   * `minLon,minLat,maxLon,maxLat`.
   */
  function BboxToWkt(bbox: string): (r: Result<string, BboxError>)
    ensures r.Err? <==> |Split(bbox, ',')| != 4
  {
    var parts := Split(bbox, ',');
    if |parts| != 4 then Err(WrongPartCount(|parts|))
    else
      var minLon, minLat, maxLon, maxLat := parts[0], parts[1], parts[2], parts[3];
      Ok("POLYGON((" + minLon + " " + minLat + "," + maxLon + " " + minLat + "," + maxLon + " " + maxLat + ","
              + minLon + " " + maxLat + "," + minLon + " " + minLat + "))")
  }

  /**
   * Four coordinates without commas, joined by commas, give the polygon of
   * the box around them: five vertices, the first repeated at the end.
   */
  lemma BboxPolygon(minLon: string, minLat: string, maxLon: string, maxLat: string)
    requires ',' !in minLon && ',' !in minLat && ',' !in maxLon && ',' !in maxLat
    ensures BboxToWkt(Join(",", [minLon, minLat, maxLon, maxLat]))
         == Ok(WktPolygon(BoxRing(minLon, minLat, maxLon, maxLat)))
  {
    var xs := [minLon, minLat, maxLon, maxLat];
    SplitJoin(xs, ',');
    assert Join([','], xs) == Join(",", xs);
    var ring := BoxRing(minLon, minLat, maxLon, maxLat);
    RingText(minLon, minLat, maxLon, maxLat);
  }

  lemma RingText(minLon: string, minLat: string, maxLon: string, maxLat: string)
    ensures WktPolygon(BoxRing(minLon, minLat, maxLon, maxLat))
         == "POLYGON((" + minLon + " " + minLat + "," + maxLon + " " + minLat + "," + maxLon + " " + maxLat + ","
            + minLon + " " + maxLat + "," + minLon + " " + minLat + "))"
  {
    var ring := BoxRing(minLon, minLat, maxLon, maxLat);
    var t1 := "POLYGON((" + minLon + " " + minLat;
    var t2 := t1 + "," + maxLon + " " + minLat;
    var t3 := t2 + "," + maxLon + " " + maxLat;
    var t4 := t3 + "," + minLon + " " + maxLat;
    var t5 := t4 + "," + minLon + " " + minLat;
    assert AppendVertices(t4, ring[4..]) == AppendVertices(t5, []);
    assert AppendVertices(t3, ring[3..]) == AppendVertices(t4, ring[4..]);
    assert AppendVertices(t2, ring[2..]) == AppendVertices(t3, ring[3..]);
    assert AppendVertices(t1, ring[1..]) == AppendVertices(t2, ring[2..]);
  }

  // ---------------------------------------------------------------------------
  // Choosing the workflow
  // ---------------------------------------------------------------------------

  const DefaultWorkflow := "only-get-data"

  /** `_determine_workflow`: the request's `productionType` if it has one, `only-get-data` otherwise. */
  function DetermineWorkflow(request: seq<Field>): (r: Value)
    ensures "productionType" !in Keys(request) ==> r == Str(DefaultWorkflow)
  {
    match Get(request, "productionType")
    case Some(v) => v
    case None => Str(DefaultWorkflow)
  }

  /** A request that names a production type runs that workflow, whatever else it holds. */
  lemma DetermineNamedWorkflow(request: seq<Field>, productionType: Value)
    ensures DetermineWorkflow(Put(request, "productionType", productionType)) == productionType
  {
    GetPut(request, "productionType", productionType, "");
  }
}
