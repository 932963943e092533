/**
 * The `OnlyGetData` workflow: the hooks it gives the monitor. It fetches the
 * static data once and then the dynamic data window by window, records the
 * commands that finished, and reads progress, logs and output paths from each
 * processor's output.
 */
module OnlyGetDataWorkflow {
  import opened Wrappers
  import opened Text
  import opened Workflow

  /** The hosts the monitor may use, with their task capacities. */
  const Hosts: seq<(string, int)> := [("localhost", 10)]
  /** The processor types, with how many of each may run at once. */
  const Types: seq<(string, int)> := [("data_access_get_static.py", 1), ("data_access_get_dynamic.py", 2)]

  const StaticCall := "data_access_get_static.py"
  const DynamicCall := "data_access_get_dynamic.py"

  /** The one task that fetches the data that does not depend on the date. */
  function StaticTask(dataRoot: string, requestFile: string, start: int, stop: int): Task {
    Task(StaticCall, [], [dataRoot + "/" + "emus", dataRoot + "/" + "dem"],
         [requestFile, DateText(start), DateText(stop)])
  }

  /** The task that fetches the data of one window, filed under the window's first day. */
  function DynamicTask(dataRoot: string, requestFile: string, w: Window): Task {
    var date := DateText(w.first);
    Task(DynamicCall, [],
         [dataRoot + "/" + "modis" + "/" + date, dataRoot + "/" + "cams" + "/" + date, dataRoot + "/" + "s2" + "/" + date],
         [requestFile, date, DateText(w.last)])
  }

  /** One dynamic task per window, in window order. */
  function DynamicTasks(dataRoot: string, requestFile: string, ws: seq<Window>): (ts: seq<Task>)
    ensures |ts| == |ws|
    ensures forall i :: 0 <= i < |ws| ==> ts[i] == DynamicTask(dataRoot, requestFile, ws[i])
  {
    if |ws| == 0 then []
    else DynamicTasks(dataRoot, requestFile, ws[..|ws| - 1]) + [DynamicTask(dataRoot, requestFile, ws[|ws| - 1])]
  }

  /** Everything `create_workflow` hands to the monitor, in order. */
  function WorkflowTasks(dataRoot: string, requestFile: string, start: int, stop: int, step: int): seq<Task>
    requires step >= 1 || start > stop
  {
    [StaticTask(dataRoot, requestFile, start, stop)] + DynamicTasks(dataRoot, requestFile, Windows(start, stop, step))
  }

  /**
   * The workflow holds exactly one static task, ahead of every dynamic task,
   * and then one dynamic task per window, in window order:
   * ceil((stop - start + 1) / step) of them, none when `start > stop`.
   */
  lemma WorkflowShape(dataRoot: string, requestFile: string, start: int, stop: int, step: int)
    requires step >= 1
    ensures var ts := WorkflowTasks(dataRoot, requestFile, start, stop, step);
      && |ts| == 1 + (if start > stop then 0 else (stop - start + step) / step)
      && ts[0] == StaticTask(dataRoot, requestFile, start, stop)
      && (forall i :: 0 <= i < |ts| ==> (ts[i].call == StaticCall <==> i == 0))
    ensures var ts := WorkflowTasks(dataRoot, requestFile, start, stop, step);
      var ws := Windows(start, stop, step);
      forall i :: 1 <= i < |ts| ==> ts[i] == DynamicTask(dataRoot, requestFile, ws[i - 1])
  {
    var ts := WorkflowTasks(dataRoot, requestFile, start, stop, step);
    var ws := Windows(start, stop, step);
    WindowCount(start, stop, step);
    assert StaticCall[16] != DynamicCall[16];
    forall i | 1 <= i < |ts| ensures ts[i] == DynamicTask(dataRoot, requestFile, ws[i - 1]) {
      assert ts[i] == DynamicTasks(dataRoot, requestFile, ws)[i - 1];
    }
  }

  lemma DynamicTasksSnoc(dataRoot: string, requestFile: string, ws: seq<Window>, w: Window)
    ensures DynamicTasks(dataRoot, requestFile, ws + [w])
         == DynamicTasks(dataRoot, requestFile, ws) + [DynamicTask(dataRoot, requestFile, w)]
  {
    assert (ws + [w])[..|ws|] == ws;
  }

  lemma TasksAdvance(head: seq<Task>, dataRoot: string, requestFile: string, done: seq<Window>, w: Window)
    ensures head + DynamicTasks(dataRoot, requestFile, done) + [DynamicTask(dataRoot, requestFile, w)]
         == head + DynamicTasks(dataRoot, requestFile, done + [w])
  {
    DynamicTasksSnoc(dataRoot, requestFile, done, w);
    AppendAssoc(head, DynamicTasks(dataRoot, requestFile, done), [DynamicTask(dataRoot, requestFile, w)]);
  }

  // ---------------------------------------------------------------------------
  // Reading a processor's output
  // ---------------------------------------------------------------------------

  /** `int(x / 100)` for a whole `x`: division by 100, truncated toward zero. */
  function TruncDiv100(x: int): int {
    if x >= 0 then x / 100 else -((-x) / 100)
  }

  /** The progress a component at `pct` percent gives within the script window `[lo, hi]`. */
  function Rescale(lo: int, hi: int, pct: int): int {
    lo + TruncDiv100(pct * (hi - lo))
  }

  /** Within a window, a component's progress stays within the window. */
  lemma RescaleBounds(lo: int, hi: int, pct: int)
    requires lo <= hi && 0 <= pct <= 100
    ensures lo <= Rescale(lo, hi, pct) <= hi
    ensures pct == 0 ==> Rescale(lo, hi, pct) == lo
    ensures pct == 100 ==> Rescale(lo, hi, pct) == hi
  {
    var d := hi - lo;
    assert 0 <= pct * d <= 100 * d by {
      MulLe(pct, 100, d);
    }
    assert (100 * d) / 100 == d;
  }

  lemma MulLe(a: int, b: int, d: int)
    requires 0 <= a <= b && d >= 0
    ensures 0 <= a * d <= b * d
  {
  }

  /** A script window of 10 to 50 and a component at 40 percent give 26. */
  lemma RescaleExample()
    ensures Rescale(10, 50, 40) == 26
  {
  }

  /** The progress of each command, and the window its script progress lines opened. */
  datatype Progress = Progress(current: map<string, int>, lower: map<string, int>, upper: map<string, int>)

  /** What reading the output of one command changes. */
  datatype TraceState = TraceState(paths: seq<string>, progress: Progress, log: seq<string>)

  /** The errors `int()` and the index into the split bounds raise. */
  datatype TraceError = NotAnInteger(text: string) | MissingBound(line: string)

  /** The state after some lines, the lines traced, and the error that stopped the reading, if any. */
  datatype Traced = Traced(state: TraceState, written: seq<string>, error: Option<TraceError>)

  const ScriptTag := "INFO:ScriptProgress"
  const ComponentTag := "INFO:ComponentProgress"

  predicate IsScriptProgress(line: string) {
    !IsOutputLine(line) && StartsWith(line, ScriptTag)
  }

  predicate IsComponentProgress(line: string) {
    !IsOutputLine(line) && !StartsWith(line, ScriptTag) && StartsWith(line, ComponentTag)
  }

  /** A line the processor log keeps: one that is none of the three recognised kinds. */
  predicate IsLogLine(line: string) {
    !IsOutputLine(line) && !StartsWith(line, ScriptTag) && !StartsWith(line, ComponentTag)
  }

  /**
   * A script progress line `...:lo-hi` opens the window `[lo, hi]` and sets
   * the progress to `lo`. The lower bound is recorded before `hi` is looked
   * at, so a missing or malformed `hi` leaves it set.
   */
  function ScriptProgress(p: Progress, command: string, line: string): (r: (Progress, Option<TraceError>))
    ensures r.1.None? ==> command in r.0.lower && command in r.0.upper && r.0.current == p.current[command := r.0.lower[command]]
    ensures r.1.Some? ==> r.0.current == p.current && r.0.upper == p.upper
  {
    var bounds := Split(LastPart(line, ':'), '-');
    match ParseInt(bounds[0])
    case None => (p, Some(NotAnInteger(bounds[0])))
    case Some(lo) =>
      var p1 := p.(lower := p.lower[command := lo]);
      if |bounds| < 2 then (p1, Some(MissingBound(line)))
      else
        match ParseInt(bounds[1])
        case None => (p1, Some(NotAnInteger(bounds[1])))
        case Some(hi) => (p1.(upper := p1.upper[command := hi], current := p1.current[command := lo]), None)
  }

  /**
   * A component progress line `...:pct` places `pct` percent into the
   * command's window; without a window the line is ignored.
   */
  function ComponentProgress(p: Progress, command: string, line: string): (r: (Progress, Option<TraceError>))
    ensures r.0.lower == p.lower && r.0.upper == p.upper
    ensures !(command in p.upper && command in p.lower) ==> r == (p, None)
  {
    var text := LastPart(line, ':');
    if command in p.upper && command in p.lower then
      match ParseInt(text)
      case None => (p, Some(NotAnInteger(text)))
      case Some(pct) => (p.(current := p.current[command := Rescale(p.lower[command], p.upper[command], pct)]), None)
    else (p, None)
  }

  /**
   * One line of processor output: an `output=` line adds a path, the two
   * progress lines update the progress, any other line joins the log.
   */
  function ReadLine(s: TraceState, command: string, line: string): (r: (TraceState, Option<TraceError>))
    ensures r.0.paths == if IsOutputLine(line) then s.paths + [OutputPath(line)] else s.paths
    ensures r.0.log == if IsLogLine(line) then s.log + [line] else s.log
    ensures r.1.Some? ==> IsScriptProgress(line) || IsComponentProgress(line)
  {
    if IsOutputLine(line) then (s.(paths := s.paths + [OutputPath(line)]), None)
    else if StartsWith(line, ScriptTag) then
      var (p, e) := ScriptProgress(s.progress, command, line);
      (s.(progress := p), e)
    else if StartsWith(line, ComponentTag) then
      var (p, e) := ComponentProgress(s.progress, command, line);
      (s.(progress := p), e)
    else (s.(log := s.log + [line]), None)
  }

  /** Reads one line of processor output: the new state and the error the line raised, if any. */
  type LineReader = (TraceState, string) -> (TraceState, Option<TraceError>)

  /** The reader the tracing loop applies to every line of `command`'s output. */
  function Reader(command: string): LineReader {
    (s: TraceState, line: string) => ReadLine(s, command, line)
  }

  /**
   * Reads one more line unless an earlier one raised: a line that raises is
   * not written to the trace.
   */
  function Advance(read: LineReader, t: Traced, line: string): (r: Traced)
    ensures t.error.Some? ==> r == t
    ensures t.error.None? && r.error.None? ==> r.written == t.written + [line]
    ensures t.error.None? && r.error.Some? ==> r.written == t.written
  {
    if t.error.Some? then t
    else
      var (s1, e) := read(t.state, line);
      Traced(s1, if e.None? then t.written + [line] else t.written, e)
  }

  /** The lines in order, up to and including the first that raises. */
  function ReadWith(read: LineReader, s: TraceState, lines: seq<string>): Traced {
    if |lines| == 0 then Traced(s, [], None)
    else Advance(read, ReadWith(read, s, lines[..|lines| - 1]), lines[|lines| - 1])
  }

  /** The output of `command`, read line by line. */
  function ReadLines(s: TraceState, command: string, lines: seq<string>): Traced {
    ReadWith(Reader(command), s, lines)
  }

  /** The lines the processor log keeps, in order. */
  function LogLines(lines: seq<string>): (kept: seq<string>)
    ensures |kept| <= |lines|
  {
    if |lines| == 0 then []
    else
      var init := LogLines(lines[..|lines| - 1]);
      var last := lines[|lines| - 1];
      if IsLogLine(last) then init + [last] else init
  }

  /**
   * Every line read is written to the trace, in order; a line that raises
   * is not, and stops the reading.
   */
  lemma {:induction false} TracedLines(read: LineReader, s: TraceState, lines: seq<string>)
    ensures var t := ReadWith(read, s, lines);
      && (t.error.None? ==> t.written == lines)
      && (t.error.Some? ==> |t.written| < |lines| && t.written == lines[..|t.written|])
  {
    if |lines| > 0 {
      TracedLines(read, s, lines[..|lines| - 1]);
      TracedStep(read, ReadWith(read, s, lines[..|lines| - 1]), lines);
    }
  }

  lemma TracedStep(read: LineReader, t: Traced, lines: seq<string>)
    requires |lines| > 0
    requires t.error.None? ==> t.written == lines[..|lines| - 1]
    requires t.error.Some? ==> |t.written| < |lines| - 1 && t.written == lines[..|lines| - 1][..|t.written|]
    ensures var r := Advance(read, t, lines[|lines| - 1]);
      && (r.error.None? ==> r.written == lines)
      && (r.error.Some? ==> |r.written| < |lines| && r.written == lines[..|r.written|])
  {
    var r := Advance(read, t, lines[|lines| - 1]);
    if t.error.None? && r.error.None? {
      assert lines[..|lines| - 1] + [lines[|lines| - 1]] == lines;
    }
  }

  /** When no line raises, the paths grow by the paths of the `output=` lines, in order. */
  lemma {:induction false} CollectedPaths(s: TraceState, command: string, lines: seq<string>)
    ensures var t := ReadLines(s, command, lines);
      t.error.None? ==> t.state.paths == s.paths + OutputPaths(lines)
  {
    if |lines| > 0 {
      var init := lines[..|lines| - 1];
      CollectedPaths(s, command, init);
      var t := ReadLines(s, command, init);
      if t.error.None? && IsOutputLine(lines[|lines| - 1]) {
        AppendAssoc(s.paths, OutputPaths(init), [OutputPath(lines[|lines| - 1])]);
      }
    }
  }

  /** When no line raises, the processor log grows by exactly the unrecognised lines, in order. */
  lemma {:induction false} CollectedLog(s: TraceState, command: string, lines: seq<string>)
    ensures var t := ReadLines(s, command, lines);
      t.error.None? ==> t.state.log == s.log + LogLines(lines)
  {
    if |lines| > 0 {
      var init := lines[..|lines| - 1];
      CollectedLog(s, command, init);
      var t := ReadLines(s, command, init);
      if t.error.None? && IsLogLine(lines[|lines| - 1]) {
        AppendAssoc(s.log, LogLines(init), [lines[|lines| - 1]]);
      }
    }
  }

  /** Once a line raises, the lines after it change nothing. */
  lemma {:induction false} StopsAtError(read: LineReader, s: TraceState, lines: seq<string>, k: nat)
    requires k <= |lines| && ReadWith(read, s, lines[..k]).error.Some?
    ensures ReadWith(read, s, lines) == ReadWith(read, s, lines[..k])
    decreases |lines| - k
  {
    if k < |lines| {
      assert lines[..|lines| - 1][..k] == lines[..k];
      StopsAtError(read, s, lines[..|lines| - 1], k);
    } else {
      assert lines[..k] == lines;
    }
  }

  /**
   * `INFO:ScriptProgress:lo-hi`, as read with or without its newline, opens
   * the window `[lo, hi]` and sets the progress to `lo`.
   */
  lemma ScriptProgressLine(s: TraceState, command: string, lo: nat, hi: nat, end: string)
    requires end == "" || end == "\n"
    ensures var p := s.progress;
      ReadLine(s, command, ScriptTag + ":" + (NatToString(lo) + "-" + (NatToString(hi) + end)))
      == (s.(progress := Progress(p.current[command := lo], p.lower[command := lo], p.upper[command := hi])), None)
  {
    var a := NatToString(lo);
    var b := NatToString(hi) + end;
    var line := ScriptTag + ":" + (a + "-" + b);
    ScriptLineKind(a + "-" + b);
    DigitsHaveNoSeparator(a);
    DigitsHaveNoSeparator(NatToString(hi));
    assert ':' !in b && '-' !in b;
    BoundsText(a, b);
    ScriptProgressParsed(s.progress, command, line, lo, hi, end);
  }

  lemma ScriptLineKind(tail: string)
    ensures IsScriptProgress(ScriptTag + ":" + tail)
  {
    var line := ScriptTag + ":" + tail;
    AppendAssoc(ScriptTag, ":", tail);
    StartsWithConcat(ScriptTag, ":" + tail);
    assert line[0] == ScriptTag[0];
    NotStartsWithAt(line, "output=", 0);
  }

  lemma DigitsHaveNoSeparator(a: string)
    requires forall i :: 0 <= i < |a| ==> IsDigit(a[i])
    ensures ':' !in a && '-' !in a
  {
  }

  /** `lo-hi` after the last colon splits into its two bounds. */
  lemma BoundsText(a: string, b: string)
    requires ':' !in a && '-' !in a && ':' !in b && '-' !in b
    ensures LastPart(ScriptTag + ":" + (a + "-" + b), ':') == a + "-" + b
    ensures Split(a + "-" + b, '-') == [a, b]
  {
    var tail := a + "-" + b;
    assert ':' !in tail by {
      forall i | 0 <= i < |tail| ensures tail[i] != ':' {
        if i < |a| {
          assert tail[i] == a[i];
        } else if i > |a| {
          assert tail[i] == b[i - |a| - 1];
        }
      }
    }
    assert ":" == [':'];
    LastPartAfterSeparator(ScriptTag, ':', tail);
    assert Join("-", [a, b]) == tail by {
      assert [a, b][1..] == [b];
    }
    assert "-" == ['-'];
    SplitJoin([a, b], '-');
  }

  lemma ScriptProgressParsed(p: Progress, command: string, line: string, lo: nat, hi: nat, end: string)
    requires end == "" || end == "\n"
    requires Split(LastPart(line, ':'), '-') == [NatToString(lo), NatToString(hi) + end]
    ensures ScriptProgress(p, command, line)
         == (Progress(p.current[command := lo], p.lower[command := lo], p.upper[command := hi]), None)
  {
    ParseIntToString(lo);
    ParseIntLine(hi, end);
  }

  /**
   * `INFO:ComponentProgress:pct`, as read with or without its newline, places
   * `pct` percent into the open window, and is ignored when the command has
   * no window.
   */
  lemma ComponentProgressLine(s: TraceState, command: string, pct: int, end: string)
    requires end == "" || end == "\n"
    ensures var p := s.progress;
      ReadLine(s, command, ComponentTag + ":" + (IntToString(pct) + end))
      == if command in p.upper && command in p.lower
         then (s.(progress := p.(current := p.current[command := Rescale(p.lower[command], p.upper[command], pct)])), None)
         else (s, None)
  {
    var a := IntToString(pct) + end;
    var line := ComponentTag + ":" + a;
    assert ":" == [':'];
    assert IsComponentProgress(line) by {
      AppendAssoc(ComponentTag, ":", a);
      StartsWithConcat(ComponentTag, ":" + a);
      assert line[0] == ComponentTag[0];
      NotStartsWithAt(line, "output=", 0);
      assert line[5] == ComponentTag[5];
      NotStartsWithAt(line, ScriptTag, 5);
    }
    assert LastPart(line, ':') == a by {
      NoColonInLine(pct, end);
      LastPartAfterSeparator(ComponentTag, ':', a);
    }
    ParseIntLine(pct, end);
  }

  lemma NoColonInLine(i: int, end: string)
    requires end == "" || end == "\n"
    ensures ':' !in IntToString(i) + end
  {
    var d := NatToString(if i < 0 then -i else i);
    assert forall k :: 0 <= k < |d| ==> IsDigit(d[k]);
  }

  /** The reading loop reads the lines one after the other. */
  lemma ReadLinesStep(s0: TraceState, command: string, lines: seq<string>, i: nat, before: TraceState, trace: seq<string>)
    requires i < |lines| && ReadLines(s0, command, lines[..i]) == Traced(before, trace, None)
    ensures var (s, e) := ReadLine(before, command, lines[i]);
      ReadLines(s0, command, lines[..i + 1]) == Traced(s, if e.None? then trace + [lines[i]] else trace, e)
  {
    assert lines[..i + 1][..i] == lines[..i];
  }

  /** The processor log of a command, empty until the first line is read. */
  function LogOf(logs: map<string, seq<string>>, command: string): seq<string> {
    if command in logs then logs[command] else []
  }

  /** The `OnlyGetData` monitor: its parameters and the state its hooks keep. */
  class OnlyGetData {
    const dataRoot: string
    const requestFile: string
    /** The first and last day of the request, and the window length in days. */
    const start: int
    const stop: int
    const step: int
    /** The processor script the monitor runs calls through, if any. */
    const script: Option<string>
    /** How the monitor resolves a call to the path it runs. */
    const pathOfCall: string -> string
    /** The tasks handed to the monitor, in order. */
    var backlog: seq<Task>
    /** The commands that finished without a positive exit code. */
    var commands: set<string>
    var tasksProgress: map<string, int>
    var lowerProgress: map<string, int>
    var upperProgress: map<string, int>
    var processorLogs: map<string, seq<string>>

    constructor (dataRoot: string, requestFile: string, start: int, stop: int, step: int,
                 script: Option<string>, pathOfCall: string -> string)
      ensures this.dataRoot == dataRoot && this.requestFile == requestFile
      ensures this.start == start && this.stop == stop && this.step == step
      ensures this.script == script && this.pathOfCall == pathOfCall
      ensures backlog == [] && commands == {}
      ensures tasksProgress == map[] && lowerProgress == map[] && upperProgress == map[] && processorLogs == map[]
    {
      this.dataRoot := dataRoot;
      this.requestFile := requestFile;
      this.start := start;
      this.stop := stop;
      this.step := step;
      this.script := script;
      this.pathOfCall := pathOfCall;
      backlog := [];
      commands := {};
      tasksProgress := map[];
      lowerProgress := map[];
      upperProgress := map[];
      processorLogs := map[];
    }

    /** The monitor's `execute`, as far as this model goes: the task joins the backlog. */
    method Execute(call: string, inputs: seq<string>, outputs: seq<string>, parameters: seq<string>)
      modifies this`backlog
      ensures backlog == old(backlog) + [Task(call, inputs, outputs, parameters)]
    {
      backlog := backlog + [Task(call, inputs, outputs, parameters)];
    }

    /** `create_workflow`: the static task, then one dynamic task per window. */
    method CreateWorkflow()
      requires step >= 1 || start > stop
      modifies this`backlog
      ensures backlog == old(backlog) + WorkflowTasks(dataRoot, requestFile, start, stop, step)
    {
      var modis := dataRoot + "/" + "modis";
      var cams := dataRoot + "/" + "cams";
      var s2 := dataRoot + "/" + "s2";
      var emus := dataRoot + "/" + "emus";
      var dem := dataRoot + "/" + "dem";
      var startText := DateText(start);
      var stopText := DateText(stop);
      Execute(StaticCall, [], [emus, dem], [requestFile, startText, stopText]);
      ghost var head := backlog;
      var cursor := start;
      ghost var done: seq<Window> := [];
      AppendAssoc([], [], Windows(start, stop, step));
      while cursor <= stop
        invariant step >= 1 || cursor > stop
        invariant Windows(start, stop, step) == done + Windows(cursor, stop, step)
        invariant backlog == head + DynamicTasks(dataRoot, requestFile, done)
        decreases stop - cursor
      {
        ghost var c0 := cursor;
        ghost var w := WindowAt(cursor, stop, step);
        var date := DateText(cursor);
        cursor := cursor + step;
        cursor := cursor - 1;
        if cursor > stop {
          cursor := stop;
        }
        var nextDate := DateText(cursor);
        cursor := cursor + 1;
        var modisForDate := modis + "/" + date;
        var camsForDate := cams + "/" + date;
        var s2ForDate := s2 + "/" + date;
        assert Task(DynamicCall, [], [modisForDate, camsForDate, s2ForDate], [requestFile, date, nextDate])
            == DynamicTask(dataRoot, requestFile, w);
        TasksAdvance(head, dataRoot, requestFile, done, w);
        Execute(DynamicCall, [], [modisForDate, camsForDate, s2ForDate], [requestFile, date, nextDate]);
        WindowsAdvance(start, stop, step, done, c0, cursor);
        done := done + [w];
      }
      AppendAssoc(old(backlog), [StaticTask(dataRoot, requestFile, start, stop)], DynamicTasks(dataRoot, requestFile, done));
    }

    /** `_observe_step`: records the command of a step unless its exit code is positive. */
    method ObserveStep(call: string, inputs: seq<string>, outputs: seq<string>, parameters: seq<string>, code: int)
      modifies this`commands
      ensures code > 0 ==> commands == old(commands)
      ensures code <= 0 ==> commands == old(commands) + {CommandLine(script, pathOfCall, call, inputs, outputs, parameters)}
    {
      if code > 0 {
        return;
      }
      var command := CommandLine(script, pathOfCall, call, inputs, outputs, parameters);
      commands := commands + {command};
    }

    /** The three progress dictionaries. */
    function Progresses(): Progress
      reads this
    {
      Progress(tasksProgress, lowerProgress, upperProgress)
    }

    /** What reading `command`'s output has changed so far. */
    function TraceOf(outputPaths: PathList, command: string): TraceState
      reads this, outputPaths
    {
      TraceState(outputPaths.items, Progresses(), LogOf(processorLogs, command))
    }

    /** Whether the fields hold `st` for `command`. */
    predicate Holds(outputPaths: PathList, command: string, st: TraceState)
      reads this, outputPaths
    {
      outputPaths.items == st.paths && Progresses() == st.progress
      && command in processorLogs && processorLogs[command] == st.log
    }

    /** The body of the reading loop: one line of `command`'s output. */
    method TraceLine(outputPaths: PathList, line: string, command: string, ghost st: TraceState)
      returns (error: Option<TraceError>)
      requires Holds(outputPaths, command, st)
      modifies outputPaths, this`tasksProgress, this`lowerProgress, this`upperProgress, this`processorLogs
      ensures var (s, e) := ReadLine(st, command, line);
        && error == e && Holds(outputPaths, command, s)
        && processorLogs == old(processorLogs)[command := s.log]
    {
      error := None;
      if StartsWith(line, "output=") {
        outputPaths.Append(Strip(line[7..]));
      } else if StartsWith(line, ScriptTag) {
        error := TraceScriptProgress(line, command);
      } else if StartsWith(line, ComponentTag) {
        error := TraceComponentProgress(line, command);
      } else {
        processorLogs := processorLogs[command := processorLogs[command] + [line]];
      }
    }

    /** The script progress branch of the reading loop. */
    method TraceScriptProgress(line: string, command: string) returns (error: Option<TraceError>)
      modifies this`tasksProgress, this`lowerProgress, this`upperProgress
      ensures (Progresses(), error) == ScriptProgress(old(Progresses()), command, line)
    {
      var bounds := Split(LastPart(line, ':'), '-');
      var lo := ParseInt(bounds[0]);
      if lo.None? {
        return Some(NotAnInteger(bounds[0]));
      }
      lowerProgress := lowerProgress[command := lo.value];
      if |bounds| < 2 {
        return Some(MissingBound(line));
      }
      var hi := ParseInt(bounds[1]);
      if hi.None? {
        return Some(NotAnInteger(bounds[1]));
      }
      upperProgress := upperProgress[command := hi.value];
      tasksProgress := tasksProgress[command := lo.value];
      return None;
    }

    /** The component progress branch of the reading loop. */
    method TraceComponentProgress(line: string, command: string) returns (error: Option<TraceError>)
      modifies this`tasksProgress
      ensures (Progresses(), error) == ComponentProgress(old(Progresses()), command, line)
    {
      var text := LastPart(line, ':');
      if command in upperProgress && command in lowerProgress {
        var pct := ParseInt(text);
        if pct.None? {
          return Some(NotAnInteger(text));
        }
        tasksProgress := tasksProgress[command := Rescale(lowerProgress[command], upperProgress[command], pct.value)];
      }
      return None;
    }

    /**
     * `_trace_processor_output`: reads the lines `command` prints, in order.
     * `trace` holds the lines written to the trace file. On an error the
     * state is left as it was when the error was raised.
     */
    method TraceProcessorOutput(outputPaths: PathList, lines: seq<string>, command: string, async_: bool)
      returns (trace: seq<string>, error: Option<TraceError>)
      modifies outputPaths, this`tasksProgress, this`lowerProgress, this`upperProgress, this`processorLogs
      ensures var t := ReadLines(old(TraceOf(outputPaths, command)), command, lines);
        && trace == t.written && error == t.error && Progresses() == t.state.progress
        && processorLogs == old(processorLogs)[command := t.state.log]
        && outputPaths.items == if error.None? then AsyncPaths(t.state.paths, lines, async_) else t.state.paths
    {
      ghost var s0 := TraceOf(outputPaths, command);
      if command !in processorLogs {
        processorLogs := processorLogs[command := []];
      }
      ghost var logs0 := old(processorLogs);
      ghost var st := s0;
      trace := [];
      var i := 0;
      while i < |lines|
        invariant 0 <= i <= |lines|
        invariant ReadLines(s0, command, lines[..i]) == Traced(st, trace, None)
        invariant Holds(outputPaths, command, st) && processorLogs == logs0[command := st.log]
      {
        var line := lines[i];
        var e := TraceLine(outputPaths, line, command, st);
        ReadLinesStep(s0, command, lines, i, st, trace);
        st := ReadLine(st, command, line).0;
        if e.Some? {
          StopsAtError(Reader(command), s0, lines, i + 1);
          return trace, e;
        }
        trace := trace + [line];
        i := i + 1;
      }
      assert lines[..i] == lines;
      if async_ && |lines| > 0 && lines[|lines| - 1] != "" {
        outputPaths.Clear();
        outputPaths.Append(Strip(lines[|lines| - 1]));
      }
      return trace, None;
    }

    /** `get_progress`: the recorded progress of a command, 0 for a command with none. */
    function GetProgress(command: string): (p: int)
      reads this
      ensures command in tasksProgress ==> p == tasksProgress[command]
      ensures command !in tasksProgress ==> p == 0
    {
      if command in tasksProgress then tasksProgress[command] else 0
    }

    /** `get_logs`: the processor log of a command, empty for a command with none. */
    function GetLogs(command: string): (log: seq<string>)
      reads this
      ensures command in processorLogs ==> log == processorLogs[command]
      ensures command !in processorLogs ==> log == []
    {
      LogOf(processorLogs, command)
    }
  }
}
