/**
 * The `MultiplyAdaptedIterative8` test workflow: for every date window it
 * runs three scripts in a chain, each reading the output of the one before,
 * and it reads output paths and `progress=` lines from each processor's output.
 */
module AdaptedIterative8Workflow {
  import opened Wrappers
  import opened Text
  import opened Workflow

  /** The hosts the monitor may use, with their task capacities. */
  const Hosts: seq<(string, int)> := [("localhost", 10)]
  /** The processor types, with how many of each may run at once. */
  const Types: seq<(string, int)> := [("test_script_1.py", 2), ("test_script_2.py", 2), ("test_script_3.py", 2)]

  const Script1 := "test_script_1.py"
  const Script2 := "test_script_2.py"
  const Script3 := "test_script_3.py"

  /** Where a script of the chain writes its output (`dir` is `out_1`, `out_2` or `out_3`) for the window starting on `date`. */
  function OutFor(dataRoot: string, dir: string, date: string): string {
    dataRoot + "/" + dir + "/" + date
  }

  /** The three tasks of one window, in the order they are handed to the monitor. */
  function WindowTasks(dataRoot: string, requestFile: string, w: Window): (ts: seq<Task>)
    ensures |ts| == 3
  {
    var date := DateText(w.first);
    [ Task(Script1, [], [OutFor(dataRoot, "out_1", date)], [requestFile, date, DateText(w.last)]),
      Task(Script2, [OutFor(dataRoot, "out_1", date)], [OutFor(dataRoot, "out_2", date)], [requestFile]),
      Task(Script3, [OutFor(dataRoot, "out_2", date)], [OutFor(dataRoot, "out_3", date)], [requestFile]) ]
  }

  /** The tasks of the windows, window by window. */
  function IterativeTasks(dataRoot: string, requestFile: string, ws: seq<Window>): (ts: seq<Task>)
    ensures |ts| == 3 * |ws|
  {
    if |ws| == 0 then []
    else IterativeTasks(dataRoot, requestFile, ws[..|ws| - 1]) + WindowTasks(dataRoot, requestFile, ws[|ws| - 1])
  }

  /** The tasks of window `i` sit at positions `3 i`, `3 i + 1` and `3 i + 2`. */
  lemma {:induction false} IterativeTasksAt(dataRoot: string, requestFile: string, ws: seq<Window>)
    ensures var ts := IterativeTasks(dataRoot, requestFile, ws);
      forall i, j | 0 <= i < |ws| && 0 <= j < 3 :: ts[3 * i + j] == WindowTasks(dataRoot, requestFile, ws[i])[j]
  {
    if |ws| > 0 {
      var init := ws[..|ws| - 1];
      IterativeTasksAt(dataRoot, requestFile, init);
      IterativeTasksAtStep(dataRoot, requestFile, ws, init);
    }
  }

  lemma IterativeTasksAtStep(dataRoot: string, requestFile: string, ws: seq<Window>, init: seq<Window>)
    requires |ws| > 0 && init == ws[..|ws| - 1]
    requires var ts := IterativeTasks(dataRoot, requestFile, init);
      forall i, j | 0 <= i < |init| && 0 <= j < 3 :: ts[3 * i + j] == WindowTasks(dataRoot, requestFile, init[i])[j]
    ensures var ts := IterativeTasks(dataRoot, requestFile, ws);
      forall i, j | 0 <= i < |ws| && 0 <= j < 3 :: ts[3 * i + j] == WindowTasks(dataRoot, requestFile, ws[i])[j]
  {
    var prior := IterativeTasks(dataRoot, requestFile, init);
    var last := WindowTasks(dataRoot, requestFile, ws[|ws| - 1]);
    var ts := IterativeTasks(dataRoot, requestFile, ws);
    assert ts == prior + last;
    forall i, j | 0 <= i < |ws| && 0 <= j < 3
      ensures ts[3 * i + j] == WindowTasks(dataRoot, requestFile, ws[i])[j]
    {
      if i < |ws| - 1 {
        assert init[i] == ws[i];
        assert ts[3 * i + j] == prior[3 * i + j];
      } else {
        assert ts[3 * i + j] == last[j];
      }
    }
  }

  /**
   * `create_workflow` hands over three tasks per window and nothing else: no
   * static task, script 1, 2 and 3 in that order, each window's chain reading
   * the previous script's output, and only script 1 given the window's dates.
   */
  lemma IterativeShape(dataRoot: string, requestFile: string, start: int, stop: int, step: int)
    requires step >= 1
    ensures var ts := IterativeTasks(dataRoot, requestFile, Windows(start, stop, step));
      |ts| == 3 * (if start > stop then 0 else (stop - start + step) / step)
    ensures var ws := Windows(start, stop, step);
      var ts := IterativeTasks(dataRoot, requestFile, ws);
      forall i | 0 <= i < |ws| ::
        var date := DateText(ws[i].first);
        && ts[3 * i].call == Script1 && ts[3 * i + 1].call == Script2 && ts[3 * i + 2].call == Script3
        && ts[3 * i].inputs == [] && ts[3 * i].outputs == [OutFor(dataRoot, "out_1", date)]
        && ts[3 * i + 1].inputs == ts[3 * i].outputs && ts[3 * i + 1].outputs == [OutFor(dataRoot, "out_2", date)]
        && ts[3 * i + 2].inputs == ts[3 * i + 1].outputs && ts[3 * i + 2].outputs == [OutFor(dataRoot, "out_3", date)]
        && ts[3 * i].parameters == [requestFile, date, DateText(ws[i].last)]
        && ts[3 * i + 1].parameters == [requestFile] && ts[3 * i + 2].parameters == [requestFile]
  {
    var ws := Windows(start, stop, step);
    var ts := IterativeTasks(dataRoot, requestFile, ws);
    WindowCount(start, stop, step);
    IterativeTasksAt(dataRoot, requestFile, ws);
    forall i | 0 <= i < |ws|
      ensures ts[3 * i] == WindowTasks(dataRoot, requestFile, ws[i])[0]
      ensures ts[3 * i + 1] == WindowTasks(dataRoot, requestFile, ws[i])[1]
      ensures ts[3 * i + 2] == WindowTasks(dataRoot, requestFile, ws[i])[2]
    {
      assert 3 * i + 0 == 3 * i;
    }
  }

  lemma TasksAdvance(head: seq<Task>, dataRoot: string, requestFile: string, done: seq<Window>, w: Window)
    ensures var wt := WindowTasks(dataRoot, requestFile, w);
      head + IterativeTasks(dataRoot, requestFile, done) + [wt[0]] + [wt[1]] + [wt[2]]
        == head + IterativeTasks(dataRoot, requestFile, done + [w])
  {
    var wt := WindowTasks(dataRoot, requestFile, w);
    assert (done + [w])[..|done|] == done;
    assert [wt[0]] + [wt[1]] + [wt[2]] == wt;
  }

  // ---------------------------------------------------------------------------
  // Reading a processor's output
  // ---------------------------------------------------------------------------

  const ProgressTag := "progress="

  /** A `progress=` line; an `output=` line is never one. */
  predicate IsProgressLine(line: string) {
    !IsOutputLine(line) && StartsWith(line, ProgressTag)
  }

  /** The progress text a `progress=` line carries, stripped. */
  function ProgressText(line: string): string
    requires IsProgressLine(line)
  {
    Strip(line[9..])
  }

  /** What reading the output of one command changes: the paths, and the progress text of each command. */
  datatype Reading = Reading(paths: seq<string>, progress: map<string, string>)

  /** One line of processor output. */
  function ReadLine(r: Reading, command: string, line: string): Reading {
    if IsOutputLine(line) then r.(paths := r.paths + [OutputPath(line)])
    else if IsProgressLine(line) then r.(progress := r.progress[command := ProgressText(line)])
    else r
  }

  /** The lines in order. */
  function ReadLines(r: Reading, command: string, lines: seq<string>): Reading {
    if |lines| == 0 then r
    else ReadLine(ReadLines(r, command, lines[..|lines| - 1]), command, lines[|lines| - 1])
  }

  /** The last `progress=` line of a stream, if it has one. */
  function LastProgressLine(lines: seq<string>): (r: Option<string>)
    ensures r.Some? ==> IsProgressLine(r.value)
    ensures r.Some? <==> exists k :: 0 <= k < |lines| && IsProgressLine(lines[k])
  {
    if |lines| == 0 then None
    else if IsProgressLine(lines[|lines| - 1]) then Some(lines[|lines| - 1])
    else
      var r := LastProgressLine(lines[..|lines| - 1]);
      assert forall k :: 0 <= k < |lines| - 1 ==> lines[..|lines| - 1][k] == lines[k];
      r
  }

  /** Reading collects the paths of the `output=` lines, in stream order. */
  lemma {:induction false} ReadPaths(r: Reading, command: string, lines: seq<string>)
    ensures ReadLines(r, command, lines).paths == r.paths + OutputPaths(lines)
  {
    if |lines| > 0 {
      var init := lines[..|lines| - 1];
      ReadPaths(r, command, init);
      if IsOutputLine(lines[|lines| - 1]) {
        AppendAssoc(r.paths, OutputPaths(init), [OutputPath(lines[|lines| - 1])]);
      }
    }
  }

  /**
   * Reading leaves the progress of `command` at the text of the last
   * `progress=` line, and untouched when there is none; the progress of every
   * other command is untouched.
   */
  lemma {:induction false} ReadProgress(r: Reading, command: string, lines: seq<string>)
    ensures ReadLines(r, command, lines).progress ==
      match LastProgressLine(lines)
      case None => r.progress
      case Some(line) => r.progress[command := ProgressText(line)]
  {
    if |lines| > 0 {
      ReadProgress(r, command, lines[..|lines| - 1]);
    }
  }

  /** Reading one more line of the stream reads it after the ones before it. */
  lemma ReadOneMore(r: Reading, command: string, lines: seq<string>, i: int)
    requires 0 <= i < |lines|
    ensures lines[..i + 1] == lines[..i] + [lines[i]]
    ensures ReadLines(r, command, lines[..i + 1]) == ReadLine(ReadLines(r, command, lines[..i]), command, lines[i])
  {
    assert lines[..i + 1][..i] == lines[..i];
  }

  /** The text `int()` turns back into `n`. */
  lemma ProgressTextOfInt(n: int)
    ensures IsProgressLine(ProgressTag + IntToString(n))
    ensures ProgressText(ProgressTag + IntToString(n)) == IntToString(n)
  {
    var line := ProgressTag + IntToString(n);
    StartsWithConcat(ProgressTag, IntToString(n));
    NotStartsWithAt(line, "output=", 0);
    assert line[9..] == IntToString(n);
    IntTextHasNoSpace(n);
    StripUnchanged(IntToString(n));
  }

  lemma IntTextHasNoSpace(n: int)
    ensures |IntToString(n)| > 0
    ensures !IsSpace(IntToString(n)[0]) && !IsSpace(IntToString(n)[|IntToString(n)| - 1])
  {
    var t := IntToString(n);
    var m: nat := if n < 0 then -n else n;
    DigitsOfNat(m);
    assert AllDigits(NatToString(m));
  }

  class MultiplyAdaptedIterative8 {
    const dataRoot: string
    const requestFile: string
    /** The first and last day of the request, and the window length in days. */
    const start: int
    const stop: int
    const step: int
    /** The processor script the monitor runs calls through, if any. */
    const script: Option<string>
    /** How the monitor resolves a call to the path it runs. */
    const pathOfCall: string -> string
    /** The tasks handed to the monitor, in order. */
    var backlog: seq<Task>
    /** The commands that finished without a positive exit code. */
    var commands: set<string>
    /** The progress text of each command, as its last `progress=` line gave it. */
    var tasksProgress: map<string, string>

    constructor (dataRoot: string, requestFile: string, start: int, stop: int, step: int,
                 script: Option<string>, pathOfCall: string -> string)
      ensures this.dataRoot == dataRoot && this.requestFile == requestFile
      ensures this.start == start && this.stop == stop && this.step == step
      ensures this.script == script && this.pathOfCall == pathOfCall
      ensures backlog == [] && commands == {} && tasksProgress == map[]
    {
      this.dataRoot := dataRoot;
      this.requestFile := requestFile;
      this.start := start;
      this.stop := stop;
      this.step := step;
      this.script := script;
      this.pathOfCall := pathOfCall;
      backlog := [];
      commands := {};
      tasksProgress := map[];
    }

    /** The monitor's `execute`, as far as this model goes: the task joins the backlog. */
    method Execute(call: string, inputs: seq<string>, outputs: seq<string>, parameters: seq<string>)
      modifies this`backlog
      ensures backlog == old(backlog) + [Task(call, inputs, outputs, parameters)]
    {
      backlog := backlog + [Task(call, inputs, outputs, parameters)];
    }

    /** `create_workflow`: the three chained tasks of every window, window by window. */
    method CreateWorkflow()
      requires step >= 1 || start > stop
      modifies this`backlog
      ensures backlog == old(backlog) + IterativeTasks(dataRoot, requestFile, Windows(start, stop, step))
    {
      var out1 := dataRoot + "/" + "out_1";
      var out2 := dataRoot + "/" + "out_2";
      var out3 := dataRoot + "/" + "out_3";
      ghost var head := backlog;
      var cursor := start;
      ghost var done: seq<Window> := [];
      AppendAssoc([], [], Windows(start, stop, step));
      while cursor <= stop
        invariant step >= 1 || cursor > stop
        invariant Windows(start, stop, step) == done + Windows(cursor, stop, step)
        invariant backlog == head + IterativeTasks(dataRoot, requestFile, done)
        decreases stop - cursor
      {
        ghost var c0 := cursor;
        ghost var w := WindowAt(cursor, stop, step);
        var date := DateText(cursor);
        cursor := cursor + step;
        cursor := cursor - 1;
        if cursor > stop {
          cursor := stop;
        }
        var nextDate := DateText(cursor);
        cursor := cursor + 1;
        var out1ForDate := out1 + "/" + date;
        var out2ForDate := out2 + "/" + date;
        var out3ForDate := out3 + "/" + date;
        ghost var wt := WindowTasks(dataRoot, requestFile, w);
        assert wt[0] == Task(Script1, [], [out1ForDate], [requestFile, date, nextDate]);
        assert wt[1] == Task(Script2, [out1ForDate], [out2ForDate], [requestFile]);
        assert wt[2] == Task(Script3, [out2ForDate], [out3ForDate], [requestFile]);
        TasksAdvance(head, dataRoot, requestFile, done, w);
        Execute(Script1, [], [out1ForDate], [requestFile, date, nextDate]);
        Execute(Script2, [out1ForDate], [out2ForDate], [requestFile]);
        Execute(Script3, [out2ForDate], [out3ForDate], [requestFile]);
        WindowsAdvance(start, stop, step, done, c0, cursor);
        done := done + [w];
      }
      assert done + Windows(cursor, stop, step) == done;
    }

    /** `_observe_step`: records the command of a step unless its exit code is positive. */
    method ObserveStep(call: string, inputs: seq<string>, outputs: seq<string>, parameters: seq<string>, code: int)
      modifies this`commands
      ensures code > 0 ==> commands == old(commands)
      ensures code <= 0 ==> commands == old(commands) + {CommandLine(script, pathOfCall, call, inputs, outputs, parameters)}
    {
      if code > 0 {
        return;
      }
      var command := CommandLine(script, pathOfCall, call, inputs, outputs, parameters);
      commands := commands + {command};
    }

    /**
     * The loop of `_trace_processor_output`: every line in order, an
     * `output=` line appending its path and a `progress=` line recording its
     * text for `command`; the lines are the trace.
     */
    method ReadProcessorLines(outputPaths: PathList, lines: seq<string>, command: string)
      returns (trace: seq<string>)
      modifies outputPaths, this`tasksProgress
      ensures trace == lines
      ensures Reading(outputPaths.items, tasksProgress) ==
        ReadLines(Reading(old(outputPaths.items), old(tasksProgress)), command, lines)
    {
      ghost var r0 := Reading(outputPaths.items, tasksProgress);
      trace := [];
      var i := 0;
      while i < |lines|
        invariant 0 <= i <= |lines|
        invariant trace == lines[..i]
        invariant ReadLines(r0, command, lines[..i]) == Reading(outputPaths.items, tasksProgress)
      {
        var line := lines[i];
        ReadOneMore(r0, command, lines, i);
        if IsOutputLine(line) {
          outputPaths.Append(OutputPath(line));
        } else if IsProgressLine(line) {
          tasksProgress := tasksProgress[command := ProgressText(line)];
        }
        trace := trace + [line];
        i := i + 1;
      }
      assert lines[..i] == lines;
    }

    /**
     * `_trace_processor_output`: reads the lines `command` prints, in order,
     * and writes every one of them to the trace; an asynchronous command's
     * last non-empty line replaces the collected paths.
     */
    method TraceProcessorOutput(outputPaths: PathList, lines: seq<string>, command: string, async_: bool)
      returns (trace: seq<string>)
      modifies outputPaths, this`tasksProgress
      ensures trace == lines
      ensures var r := ReadLines(Reading(old(outputPaths.items), old(tasksProgress)), command, lines);
        && tasksProgress == r.progress
        && outputPaths.items == AsyncPaths(r.paths, lines, async_)
    {
      trace := ReadProcessorLines(outputPaths, lines, command);
      if async_ && |lines| > 0 && lines[|lines| - 1] != "" {
        outputPaths.Clear();
        outputPaths.Append(Strip(lines[|lines| - 1]));
      }
    }

    /**
     * `get_progress`: the recorded progress text of a command read as an
     * integer, 0 for a command with none; `None` when `int()` raises.
     */
    function GetProgress(command: string): (p: Option<int>)
      reads this
      ensures command !in tasksProgress ==> p == Some(0)
      ensures command in tasksProgress ==> p == ParseInt(tasksProgress[command])
    {
      if command in tasksProgress then ParseInt(tasksProgress[command]) else Some(0)
    }
  }

  /**
   * A command whose last `progress=` line carries the decimal text of `n`,
   * read with or without its newline, reports progress `n`, whatever it
   * reported before.
   */
  lemma ProgressRoundTrip(r: Reading, command: string, lines: seq<string>, n: int, end: string)
    requires end == "" || end == "\n"
    requires LastProgressLine(lines) == Some(ProgressTag + (IntToString(n) + end))
    ensures var p := ReadLines(r, command, lines).progress;
      command in p && ParseInt(p[command]) == Some(n)
  {
    var line := ProgressTag + (IntToString(n) + end);
    ReadProgress(r, command, lines);
    assert line[9..] == IntToString(n) + end;
    ParseIntLine(n, end);
    StripIdempotent(IntToString(n) + end);
    SameStripSameInt(Strip(IntToString(n) + end), IntToString(n) + end);
  }
}
