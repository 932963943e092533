/**
 * What the two monitor workflows share: the task records handed to the
 * monitor's `execute`, the slicing of a date range into step-sized windows,
 * the command line `_observe_step` records, and the `output=` convention of
 * processor output. Dates are day numbers; a date's text is its number in
 * decimal.
 */
module Workflow {
  import opened Wrappers
  import opened Text

  /** One `execute(call, inputs, outputs, parameters=...)` request to the monitor. */
  datatype Task = Task(call: string, inputs: seq<string>, outputs: seq<string>, parameters: seq<string>)

  /** The days `first` to `last`, both included. */
  datatype Window = Window(first: int, last: int)

  /** The text a date is written as in task parameters and output paths. */
  function DateText(day: int): string {
    IntToString(day)
  }

  /**
   * The window the cursor loop builds at `cursor`: it moves `step` days on,
   * one day back, and is clipped to `stop`.
   */
  function WindowAt(cursor: int, stop: int, step: int): (w: Window)
    ensures w.first == cursor
    ensures w.last == if cursor + step - 1 > stop then stop else cursor + step - 1
  {
    var last := cursor + step - 1;
    Window(cursor, if last > stop then stop else last)
  }

  /** The windows the cursor loop visits from `start` while the cursor is not past `stop`. */
  function Windows(start: int, stop: int, step: int): (ws: seq<Window>)
    requires step >= 1 || start > stop
    ensures |ws| == 0 <==> start > stop
    decreases stop - start
  {
    if start > stop then []
    else
      var w := WindowAt(start, stop, step);
      [w] + Windows(w.last + 1, stop, step)
  }

  /**
   * The windows run from `start` to `stop`: each lies within the range, is
   * non-empty and shorter than `step` days, and starts the day after the one
   * before it ends.
   */
  lemma {:induction false} WindowsShape(start: int, stop: int, step: int)
    requires step >= 1
    ensures var ws := Windows(start, stop, step);
      |ws| > 0 ==> ws[0].first == start && ws[|ws| - 1].last == stop
    ensures var ws := Windows(start, stop, step);
      forall i :: 0 <= i < |ws| ==> start <= ws[i].first <= ws[i].last <= stop && ws[i].last - ws[i].first < step
    ensures var ws := Windows(start, stop, step);
      forall i :: 1 <= i < |ws| ==> ws[i].first == ws[i - 1].last + 1
    decreases stop - start
  {
    var ws := Windows(start, stop, step);
    if start <= stop {
      var w := WindowAt(start, stop, step);
      var rest := Windows(w.last + 1, stop, step);
      WindowsShape(w.last + 1, stop, step);
      assert ws == [w] + rest;
      forall i | 1 <= i < |ws| ensures ws[i] == rest[i - 1] {
      }
      if |rest| > 0 {
        assert ws[|ws| - 1] == rest[|rest| - 1];
      }
    }
  }

  /**
   * The windows tile `[start, stop]`: every day of the range lies in exactly
   * one window, and no other day lies in any.
   */
  lemma WindowsCover(start: int, stop: int, step: int, day: int)
    requires step >= 1
    ensures var ws := Windows(start, stop, step);
      start <= day <= stop <==> exists i :: 0 <= i < |ws| && ws[i].first <= day <= ws[i].last
    ensures var ws := Windows(start, stop, step);
      forall i, j :: 0 <= i < j < |ws| ==> ws[i].last < ws[j].first
  {
    var ws := Windows(start, stop, step);
    WindowsShape(start, stop, step);
    WindowsOrdered(ws, start, stop, step);
    if start <= day <= stop {
      var i := FindWindow(ws, start, stop, step, day);
    }
  }

  /** One turn of the cursor loop: the window at the cursor is the next one, and the cursor moves past it. */
  lemma WindowsAdvance(start: int, stop: int, step: int, done: seq<Window>, cursor: int, next: int)
    requires step >= 1 && cursor <= stop && next == WindowAt(cursor, stop, step).last + 1
    requires Windows(start, stop, step) == done + Windows(cursor, stop, step)
    ensures Windows(start, stop, step) == (done + [WindowAt(cursor, stop, step)]) + Windows(next, stop, step)
  {
    var w := WindowAt(cursor, stop, step);
    assert Windows(cursor, stop, step) == [w] + Windows(next, stop, step);
    AppendAssoc(done, [w], Windows(next, stop, step));
  }

  lemma {:induction false} WindowsOrdered(ws: seq<Window>, start: int, stop: int, step: int)
    requires step >= 1 && ws == Windows(start, stop, step)
    ensures forall i, j :: 0 <= i < j < |ws| ==> ws[i].last < ws[j].first
    decreases stop - start
  {
    if start <= stop {
      var w := WindowAt(start, stop, step);
      var rest := Windows(w.last + 1, stop, step);
      WindowsOrdered(rest, w.last + 1, stop, step);
      WindowsShape(w.last + 1, stop, step);
      assert ws == [w] + rest;
      forall i, j | 0 <= i < j < |ws| ensures ws[i].last < ws[j].first {
        if i > 0 {
          assert ws[i] == rest[i - 1] && ws[j] == rest[j - 1];
        } else {
          assert ws[j] == rest[j - 1];
        }
      }
    }
  }

  /** The window a day of the range falls in. */
  lemma {:induction false} FindWindow(ws: seq<Window>, start: int, stop: int, step: int, day: int) returns (i: nat)
    requires step >= 1 && ws == Windows(start, stop, step) && start <= day <= stop
    ensures i < |ws| && ws[i].first <= day <= ws[i].last
    decreases stop - start
  {
    var w := WindowAt(start, stop, step);
    if day <= w.last {
      i := 0;
    } else {
      var rest := Windows(w.last + 1, stop, step);
      assert ws == [w] + rest;
      var k := FindWindow(rest, w.last + 1, stop, step, day);
      i := k + 1;
      assert ws[i] == rest[k];
    }
  }

  /** Each window but the last is `step` days long, so `step` windows less one fall short of the range. */
  lemma {:induction false} WindowCountBounds(start: int, stop: int, step: int)
    requires step >= 1 && start <= stop
    ensures var n := |Windows(start, stop, step)|; (n - 1) * step <= stop - start < n * step
    decreases stop - start
  {
    if start + step <= stop {
      WindowCountBounds(start + step, stop, step);
      CountStep(Windows(start, stop, step), start, stop, step);
      BoundsStep(|Windows(start + step, stop, step)|, step, stop - start);
    } else {
      OneWindow(Windows(start, stop, step), start, stop, step);
    }
  }

  lemma BoundsStep(m: int, step: int, a: int)
    requires (m - 1) * step <= a - step < m * step
    ensures (m + 1 - 1) * step <= a < (m + 1) * step
  {
    assert (m + 1) * step == m * step + step;
    assert (m + 1 - 1) * step == (m - 1) * step + step;
  }

  /** A window that reaches `stop` is the last. */
  lemma OneWindow(ws: seq<Window>, start: int, stop: int, step: int)
    requires step >= 1 && start <= stop < start + step && ws == Windows(start, stop, step)
    ensures |ws| == 1
  {
  }

  /** The loop runs ceil((stop - start + 1) / step) times, and not at all when `start > stop`. */
  lemma WindowCount(start: int, stop: int, step: int)
    requires step >= 1
    ensures start > stop ==> |Windows(start, stop, step)| == 0
    ensures start <= stop ==> |Windows(start, stop, step)| == (stop - start + step) / step
  {
    if start <= stop {
      WindowCountBounds(start, stop, step);
      var n := |Windows(start, stop, step)|;
      DivUnique(stop - start + step, step, n, stop - start + step - n * step);
    }
  }

  /** A window that does not reach `stop` is followed by the windows from `start + step`. */
  lemma CountStep(ws: seq<Window>, start: int, stop: int, step: int)
    requires step >= 1 && start + step <= stop && ws == Windows(start, stop, step)
    ensures |ws| == 1 + |Windows(start + step, stop, step)|
  {
  }

  lemma MulAtLeast(k: int, d: int)
    requires k >= 1 && d >= 1
    ensures k * d >= d
  {
  }

  /** Euclidean division has one quotient and remainder. */
  lemma DivUnique(n: int, d: int, q: int, r: int)
    requires d >= 1 && 0 <= r < d && n == q * d + r
    ensures n / d == q
  {
    var q0 := n / d;
    var r0 := n % d;
    assert n == q0 * d + r0;
    if q > q0 {
      MulAtLeast(q - q0, d);
    } else if q < q0 {
      MulAtLeast(q0 - q, d);
    }
  }

  lemma DivShift(a: int, d: int)
    requires d >= 1 && a >= 0
    ensures (a + d) / d == a / d + 1
  {
    var q := a / d;
    var r := a % d;
    assert a == q * d + r;
    assert a + d == (q + 1) * d + r;
    DivUnique(a + d, d, q + 1, r);
  }

  /** The ten days of June 2018 from the first, four days a step: [01,04], [05,08], [09,10]. */
  lemma TenDaysInFours()
    ensures Windows(1, 10, 4) == [Window(1, 4), Window(5, 8), Window(9, 10)]
  {
    assert Windows(9, 10, 4) == [Window(9, 10)] + Windows(11, 10, 4);
    assert Windows(5, 10, 4) == [Window(5, 8)] + Windows(9, 10, 4);
    assert Windows(1, 10, 4) == [Window(1, 4)] + Windows(5, 10, 4);
  }

  /** `_observe_step` with a processor script: whether `self._script` is set and non-empty. */
  predicate HasScript(script: Option<string>) {
    script.Some? && script.value != ""
  }

  /**
   * The command `_observe_step` records: the path of the script and the call
   * when a script is set, the path of the call otherwise, then the joined
   * parameters, inputs and outputs, separated by single spaces.
   */
  function CommandLine(script: Option<string>, pathOfCall: string -> string, call: string,
                       inputs: seq<string>, outputs: seq<string>, parameters: seq<string>): string
  {
    if HasScript(script) then
      pathOfCall(script.value) + " " + call + " " + Join(" ", parameters) + " " + Join(" ", inputs) + " " + Join(" ", outputs)
    else
      pathOfCall(call) + " " + Join(" ", parameters) + " " + Join(" ", inputs) + " " + Join(" ", outputs)
  }

  lemma {:induction false} JoinAppend(a: seq<string>, b: seq<string>)
    requires |a| > 0 && |b| > 0
    ensures Join(" ", a + b) == Join(" ", a) + " " + Join(" ", b)
    decreases |a|
  {
    if |a| == 1 {
      assert (a + b)[1..] == b;
      assert (a + b)[0] == a[0];
    } else {
      JoinAppend(a[1..], b);
      assert (a + b)[1..] == a[1..] + b;
      assert (a + b)[0] == a[0];
    }
  }

  /**
   * The space-separated fields a `' '.join` of a list occupies in the
   * command: the items, or one empty field for an empty list.
   */
  function Fields(xs: seq<string>): (fs: seq<string>)
    ensures |fs| > 0
  {
    if |xs| == 0 then [""] else xs
  }

  /** The words the command starts with: the script's path and the call, or the call's path alone. */
  function CommandHead(script: Option<string>, pathOfCall: string -> string, call: string): seq<string> {
    if HasScript(script) then [pathOfCall(script.value), call] else [pathOfCall(call)]
  }

  /** The recorded command is its head and the fields of the three lists, joined by single spaces. */
  lemma CommandLineJoins(script: Option<string>, pathOfCall: string -> string, call: string,
                         inputs: seq<string>, outputs: seq<string>, parameters: seq<string>)
    ensures CommandLine(script, pathOfCall, call, inputs, outputs, parameters)
         == Join(" ", CommandHead(script, pathOfCall, call) + Fields(parameters) + Fields(inputs) + Fields(outputs))
  {
    var head := CommandHead(script, pathOfCall, call);
    if HasScript(script) {
      assert head[1..] == [call];
      assert Join(" ", head) == pathOfCall(script.value) + " " + call;
    } else {
      assert Join(" ", head) == pathOfCall(call);
    }
    assert Join(" ", Fields(parameters)) == Join(" ", parameters);
    assert Join(" ", Fields(inputs)) == Join(" ", inputs);
    assert Join(" ", Fields(outputs)) == Join(" ", outputs);
    JoinAppend(head, Fields(parameters));
    JoinAppend(head + Fields(parameters), Fields(inputs));
    JoinAppend(head + Fields(parameters) + Fields(inputs), Fields(outputs));
  }

  /** The fields of a list of space-free words are space-free. */
  lemma FieldsSpaceFree(xs: seq<string>)
    requires forall i :: 0 <= i < |xs| ==> ' ' !in xs[i]
    ensures forall i :: 0 <= i < |Fields(xs)| ==> ' ' !in Fields(xs)[i]
  {
  }

  /** Words that are each space-free stay so when two lists of them are joined. */
  lemma ConcatSpaceFree(a: seq<string>, b: seq<string>)
    requires forall i :: 0 <= i < |a| ==> ' ' !in a[i]
    requires forall i :: 0 <= i < |b| ==> ' ' !in b[i]
    ensures forall i :: 0 <= i < |a + b| ==> ' ' !in (a + b)[i]
  {
    forall i | 0 <= i < |a + b| ensures ' ' !in (a + b)[i] {
      if i >= |a| {
        assert (a + b)[i] == b[i - |a|];
      }
    }
  }

  /**
   * When every word is free of spaces, the recorded command splits back on
   * spaces into its head, then the parameters, the inputs and the outputs,
   * in that order, where an empty list leaves one empty field.
   */
  lemma CommandLineWords(script: Option<string>, pathOfCall: string -> string, call: string,
                         inputs: seq<string>, outputs: seq<string>, parameters: seq<string>)
    requires HasScript(script) ==> ' ' !in pathOfCall(script.value) && ' ' !in call
    requires !HasScript(script) ==> ' ' !in pathOfCall(call)
    requires forall i :: 0 <= i < |parameters| ==> ' ' !in parameters[i]
    requires forall i :: 0 <= i < |inputs| ==> ' ' !in inputs[i]
    requires forall i :: 0 <= i < |outputs| ==> ' ' !in outputs[i]
    ensures Split(CommandLine(script, pathOfCall, call, inputs, outputs, parameters), ' ')
         == CommandHead(script, pathOfCall, call) + Fields(parameters) + Fields(inputs) + Fields(outputs)
  {
    var head := CommandHead(script, pathOfCall, call);
    CommandLineJoins(script, pathOfCall, call, inputs, outputs, parameters);
    FieldsSpaceFree(parameters);
    FieldsSpaceFree(inputs);
    FieldsSpaceFree(outputs);
    ConcatSpaceFree(head, Fields(parameters));
    ConcatSpaceFree(head + Fields(parameters), Fields(inputs));
    ConcatSpaceFree(head + Fields(parameters) + Fields(inputs), Fields(outputs));
    assert " " == [' '];
    SplitJoin(head + Fields(parameters) + Fields(inputs) + Fields(outputs), ' ');
  }

  /** A line of processor output that names an output path. */
  predicate IsOutputLine(line: string) {
    StartsWith(line, "output=")
  }

  /** The path an `output=` line names: the rest of the line, stripped. */
  function OutputPath(line: string): string
    requires IsOutputLine(line)
  {
    Strip(line[7..])
  }

  /** The paths the `output=` lines of a stream name, in stream order. */
  function OutputPaths(lines: seq<string>): (paths: seq<string>)
    ensures |paths| <= |lines|
  {
    if |lines| == 0 then []
    else
      var init := OutputPaths(lines[..|lines| - 1]);
      var last := lines[|lines| - 1];
      if IsOutputLine(last) then init + [OutputPath(last)] else init
  }

  /** A stream with no `output=` line names no path. */
  lemma {:induction false} NoOutputLines(lines: seq<string>)
    requires forall i :: 0 <= i < |lines| ==> !IsOutputLine(lines[i])
    ensures OutputPaths(lines) == []
  {
    if |lines| > 0 {
      NoOutputLines(lines[..|lines| - 1]);
    }
  }

  /**
   * The paths after the stream is read: an async task whose last line is
   * non-empty has that line, stripped, as its only path (the job handle);
   * otherwise the collected paths stay.
   */
  function AsyncPaths(collected: seq<string>, lines: seq<string>, async_: bool): seq<string> {
    if async_ && |lines| > 0 && lines[|lines| - 1] != "" then [Strip(lines[|lines| - 1])] else collected
  }

  /** The list `output_paths` the monitor passes in and the hook appends to in place. */
  class PathList {
    var items: seq<string>

    constructor(items: seq<string>)
      ensures this.items == items
    {
      this.items := items;
    }

    method Append(path: string)
      modifies this
      ensures items == old(items) + [path]
    {
      items := items + [path];
    }

    /** `output_paths[:] = []`. */
    method Clear()
      modifies this
      ensures items == []
    {
      items := [];
    }
  }
}
