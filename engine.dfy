/**
 * `ADBEngine` (core/engine.py): the persistent `adb -s <device> shell`
 * session, the FIFO queue of shell command lines that feeds it, the worker
 * that writes those lines to the shell's standard input, and the pure helpers
 * beside it (command building, the `ip route` scrape, the wireless connect
 * test and the remote path of a pushed file).
 *
 * The child process is a value: the device it serves, whether it is still
 * running (what `poll() is None` reports) and the lines written to its
 * standard input so far. The output of one-shot `adb` runs is a parameter,
 * `None` standing for a run that raised.
 */
module Engine {
  import opened Wrappers
  import opened Text
  import ShellQuote

  datatype Process = Process(device: string, alive: bool, stdin: seq<string>)

  /** An entry of the command queue; `Sentinel` is the `None` that ends the worker loop. */
  datatype Item = Line(cmd: string) | Sentinel

  /** What one pass of the worker loop did. */
  datatype Step =
    | Exited                   // `while self.running` found the engine stopped
    | Blocked                  // `queue.get()` has nothing to return yet
    | EndOfStream              // popped the `None` sentinel: `break`
    | Delivered(line: string)  // wrote `cmd + "\n"` to the shell
    | Dropped(cmd: string)     // the shell was gone: the command is lost

  /** The engine's fields, as one value. */
  datatype EngineState = EngineState(
    running: bool,
    process: Option<Process>,
    queue: seq<Item>,
    statusReports: seq<bool>,  // arguments of the `update_status` calls, oldest first
    terminated: seq<Process>   // processes `stop` terminated, oldest first
  )

  predicate Healthy(p: Option<Process>) {
    p.Some? && p.value.alive
  }

  // ---------------------------------------------------------------------
  // Command lines sent through the queue.

  /** `send_text`: `"input text " + shlex.quote(text)`; the device shell reads back exactly `text`. */
  function TextCommand(text: string): (cmd: string)
    ensures ShellQuote.SplitWords(cmd) == Some(["input", "text", text])
  {
    var cmd := "input text " + ShellQuote.Quote(text);
    var words := ["input", "text"];
    assert ShellQuote.AllSafe("input") && ShellQuote.AllSafe("text");
    assert ShellQuote.JoinBlank(words) == "input text " by {
      assert words[1..][1..] == [];
      assert ShellQuote.JoinBlank(words[1..]) == "text ";
    }
    ShellQuote.CommandReadsBack(words, text);
    assert words + [text] == ["input", "text", text];
    cmd
  }

  /** The line a special key sends: `input keyevent <code>`. */
  function KeyeventCommand(code: nat): (cmd: string)
    ensures ShellQuote.SplitWords(cmd) == Some(["input", "keyevent", NatToString(code)])
  {
    var digits := NatToString(code);
    assert ShellQuote.AllSafe(digits);
    var words := ["input", "keyevent"];
    assert ShellQuote.AllSafe("input") && ShellQuote.AllSafe("keyevent");
    assert ShellQuote.JoinBlank(words) == "input keyevent " by {
      assert words[1..][1..] == [];
      assert ShellQuote.JoinBlank(words[1..]) == "keyevent ";
    }
    ShellQuote.CommandReadsBack(words, digits);
    assert words + [digits] == ["input", "keyevent", digits];
    "input keyevent " + digits
  }

  /**
   * `launch_app`: the monkey launch line. The package name is not quoted, so
   * the shell reads it back as one word only when it is a non-empty run of
   * characters that need no quoting.
   */
  function LaunchCommand(package: string): (cmd: string)
    ensures package != [] && ShellQuote.AllSafe(package) ==>
      ShellQuote.SplitWords(cmd) == Some(LaunchWords(package) + ["1"])
  {
    var cmd := "monkey -p " + package + " -c " + LauncherCategory + " 1";
    if package != [] && ShellQuote.AllSafe(package) then
      LaunchLineWords(package);
      cmd
    else
      cmd
  }

  /** The intent category `launch_app` asks the monkey tool for. */
  const LauncherCategory := "android.intent.category.LAUNCHER"

  /** The words of a launch line before its event count. */
  function LaunchWords(package: string): seq<string> {
    ["monkey", "-p", package, "-c", LauncherCategory]
  }

  lemma {:induction false} LaunchLineWords(package: string)
    requires package != [] && ShellQuote.AllSafe(package)
    ensures ShellQuote.SplitWords("monkey -p " + package + " -c " + LauncherCategory + " 1")
      == Some(LaunchWords(package) + ["1"])
  {
    var words := LaunchWords(package);
    assert ShellQuote.AllSafe("monkey") && ShellQuote.AllSafe("-p") && ShellQuote.AllSafe("-c");
    assert ShellQuote.AllSafe(LauncherCategory);
    LaunchLineText(package);
    assert ShellQuote.Quote("1") == "1" by {
      assert ShellQuote.AllSafe("1");
    }
    ShellQuote.CommandReadsBack(words, "1");
  }

  lemma {:induction false} LaunchLineText(package: string)
    ensures ShellQuote.JoinBlank(LaunchWords(package)) + "1"
      == "monkey -p " + package + " -c " + LauncherCategory + " 1"
  {
    JoinFive("monkey", "-p", package, "-c", LauncherCategory);
    Assemble("monkey", "-p", package, "-c", LauncherCategory, "1", "monkey -p ", " -c ", " 1");
  }

  lemma {:induction false} Assemble(a: string, b: string, c: string, d: string, e: string, t: string,
                                    x: string, y: string, z: string)
    requires x == a + " " + b + " " && y == " " + d + " " && z == " " + t
    ensures a + " " + b + " " + c + " " + d + " " + e + " " + t == x + c + y + e + z
  {
  }

  lemma {:induction false} JoinFive(a: string, b: string, c: string, d: string, e: string)
    ensures ShellQuote.JoinBlank([a, b, c, d, e]) == a + " " + b + " " + c + " " + d + " " + e + " "
  {
    var ws := [a, b, c, d, e];
    assert ws[1..] == [b, c, d, e] && ws[1..][1..] == [c, d, e];
    assert ws[1..][1..][1..] == [d, e] && ws[1..][1..][1..][1..] == [e];
    assert ws[1..][1..][1..][1..][1..] == [];
    assert [e][1..] == [] && ShellQuote.JoinBlank([]) == "";
    var j4 := ShellQuote.JoinBlank([e]);
    assert j4 == e + " " + "";
    assert e + " " + "" == e + " ";
    var j3 := ShellQuote.JoinBlank([d, e]);
    assert j3 == d + " " + j4;
    var j2 := ShellQuote.JoinBlank([c, d, e]);
    assert j2 == c + " " + j3;
    var j1 := ShellQuote.JoinBlank([b, c, d, e]);
    assert j1 == b + " " + j2;
    assert ShellQuote.JoinBlank(ws) == a + " " + j1;
  }

  // ---------------------------------------------------------------------
  // The worker loop, as a specification.

  /** The commands in front of the first sentinel, in queue order. */
  function LinesBeforeSentinel(q: seq<Item>): (cmds: seq<string>)
    ensures |cmds| <= |q|
    ensures forall i :: 0 <= i < |cmds| ==> q[i] == Line(cmds[i])
    ensures |cmds| < |q| ==> q[|cmds|] == Sentinel
  {
    if q == [] || q[0] == Sentinel then [] else [q[0].cmd] + LinesBeforeSentinel(q[1..])
  }

  /** Each command as written to the shell: followed by a newline. */
  function Framed(cmds: seq<string>): (lines: seq<string>)
    ensures |lines| == |cmds|
    ensures forall i :: 0 <= i < |cmds| ==> lines[i] == cmds[i] + "\n"
  {
    if cmds == [] then [] else [cmds[0] + "\n"] + Framed(cmds[1..])
  }

  /** One pass of `_worker`'s loop: check `running`, pop, then write or drop. */
  function WorkerStep(st: EngineState): (r: (EngineState, Step))
    ensures r.0.terminated == st.terminated
    ensures st.running && st.queue != [] ==> r.0.queue == st.queue[1..]
    ensures !st.running || st.queue == [] ==> r.0 == st
  {
    if !st.running then (st, Exited)
    else if st.queue == [] then (st, Blocked)
    else
      var item, rest := st.queue[0], st.queue[1..];
      match item
      case Sentinel => (st.(queue := rest), EndOfStream)
      case Line(cmd) =>
        if Healthy(st.process) then
          var p := st.process.value;
          (st.(queue := rest, process := Some(p.(stdin := p.stdin + [cmd + "\n"]))), Delivered(cmd + "\n"))
        else
          (st.(queue := rest, running := false, statusReports := st.statusReports + [false]), Dropped(cmd))
  }

  /**
   * The worker run until it blocks on an empty queue, pops the sentinel or
   * finds the engine stopped; `last` is the step before.
   */
  function Drain(st: EngineState, last: Step): (r: (EngineState, Step))
    decreases |st.queue|
  {
    if !st.running then (st, last)
    else
      var (next, step) := WorkerStep(st);
      if step == Blocked || step == EndOfStream then (next, step) else Drain(next, step)
  }

  /**
   * With a live shell, the worker writes every command in front of the first
   * sentinel, in the order they were queued, each followed by a newline, and
   * nothing else; the queue keeps what follows the sentinel.
   */
  lemma {:induction false} DrainDeliversInOrder(st: EngineState, last: Step)
    requires st.running && Healthy(st.process)
    ensures var r := Drain(st, last);
      var cmds := LinesBeforeSentinel(st.queue);
      && r.0.running && r.0.statusReports == st.statusReports && r.0.terminated == st.terminated
      && r.0.process == Some(st.process.value.(stdin := st.process.value.stdin + Framed(cmds)))
      && (if |cmds| < |st.queue|
          then r.1 == EndOfStream && r.0.queue == st.queue[|cmds| + 1..]
          else r.1 == Blocked && r.0.queue == [])
    decreases |st.queue|
  {
    var cmds := LinesBeforeSentinel(st.queue);
    var p := st.process.value;
    if st.queue == [] {
      assert cmds == [] && p.stdin + Framed(cmds) == p.stdin;
    } else if st.queue[0] == Sentinel {
      assert cmds == [] && p.stdin + Framed(cmds) == p.stdin;
    } else {
      var cmd := st.queue[0].cmd;
      var line := cmd + "\n";
      var p1 := p.(stdin := p.stdin + [line]);
      var next := st.(queue := st.queue[1..], process := Some(p1));
      assert WorkerStep(st) == (next, Delivered(line));
      assert Drain(st, last) == Drain(next, Delivered(line));
      DrainDeliversInOrder(next, Delivered(line));
      var rest := LinesBeforeSentinel(next.queue);
      assert cmds == [cmd] + rest;
      assert cmds[0] == cmd && cmds[1..] == rest;
      FramedCons(cmds);
      var framedRest := Framed(rest);
      assert Framed(cmds) == [line] + framedRest;
      AppendAssoc(p.stdin, [line], framedRest);
      if |rest| < |next.queue| {
        assert next.queue[|rest| + 1..] == st.queue[|cmds| + 1..];
      }
    }
  }

  lemma AppendAssoc<T>(a: seq<T>, b: seq<T>, c: seq<T>)
    ensures a + (b + c) == (a + b) + c
  {
  }

  lemma FramedCons(cmds: seq<string>)
    requires cmds != []
    ensures Framed(cmds) == [cmds[0] + "\n"] + Framed(cmds[1..])
  {
  }

  /**
   * With the shell gone, the worker's first pop decides: a command is
   * dropped, the engine is marked stopped and `status(False)` is reported
   * once; a sentinel ends the loop; an empty queue blocks it.
   */
  lemma DrainDeadShell(st: EngineState, last: Step)
    requires st.running && !Healthy(st.process)
    ensures var (end, step) := Drain(st, last);
      && end.process == st.process && end.terminated == st.terminated
      && (if st.queue == [] then step == Blocked && end == st
          else if st.queue[0] == Sentinel then step == EndOfStream && end == st.(queue := st.queue[1..])
          else step == Dropped(st.queue[0].cmd) && !end.running && end.queue == st.queue[1..]
               && end.statusReports == st.statusReports + [false])
  {
  }

  /** A stopped engine's worker does nothing. */
  lemma DrainStopped(st: EngineState, last: Step)
    requires !st.running
    ensures Drain(st, last) == (st, last)
  {
  }

  // ---------------------------------------------------------------------
  // The engine object.

  /**
   * The attribute names an `ADBEngine` has: the fields its constructor sets
   * and the methods the class defines. Reading any other name raises
   * `AttributeError`.
   */
  const Attributes: set<string> := {
    "process", "queue", "running", "log", "update_status", "NO_WINDOW",
    "connect", "enable_wireless", "connect_wireless_ip", "get_device_ip",
    "push_file", "_worker", "send_cmd", "send_text", "launch_app", "stop",
    "check_health"}

  /** The engine the window is written against: it also offers the pairing call and the USB wizard. */
  const IntendedAttributes: set<string> := Attributes + {"pair_device", "setup_wireless_auto"}

  class ADBEngine {
    var running: bool
    var process: Option<Process>
    var queue: seq<Item>
    var statusReports: seq<bool>
    var terminated: seq<Process>

    /** A running engine always holds a shell process (which may have died since). */
    ghost predicate Valid()
      reads this
    {
      running ==> process.Some?
    }

    function State(): EngineState
      reads this
    {
      EngineState(running, process, queue, statusReports, terminated)
    }

    /** `__init__`: no process, an empty queue, not running. */
    constructor ()
      ensures Valid()
      ensures State() == EngineState(false, None, [], [], [])
    {
      running := false;
      process := None;
      queue := [];
      statusReports := [];
      terminated := [];
    }

    /** `check_health`: a process handle exists and has not exited. */
    function CheckHealth(): (healthy: bool)
      reads this
      ensures healthy <==> process.Some? && process.value.alive
    {
      Healthy(process)
    }

    /**
     * `stop`: idempotent. Whatever the state before, the engine ends not
     * running and without a process, a held process is terminated, and
     * `status(False)` is reported on every call. The queue is kept.
     */
    method Stop()
      modifies this
      ensures Valid()
      ensures !running && process == None && !CheckHealth()
      ensures statusReports == old(statusReports) + [false]
      ensures terminated == old(terminated) + (if old(process).Some? then [old(process).value] else [])
      ensures queue == old(queue)
    {
      running := false;
      statusReports := statusReports + [false];
      if process.Some? {
        terminated := terminated + [process.value];
        process := None;
      }
    }

    /**
     * `connect`: always stops first, so the previous process is terminated
     * before a new one starts and at most one is held. `launched` says
     * whether `Popen` started the shell: then the engine runs with a fresh
     * shell for `device`, reports `status(True)` and returns true; otherwise
     * it reports `status(False)` and returns false.
     */
    method Connect(device: string, launched: bool) returns (ok: bool)
      modifies this
      ensures Valid()
      ensures ok == launched
      ensures terminated == old(terminated) + (if old(process).Some? then [old(process).value] else [])
      ensures ok ==> running && process == Some(Process(device, true, [])) && CheckHealth()
      ensures !ok ==> !running && process == None
      ensures statusReports == old(statusReports) + [false, ok]
      ensures queue == old(queue)
    {
      Stop();
      if launched {
        process := Some(Process(device, true, []));
        running := true;
        statusReports := statusReports + [true];
        ok := true;
      } else {
        statusReports := statusReports + [false];
        ok := false;
      }
    }

    /** The shell process exits on its own (device unplugged, adb killed): an event of the environment. */
    method ProcessExits()
      modifies this
      ensures process == (if old(process).Some? then Some(old(process).value.(alive := false)) else None)
      ensures running == old(running) && queue == old(queue)
      ensures statusReports == old(statusReports) && terminated == old(terminated)
    {
      if process.Some? {
        process := Some(process.value.(alive := false));
      }
    }

    /** `send_cmd`: queues `cmd` at the tail exactly when the engine is running. */
    method SendCmd(cmd: string)
      modifies this`queue
      ensures queue == if running then old(queue) + [Line(cmd)] else old(queue)
    {
      if running {
        queue := queue + [Line(cmd)];
      }
    }

    /** `send_text`: queues one `input text` line for `text` when running; otherwise nothing changes. */
    method SendText(text: string)
      modifies this`queue
      ensures queue == if running then old(queue) + [Line(TextCommand(text))] else old(queue)
    {
      if !running {
        return;
      }
      var safeText := ShellQuote.Quote(text);
      queue := queue + [Line("input text " + safeText)];
    }

    /** `launch_app`: queues the monkey launch line when running. */
    method LaunchApp(package: string)
      modifies this`queue
      ensures queue == if running then old(queue) + [Line(LaunchCommand(package))] else old(queue)
    {
      if running {
        queue := queue + [Line(LaunchCommand(package))];
      }
    }

    /** One pass of `_worker`'s `while self.running` loop. */
    method DeliverOne() returns (step: Step)
      requires Valid()
      modifies this
      ensures Valid()
      ensures (State(), step) == WorkerStep(old(State()))
    {
      if !running {
        return Exited;
      }
      if queue == [] {
        return Blocked;
      }
      var item := queue[0];
      queue := queue[1..];
      if item == Sentinel {
        return EndOfStream;
      }
      var cmd := item.cmd;
      if process.Some? && process.value.alive {
        process := Some(process.value.(stdin := process.value.stdin + [cmd + "\n"]));
        step := Delivered(cmd + "\n");
      } else {
        running := false;
        statusReports := statusReports + [false];
        step := Dropped(cmd);
      }
    }

    /** `_worker`, run until it blocks on an empty queue, pops the sentinel or finds the engine stopped. */
    method RunWorker() returns (last: Step)
      requires Valid()
      modifies this
      ensures Valid()
      ensures (State(), last) == Drain(old(State()), Exited)
    {
      last := Exited;
      var done := false;
      while running && !done
        invariant Valid()
        invariant !done ==> Drain(State(), last) == Drain(old(State()), Exited)
        invariant done ==> (State(), last) == Drain(old(State()), Exited)
        decreases |queue|, !done
      {
        ghost var before := State();
        last := DeliverOne();
        if last == Blocked || last == EndOfStream {
          done := true;
        }
      }
    }
  }

  // ---------------------------------------------------------------------
  // One-shot adb runs and the remote path.

  predicate IsOctetText(g: string) {
    1 <= |g| <= 3 && forall i :: 0 <= i < |g| ==> IsDigit(g[i])
  }

  /** The first run of decimal digits starting at `i`. */
  function DigitRun(s: string, i: nat): (n: nat)
    requires i <= |s|
    ensures i + n <= |s|
    ensures forall k :: i <= k < i + n ==> IsDigit(s[k])
    ensures i + n == |s| || !IsDigit(s[i + n])
    decreases |s| - i
  {
    if i < |s| && IsDigit(s[i]) then 1 + DigitRun(s, i + 1) else 0
  }

  /** A run of digits that stops at `m` is exactly `m - i` long. */
  lemma DigitRunUpTo(s: string, i: nat, m: nat)
    requires i <= m <= |s|
    requires forall t :: i <= t < m ==> IsDigit(s[t])
    requires m == |s| || !IsDigit(s[m])
    ensures DigitRun(s, i) == m - i
  {
  }

  /** When one to three digits at `i` are followed by a dot, the run of digits stops at the dot. */
  lemma DigitRunStopsAtDot(s: string, i: nat)
    requires i <= |s|
    ensures forall m {:trigger IsOctetText(s[i..m])} :: i < m < |s| && s[m] == '.' && IsOctetText(s[i..m]) ==> DigitRun(s, i) == m - i
  {
    forall m | i < m < |s| && s[m] == '.' && IsOctetText(s[i..m])
      ensures DigitRun(s, i) == m - i
    {
      assert forall t :: i <= t < m ==> s[t] == s[i..m][t - i];
      DigitRunUpTo(s, i, m);
    }
  }

  /**
   * `\d{1,3}\.` at `i`: the index past the dot. Backtracking cannot help
   * here: fewer digits than the whole run leave a digit where the dot must be.
   * It matches exactly when some one to three digits at `i` are followed by a dot.
   */
  function DottedGroupEnd(s: string, i: nat): (r: Option<nat>)
    requires i <= |s|
    ensures r.Some? ==> i + 2 <= r.value <= |s| && s[r.value - 1] == '.' && IsOctetText(s[i..r.value - 1])
    ensures forall m {:trigger IsOctetText(s[i..m])} :: i < m < |s| && s[m] == '.' && IsOctetText(s[i..m]) ==> r == Some(m + 1)
  {
    DigitRunStopsAtDot(s, i);
    var n := DigitRun(s, i);
    if 1 <= n <= 3 && i + n < |s| && s[i + n] == '.' then Some(i + n + 1) else None
  }

  /**
   * `\d{1,3}` at `i`, greedy: the index past the longest one to three
   * digits there; no match when `i` holds no digit.
   */
  function LastGroupEnd(s: string, i: nat): (r: Option<nat>)
    requires i <= |s|
    ensures r.None? <==> i == |s| || !IsDigit(s[i])
    ensures r.Some? ==> i < r.value <= |s| && IsOctetText(s[i..r.value])
    ensures r.Some? ==> r.value - i == 3 || r.value == |s| || !IsDigit(s[r.value])
  {
    var n := DigitRun(s, i);
    if n == 0 then None else Some(i + if n < 3 then n else 3)
  }

  /** `\d{1,3}\.\d{1,3}\.\d{1,3}\.\d{1,3}` at `i`: the index past the match. */
  function QuadEnd(s: string, i: nat): (e: Option<nat>)
    requires i <= |s|
    ensures e.Some? ==> i < e.value <= |s|
  {
    match DottedGroupEnd(s, i)
    case None => None
    case Some(j) =>
      match DottedGroupEnd(s, j)
      case None => None
      case Some(k) =>
        match DottedGroupEnd(s, k)
        case None => None
        case Some(l) => LastGroupEnd(s, l)
  }

  /** The pattern `src (\d{1,3}\.\d{1,3}\.\d{1,3}\.\d{1,3})` matches at `i`. */
  predicate SrcMatchAt(s: string, i: nat) {
    i + 4 <= |s| && s[i..i + 4] == "src " && QuadEnd(s, i + 4).Some?
  }

  /** `re.search`: the leftmost position from `from` on where the pattern matches. */
  function FirstSrcMatch(s: string, from: nat): (k: Option<nat>)
    requires from <= |s|
    ensures k.Some? ==> from <= k.value <= |s| && SrcMatchAt(s, k.value)
    ensures k.Some? ==> forall j :: from <= j < k.value ==> !SrcMatchAt(s, j)
    ensures k.None? ==> forall j :: from <= j <= |s| ==> !SrcMatchAt(s, j)
    decreases |s| - from
  {
    if SrcMatchAt(s, from) then Some(from)
    else if from == |s| then None
    else FirstSrcMatch(s, from + 1)
  }

  /** Four groups of one to three decimal digits, joined by dots. */
  predicate IsDottedQuad(ip: string) {
    var parts := SplitOn(ip, '.');
    |parts| == 4 && forall k :: 0 <= k < 4 ==> IsOctetText(parts[k])
  }

  /** The text a match of the quad pattern covers is a dotted quad. */
  lemma {:induction false} QuadEndIsDottedQuad(s: string, i: nat)
    requires i <= |s| && QuadEnd(s, i).Some?
    ensures IsDottedQuad(s[i..QuadEnd(s, i).value])
  {
    var j := DottedGroupEnd(s, i).value;
    var k := DottedGroupEnd(s, j).value;
    var l := DottedGroupEnd(s, k).value;
    var e := QuadEnd(s, i).value;
    DotJoin(s, k, l, e);
    DotJoin(s, j, k, e);
    DotJoin(s, i, j, e);
    JoinedOctets(s[i..j - 1], s[j..k - 1], s[k..l - 1], s[l..e]);
  }

  /**
   * A greedy last `\d{1,3}` ending at `e` could take no further digit: the
   * text ends, the next character is no digit, or three digits end there.
   */
  predicate GreedyEnd(s: string, e: nat) {
    e >= |s| || !IsDigit(s[e]) || (3 <= e && IsDigit(s[e - 1]) && IsDigit(s[e - 2]) && IsDigit(s[e - 3]))
  }

  /** A dotted quad is four octet texts with a dot at each of three positions. */
  lemma {:induction false} DottedQuadShape(q: string) returns (a: nat, b: nat, c: nat)
    requires IsDottedQuad(q)
    ensures a < b < c < |q| && q[a] == '.' && q[b] == '.' && q[c] == '.'
    ensures IsOctetText(q[..a]) && IsOctetText(q[a + 1..b]) && IsOctetText(q[b + 1..c]) && IsOctetText(q[c + 1..])
  {
    var p := SplitOn(q, '.');
    SplitJoin(q, '.');
    assert p[1..][1..] == p[2..] && p[2..][1..] == p[3..];
    assert JoinWith(p[2..], '.') == p[2] + ['.'] + p[3];
    assert JoinWith(p[1..], '.') == p[1] + ['.'] + (p[2] + ['.'] + p[3]);
    assert q == p[0] + ['.'] + (p[1] + ['.'] + (p[2] + ['.'] + p[3]));
    a := |p[0]|;
    b := a + 1 + |p[1]|;
    c := b + 1 + |p[2]|;
    assert q[..a] == p[0] && q[a + 1..b] == p[1] && q[b + 1..c] == p[2] && q[c + 1..] == p[3];
  }

  /**
   * The quad pattern at `i` ends at `e` exactly when `s[i..e]` is a dotted
   * quad whose last group is greedy.
   */
  lemma {:induction false} QuadEndMatches(s: string, i: nat, e: nat)
    requires i <= e <= |s|
    ensures QuadEnd(s, i) == Some(e) <==> IsDottedQuad(s[i..e]) && GreedyEnd(s, e)
  {
    if QuadEnd(s, i) == Some(e) {
      QuadEndIsDottedQuad(s, i);
    }
    if IsDottedQuad(s[i..e]) {
      var l := QuadEndFrom(s, i, e);
      if GreedyEnd(s, e) {
        assert s[l - 1] == '.';
      }
    }
  }

  /**
   * When a dotted quad starts at `i`, the quad pattern matches there, its
   * first three groups end where the quad's do, and its greedy last group
   * reaches at least the quad's end.
   */
  lemma {:induction false} QuadEndFrom(s: string, i: nat, e: nat) returns (l: nat)
    requires i <= e <= |s| && IsDottedQuad(s[i..e])
    ensures i < l <= e && s[l - 1] == '.' && IsOctetText(s[l..e])
    ensures QuadEnd(s, i) == LastGroupEnd(s, l)
    ensures QuadEnd(s, i).Some? && e <= QuadEnd(s, i).value
  {
    var a, b, c := DottedQuadShape(s[i..e]);
    QuadInText(s, i, e, s[i..e], a, b, c);
    l := QuadEndAt(s, i, i + a, i + b, i + c, e);
  }

  /** The dots and octet texts of a dotted quad `q == s[i..e]`, read in `s`. */
  lemma QuadInText(s: string, i: nat, e: nat, q: string, a: nat, b: nat, c: nat)
    requires i <= e <= |s| && q == s[i..e]
    requires a < b < c < |q| && q[a] == '.' && q[b] == '.' && q[c] == '.'
    requires IsOctetText(q[..a]) && IsOctetText(q[a + 1..b]) && IsOctetText(q[b + 1..c]) && IsOctetText(q[c + 1..])
    ensures s[i + a] == '.' && s[i + b] == '.' && s[i + c] == '.'
    ensures IsOctetText(s[i..i + a]) && IsOctetText(s[i + a + 1..i + b])
    ensures IsOctetText(s[i + b + 1..i + c]) && IsOctetText(s[i + c + 1..e])
  {
    assert s[i + a] == q[a] && s[i + b] == q[b] && s[i + c] == q[c];
    OctetInText(s, i, e, 0, a);
    OctetInText(s, i, e, a + 1, b);
    OctetInText(s, i, e, b + 1, c);
    OctetInText(s, i, e, c + 1, e - i);
  }

  /** An octet text at `x..y` of `s[i..e]` is the octet text at `i + x..i + y` of `s`. */
  lemma OctetInText(s: string, i: nat, e: nat, x: nat, y: nat)
    requires i <= e <= |s| && x <= y <= e - i && IsOctetText(s[i..e][x..y])
    ensures IsOctetText(s[i + x..i + y])
  {
    forall t | 0 <= t < y - x
      ensures s[i + x..i + y][t] == s[i..e][x..y][t]
    {
    }
    assert s[i + x..i + y] == s[i..e][x..y];
  }

  /**
   * Octet texts ending in dots at `a`, `b` and `c`, and one more up to `e`:
   * the pattern takes the three dotted groups and a greedy last group
   * reaching at least `e`.
   */
  lemma QuadEndAt(s: string, i: nat, a: nat, b: nat, c: nat, e: nat) returns (l: nat)
    requires i < a < b < c < e <= |s| && s[a] == '.' && s[b] == '.' && s[c] == '.'
    requires IsOctetText(s[i..a]) && IsOctetText(s[a + 1..b]) && IsOctetText(s[b + 1..c]) && IsOctetText(s[c + 1..e])
    ensures i < l <= e && s[l - 1] == '.' && IsOctetText(s[l..e])
    ensures QuadEnd(s, i) == LastGroupEnd(s, l)
    ensures QuadEnd(s, i).Some? && e <= QuadEnd(s, i).value
  {
    assert DottedGroupEnd(s, i) == Some(a + 1);
    assert DottedGroupEnd(s, a + 1) == Some(b + 1);
    assert DottedGroupEnd(s, b + 1) == Some(c + 1);
    QuadEndThrough(s, i, a + 1, b + 1, c + 1);
    l := c + 1;
    LastGroupReaches(s, l, e);
  }

  /** Three dotted groups in a row leave the quad pattern to its last group. */
  lemma QuadEndThrough(s: string, i: nat, j: nat, k: nat, l: nat)
    requires i <= |s| && j <= |s| && k <= |s|
    requires DottedGroupEnd(s, i) == Some(j) && DottedGroupEnd(s, j) == Some(k) && DottedGroupEnd(s, k) == Some(l)
    ensures QuadEnd(s, i) == LastGroupEnd(s, l)
  {
  }

  /** The greedy last group at `l` reaches at least as far as any octet text there. */
  lemma LastGroupReaches(s: string, l: nat, e: nat)
    requires l < e <= |s| && IsOctetText(s[l..e])
    ensures LastGroupEnd(s, l).Some? && e <= LastGroupEnd(s, l).value
  {
    assert forall t :: l <= t < e ==> s[t] == s[l..e][t - l];
  }

  /** A slice with a dot just before `m` is the text before the dot, the dot, and the rest. */
  lemma {:induction false} DotJoin(s: string, a: nat, m: nat, b: nat)
    requires a < m <= b <= |s| && s[m - 1] == '.'
    ensures s[a..b] == s[a..m - 1] + ['.'] + s[m..b]
  {
    assert s[a..b] == s[a..m - 1] + [s[m - 1]] + s[m..b];
  }

  /** Four octet texts joined by dots make a dotted quad. */
  lemma {:induction false} JoinedOctets(g1: string, g2: string, g3: string, g4: string)
    requires IsOctetText(g1) && IsOctetText(g2) && IsOctetText(g3) && IsOctetText(g4)
    ensures IsDottedQuad(g1 + ['.'] + (g2 + ['.'] + (g3 + ['.'] + g4)))
  {
    OctetHasNoDot(g1);
    OctetHasNoDot(g2);
    OctetHasNoDot(g3);
    OctetHasNoDot(g4);
    var t3 := g3 + ['.'] + g4;
    var t2 := g2 + ['.'] + t3;
    var t1 := g1 + ['.'] + t2;
    SplitNoSeparator(g4, '.');
    SplitFirstPiece(g3, '.', g4);
    assert SplitOn(t3, '.') == [g3, g4];
    SplitFirstPiece(g2, '.', t3);
    assert SplitOn(t2, '.') == [g2, g3, g4];
    SplitFirstPiece(g1, '.', t2);
    assert SplitOn(t1, '.') == [g1, g2, g3, g4];
  }

  lemma OctetHasNoDot(g: string)
    requires IsOctetText(g)
    ensures '.' !in g
  {
    assert forall c :: IsDigit(c) ==> c != '.';
  }

  lemma SrcPrefix(s: string, k: nat, e: nat)
    requires k + 4 <= e <= |s| && s[k..k + 4] == "src "
    ensures s[k..e] == "src " + s[k + 4..e]
  {
    assert s[k..e] == s[k..k + 4] + s[k + 4..e];
  }

  /** `ip` follows `src ` at `k`, and a greedy last group could not have taken a further digit. */
  predicate GreedyCaptureAt(s: string, ip: string, k: nat) {
    OccursAt(s, "src " + ip, k) && GreedyEnd(s, k + 4 + |ip|)
  }

  /** The address a match at `k` captures. */
  function CapturedIp(s: string, k: nat): (ip: string)
    requires SrcMatchAt(s, k)
    ensures IsDottedQuad(ip)
    ensures OccursAt(s, "src " + ip, k)
    ensures GreedyEnd(s, k + 4 + |ip|)
  {
    var e := QuadEnd(s, k + 4).value;
    CapturedFacts(s, k, e);
    s[k + 4..e]
  }

  lemma CapturedFacts(s: string, k: nat, e: nat)
    requires k + 4 <= |s| && s[k..k + 4] == "src " && QuadEnd(s, k + 4) == Some(e)
    ensures k + 4 <= e <= |s| && IsDottedQuad(s[k + 4..e]) && GreedyEnd(s, e)
    ensures OccursAt(s, "src " + s[k + 4..e], k)
  {
    QuadEndMatches(s, k + 4, e);
    SrcPrefix(s, k, e);
  }

  /**
   * `get_device_ip`: the address captured by the leftmost match of
   * `src (\d{1,3}\.\d{1,3}\.\d{1,3}\.\d{1,3})`, or None when nothing matches or
   * the run raised.
   */
  function GetDeviceIp(output: Option<string>): (ip: Option<string>)
    ensures ip.Some? ==> output.Some? && IsDottedQuad(ip.value) && Contains(output.value, "src " + ip.value)
    ensures ip.Some? ==> output.Some? && exists k: nat :: k <= |output.value| && GreedyCaptureAt(output.value, ip.value, k)
    ensures output.Some? ==> (ip.None? <==> forall j :: 0 <= j <= |output.value| ==> !SrcMatchAt(output.value, j))
  {
    match output
    case None => None
    case Some(s) =>
      match FirstSrcMatch(s, 0)
      case None => None
      case Some(k) =>
        var ip := CapturedIp(s, k);
        assert OccursAt(s, "src " + ip, k) && GreedyCaptureAt(s, ip, k);
        Some(ip)
  }

  /** Whatever the leftmost match is, `get_device_ip` returns the address it captures. */
  lemma {:induction false} GetDeviceIpLeftmost(s: string, k: nat)
    requires k <= |s| && SrcMatchAt(s, k)
    requires forall j :: 0 <= j < k ==> !SrcMatchAt(s, j)
    ensures GetDeviceIp(Some(s)) == Some(CapturedIp(s, k))
  {
    var m := FirstSrcMatch(s, 0);
    assert m.Some? && m.value == k;
  }

  /** Any dotted quad right after `src ` in the output is found: the result is then never None. */
  lemma {:induction false} GetDeviceIpFinds(s: string, q: string, j: nat)
    requires IsDottedQuad(q) && OccursAt(s, "src " + q, j)
    ensures GetDeviceIp(Some(s)).Some?
  {
    var e := j + 4 + |q|;
    assert s[j..j + 4] == ("src " + q)[..4];
    assert s[j + 4..e] == ("src " + q)[4..];
    var _ := QuadEndFrom(s, j + 4, e);
    assert SrcMatchAt(s, j);
  }

  /** Four digits do not make a group: no match, no address. */
  lemma LongGroupExample()
    ensures GetDeviceIp(Some("src 1000.0.0.7")) == None
  {
    var s := "src 1000.0.0.7";
    assert DigitRun(s, 8) == 0;
    assert DigitRun(s, 7) == 1;
    assert DigitRun(s, 6) == 2;
    assert DigitRun(s, 5) == 3;
    assert DigitRun(s, 4) == 4;
    assert QuadEnd(s, 4) == None;
    forall j | 0 < j <= |s|
      ensures !SrcMatchAt(s, j)
    {
      assert j < |s| ==> s[j] != 's';
      NoMatchWithoutS(s, j);
    }
  }

  lemma {:induction false} NoMatchWithoutS(s: string, j: nat)
    requires j <= |s| && (j < |s| ==> s[j] != 's')
    ensures !SrcMatchAt(s, j)
  {
    if j + 4 <= |s| {
      assert s[j..j + 4][0] == s[j];
    }
  }

  /** The outcome of `connect_wireless_ip(ip)`. */
  datatype WirelessAttempt = WirelessAttempt(target: string, connected: bool)

  /**
   * `connect_wireless_ip`: always targets `ip + ":5555"`, and succeeds
   * exactly when the run's standard output contains `"connected"`
   * (stripping it first changes nothing); a run that raised fails.
   */
  function ConnectWirelessIp(ip: string, stdout: Option<string>): (r: WirelessAttempt)
    ensures r.target == ip + ":5555"
    ensures r.connected <==> stdout.Some? && Contains(stdout.value, "connected")
  {
    match stdout
    case None => WirelessAttempt(ip + ":5555", false)
    case Some(out) =>
      StripKeepsContains(out, "connected");
      WirelessAttempt(ip + ":5555", Contains(Strip(out), "connected"))
  }

  predicate IsSep(c: char) {
    c == '/' || c == '\\'
  }

  /** The index just past the last path separator, 0 when there is none. */
  function LastSepEnd(p: string): (k: nat)
    ensures k <= |p|
    ensures k > 0 ==> IsSep(p[k - 1])
    ensures forall i :: k <= i < |p| ==> !IsSep(p[i])
    decreases |p|
  {
    if p == [] then 0 else if IsSep(p[|p| - 1]) then |p| else LastSepEnd(p[..|p| - 1])
  }

  /** The index of the first separator at or after `from`, or `|p|` when there is none. */
  function NextSep(p: string, from: nat): (i: nat)
    requires from <= |p|
    ensures from <= i <= |p|
    ensures i < |p| ==> IsSep(p[i])
    ensures forall j :: from <= j < i ==> !IsSep(p[j])
    decreases |p| - from
  {
    if from == |p| then |p| else if IsSep(p[from]) then from else NextSep(p, from + 1)
  }

  /** The long UNC prefix `\\?\UNC\`, either separator, the letters in any case. */
  predicate LongUncPrefix(p: string) {
    && |p| >= 8 && IsSep(p[0]) && IsSep(p[1]) && p[2] == '?' && IsSep(p[3])
    && (p[4] == 'U' || p[4] == 'u') && (p[5] == 'N' || p[5] == 'n')
    && (p[6] == 'C' || p[6] == 'c') && IsSep(p[7])
  }

  /**
   * The length of the drive prefix Windows path splitting finds: `X:` for a
   * letter drive; for two leading separators (a UNC or device path) the
   * server and share, up to the separator after the share, or the whole text
   * when the server or the share is not followed by one; nothing otherwise.
   */
  function DriveLength(p: string): (d: nat)
    ensures d <= |p|
    ensures d > 0 && !IsSep(p[0]) ==> d == 2 && p[1] == ':'
    ensures d > 0 && IsSep(p[0]) ==> |p| >= 2 && IsSep(p[1])
    ensures |p| >= 2 && IsSep(p[0]) && IsSep(p[1]) ==> d == |p| || (d >= 3 && IsSep(p[d]))
  {
    if |p| >= 2 && IsSep(p[0]) && IsSep(p[1]) then
      var server := NextSep(p, if LongUncPrefix(p) then 8 else 2);
      if server == |p| then |p|
      else
        var share := NextSep(p, server + 1);
        share
    else if |p| >= 2 && !IsSep(p[0]) && p[1] == ':' then 2
    else 0
  }

  /** Windows `os.path.basename`: what follows the last separator and any drive prefix. */
  function Basename(p: string): (b: string)
    ensures |b| <= |p| && b == p[|p| - |b|..]
    ensures forall i :: 0 <= i < |b| ==> !IsSep(b[i])
    ensures |b| == |p| || IsSep(p[|p| - |b| - 1]) || |p| - |b| == DriveLength(p)
    ensures |p| - |b| >= DriveLength(p)
  {
    var k := LastSepEnd(p);
    var d := DriveLength(p);
    if k < d then p[d..] else p[k..]
  }

  /**
   * The base name is the only suffix with those properties: a suffix free
   * of separators that starts at the beginning, after a separator or at the
   * end of the drive prefix, and never inside the drive prefix.
   */
  lemma {:induction false} BasenameUnique(p: string, b: string)
    requires |b| <= |p| && b == p[|p| - |b|..]
    requires forall i :: 0 <= i < |b| ==> !IsSep(b[i])
    requires |b| == |p| || IsSep(p[|p| - |b| - 1]) || |p| - |b| == DriveLength(p)
    requires |p| - |b| >= DriveLength(p)
    ensures b == Basename(p)
  {
    var cut := |p| - |b|;
    var k := LastSepEnd(p);
    if cut > 0 && IsSep(p[cut - 1]) {
      assert cut <= k;
    }
  }

  /**
   * After two leading separators, a path with at most one more separator is
   * all drive: it names a server or a share and no file, and its base name
   * is empty.
   */
  lemma UncRootIsAllDrive(p: string, sep: nat)
    requires |p| >= 2 && IsSep(p[0]) && IsSep(p[1])
    requires 2 <= sep <= |p|
    requires forall j :: 2 <= j < |p| && j != sep ==> !IsSep(p[j])
    ensures DriveLength(p) == |p|
    ensures Basename(p) == ""
  {
    assert !LongUncPrefix(p) by {
      if |p| >= 8 && IsSep(p[3]) {
        assert sep == 3 && !IsSep(p[7]);
      }
    }
    var server := NextSep(p, 2);
    if server < |p| {
      assert server == sep;
      assert NextSep(p, server + 1) == |p|;
    }
  }

  predicate SepFree(s: string) {
    forall i :: 0 <= i < |s| ==> !IsSep(s[i])
  }

  /** `\\server\share`, in either separator, is a bare root with an empty base name. */
  lemma UncShareBasename(a: char, b: char, server: string, c: char, share: string)
    requires IsSep(a) && IsSep(b) && IsSep(c) && SepFree(server) && SepFree(share)
    ensures Basename([a, b] + server + [c] + share) == ""
  {
    var p := [a, b] + server + [c] + share;
    var sep := 2 + |server|;
    assert forall j :: 2 <= j < sep ==> p[j] == server[j - 2];
    assert forall j :: sep < j < |p| ==> p[j] == share[j - sep - 1];
    UncRootIsAllDrive(p, sep);
  }

  /** `\\server` alone is all drive as well. */
  lemma UncServerBasename(a: char, b: char, server: string)
    requires IsSep(a) && IsSep(b) && SepFree(server)
    ensures Basename([a, b] + server) == ""
  {
    var p := [a, b] + server;
    assert forall j :: 2 <= j < |p| ==> p[j] == server[j - 2];
    UncRootIsAllDrive(p, |p|);
  }

  /**
   * A file directly on a share keeps its own name. A server named `?` is
   * excluded: with a share named `UNC` that is the long prefix `\\?\UNC\`.
   */
  lemma UncFileBasename(a: char, b: char, server: string, c: char, share: string, d: char, name: string)
    requires IsSep(a) && IsSep(b) && IsSep(c) && IsSep(d) && SepFree(server) && SepFree(share) && SepFree(name)
    requires server != "?"
    ensures Basename([a, b] + server + [c] + share + [d] + name) == name
  {
    var p := [a, b] + server + [c] + share + [d] + name;
    var sep := 2 + |server|;
    var end := sep + 1 + |share|;
    assert p[sep] == c && p[end] == d;
    assert forall j :: 2 <= j < sep ==> p[j] == server[j - 2];
    assert forall j :: sep < j < end ==> p[j] == share[j - sep - 1];
    assert sep == 3 ==> p[2] != '?' by {
      if sep == 3 {
        assert server == [p[2]];
      }
    }
    UncDriveEnd(p, sep, end);
    assert p[end + 1..] == name;
    BasenameUnique(p, name);
  }

  /**
   * Two leading separators, a server up to `sep` and a share up to `end`:
   * the drive ends at `end`, unless that shape spells the long UNC prefix.
   */
  lemma UncDriveEnd(p: string, sep: nat, end: nat)
    requires |p| >= 2 && IsSep(p[0]) && IsSep(p[1])
    requires 2 <= sep < end < |p| && IsSep(p[sep]) && IsSep(p[end])
    requires forall j :: 2 <= j < end && j != sep ==> !IsSep(p[j])
    requires sep == 3 ==> p[2] != '?'
    ensures DriveLength(p) == end
  {
    assert !LongUncPrefix(p);
    assert NextSep(p, 2) == sep;
    assert NextSep(p, sep + 1) == end;
  }

  /** A letter drive is cut off, with or without a name after it. */
  lemma LetterDriveBasename(letter: char, name: string)
    requires !IsSep(letter) && SepFree(name)
    ensures Basename([letter, ':'] + name) == name
  {
    var p := [letter, ':'] + name;
    assert p[2..] == name;
    BasenameUnique(p, name);
  }

  const DownloadDir := "/sdcard/Download/"

  /** `push_file`'s target: the file's base name directly inside the device's Download folder. */
  function RemotePath(localPath: string): (r: string)
    ensures StartsWith(r, DownloadDir)
    ensures forall i :: |DownloadDir| <= i < |r| ==> !IsSep(r[i])
    ensures |r| - |DownloadDir| <= |localPath|
    ensures r[|DownloadDir|..] == localPath[|localPath| - (|r| - |DownloadDir|)..]
    ensures r[|DownloadDir|..] == Basename(localPath)
  {
    DownloadDir + Basename(localPath)
  }

  /** Pushing a bare share root targets the Download folder itself. */
  lemma PushShareRoot(a: char, b: char, server: string, c: char, share: string)
    requires IsSep(a) && IsSep(b) && IsSep(c) && SepFree(server) && SepFree(share)
    ensures RemotePath([a, b] + server + [c] + share) == DownloadDir
  {
    UncShareBasename(a, b, server, c, share);
  }
}
