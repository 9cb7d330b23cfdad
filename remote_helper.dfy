/**
  The `git-remote-joystream` process: `cmdRoot` picks the URL argument,
  matches it, then reads remote-helper commands from standard input line by
  line until input ends, answering `capabilities` and `list` and collecting
  `push` lines into a batch that a blank line hands to `handlePushBatch`.

  Standard input is the whole text the process will read; standard output is
  the text it writes. What goes to standard error is not modelled. Every
  batch passed to `handlePushBatch` is recorded, in order, in `handled`.
 */
module RemoteHelper {
  import opened Wrappers
  import opened GoStrings
  import opened JoystreamUrl

  /** `[][]string`: the arguments of each `push` line, in arrival order. */
  type Batch = seq<seq<string>>

  /** What `cmdRoot` has done so far: the pending batch, standard output and the batches handled. */
  datatype LoopState = LoopState(batch: Batch, stdout: string, handled: seq<Batch>)

  const Start := LoopState([], "", [])

  /** How `cmdRoot` ends: a nil error, a returned error, or a run-time panic. */
  datatype Exit = Done | Failed(message: string) | Panicked(reason: string)

  const IndexOutOfRange := "index out of range"

  /** The `%v` rendering of a `[]string`: its elements between brackets, separated by spaces. */
  function FormatSlice(parts: seq<string>): (r: string)
    ensures |r| >= 2 && r[0] == '[' && r[|r| - 1] == ']'
    ensures parts == [] ==> r == "[]"
  {
    "[" + JoinSpaces(parts) + "]"
  }

  function JoinSpaces(parts: seq<string>): string {
    if parts == [] then ""
    else if |parts| == 1 then parts[0]
    else parts[0] + " " + JoinSpaces(parts[1..])
  }

  /**
    Between its brackets, the `%v` rendering of words holds exactly those
    words as its fields: the error text names the command's arguments
    unambiguously.
   */
  lemma {:induction false} FormatSliceFields(parts: seq<string>)
    requires forall i :: 0 <= i < |parts| ==> |parts[i]| > 0 && NoSpace(parts[i])
    ensures var r := FormatSlice(parts); Fields(r[1..|r| - 1]) == parts
    decreases |parts|
  {
    var r := FormatSlice(parts);
    assert r[1..|r| - 1] == JoinSpaces(parts);
    JoinSpacesFields(parts);
  }

  lemma {:induction false} JoinSpacesFields(parts: seq<string>)
    requires forall i :: 0 <= i < |parts| ==> |parts[i]| > 0 && NoSpace(parts[i])
    ensures Fields(JoinSpaces(parts)) == parts
    decreases |parts|
  {
    if |parts| == 1 {
      assert parts[0] + [] == parts[0];
      FieldsCons(parts[0], []);
    } else if |parts| > 1 {
      var tail := JoinSpaces(parts[1..]);
      JoinSpacesFields(parts[1..]);
      assert parts[0] + " " + tail == parts[0] + (" " + tail);
      FieldsCons(parts[0], " " + tail);
      FieldsSpacePrefix(" ", tail);
      assert parts == [parts[0]] + parts[1..];
    }
  }

  /** What `handleList` writes to standard output and the error it returns. */
  datatype ListOutcome = ListOutcome(written: string, err: Option<string>)

  /**
    `handleList`: no argument or the single argument `for-push` answers the
    (still empty) reference list with a blank line; any other arguments are a
    bad request, reported as an error with nothing written.
   */
  function HandleList(command: seq<string>): (r: ListOutcome)
    ensures r.err.None? <==> command == [] || command == ["for-push"]
    ensures r.err.None? ==> r.written == "\n"
    ensures r.err.Some? ==> r.written == "" && r.err.value == "Bad list request: " + FormatSlice(command)
  {
    if |command| == 1 && command[0] == "for-push" then ListOutcome("\n", None)
    else if |command| > 0 then ListOutcome("", Some("Bad list request: " + FormatSlice(command)))
    else ListOutcome("\n", None)
  }

  /** `handlePushBatch`: the batch is not yet sent anywhere; the stub answers with a blank line. */
  function HandlePushBatch(batch: Batch, repo: Repository): (r: string)
    ensures r == "\n"
  {
    "\n"
  }

  /**
    One command line, already split into fields, applied to the loop state;
    `None` when it panics (a `push` line when `cmdRoot` got a single argument
    evaluates `args[1]`). An unknown command changes nothing.
   */
  function Dispatch(args: seq<string>, repo: Repository, st: LoopState, parts: seq<string>): (r: Option<LoopState>)
    ensures r.None? <==> |parts| > 0 && parts[0] == "push" && |args| < 2
    ensures r.Some? ==> st.stdout <= r.value.stdout && st.handled <= r.value.handled
    ensures r.Some? && |parts| > 0 ==> r.value.handled == st.handled
  {
    if |parts| == 0 then
      if |st.batch| > 0 then
        Some(LoopState([], st.stdout + HandlePushBatch(st.batch, repo), st.handled + [st.batch]))
      else Some(st)
    else if parts[0] == "capabilities" then Some(st.(stdout := st.stdout + "push\n\n"))
    else if parts[0] == "list" then Some(st.(stdout := st.stdout + HandleList(parts[1..]).written))
    else if parts[0] == "push" then
      if |args| < 2 then None else Some(st.(batch := st.batch + [parts[1..]]))
    else Some(st)
  }

  /** The command loop run from state `st` over the unread input. */
  function Serve(args: seq<string>, repo: Repository, st: LoopState, input: string): (r: (Exit, LoopState))
    ensures r.0 == Done || r.0 == Panicked(IndexOutOfRange)
    ensures st.stdout <= r.1.stdout && st.handled <= r.1.handled
    decreases |input|
  {
    var read := ReadLine(input);
    if read.None? then (Done, st)
    else
      var next := Step(args, repo, st, read.value.0);
      if next.None? then (Panicked(IndexOutOfRange), st)
      else Serve(args, repo, next.value, read.value.1)
  }

  /** One line as read from standard input, trimmed, split and dispatched. */
  function Step(args: seq<string>, repo: Repository, st: LoopState, line: string): (r: Option<LoopState>)
    ensures r == Dispatch(args, repo, st, Fields(line))
  {
    FieldsOfTrimSpace(line);
    Dispatch(args, repo, st, Fields(TrimSpace(line)))
  }

  /** `cmdRoot` as a whole, on the positional arguments and the text of standard input. */
  function Run(args: seq<string>, stdin: string): (r: (Exit, LoopState))
    ensures r.0.Failed? <==> |args| > 0 && ParseURL(if |args| == 1 then args[0] else args[1]).None?
    ensures r.0.Failed? ==> r.1 == Start
  {
    if |args| == 0 then (Panicked(IndexOutOfRange), Start)
    else
      var url := if |args| == 1 then args[0] else args[1];
      match ParseURL(url)
      case None => (Failed("URL on invalid format: '" + url + "'"), Start)
      case Some(repo) => Serve(args, repo, Start, stdin)
  }

  /**
    `cmdRoot`: the URL is the only argument, or else the second; a URL the
    pattern does not match is an error before any input is read; then the
    loop runs until input ends.
   */
  method CmdRoot(args: seq<string>, stdin: string) returns (exit: Exit, stdout: string, handled: seq<Batch>)
    ensures exit == Run(args, stdin).0
    ensures stdout == Run(args, stdin).1.stdout
    ensures handled == Run(args, stdin).1.handled
  {
    stdout, handled := "", [];
    if |args| == 0 {
      return Panicked(IndexOutOfRange), stdout, handled;
    }
    var url;
    if |args| == 1 {
      url := args[0];
    } else {
      url := args[1];
    }
    var m := ParseURL(url);
    if m.None? {
      return Failed("URL on invalid format: '" + url + "'"), stdout, handled;
    }
    var repo := m.value;
    var pushBatch: Batch := [];
    var unread := stdin;
    while true
      invariant Serve(args, repo, LoopState(pushBatch, stdout, handled), unread) == Serve(args, repo, Start, stdin)
      decreases |unread|
    {
      var read := ReadLine(unread);
      if read.None? {
        break;
      }
      var line := read.value.0;
      unread := read.value.1;
      var command := TrimSpace(line);
      var commandParts := Fields(command);
      if |commandParts| == 0 {
        if |pushBatch| > 0 {
          stdout := stdout + HandlePushBatch(pushBatch, repo);
          handled := handled + [pushBatch];
          pushBatch := [];
        }
      } else if commandParts[0] == "capabilities" {
        stdout := stdout + "push\n\n";
      } else if commandParts[0] == "list" {
        var listed := HandleList(commandParts[1..]);
        stdout := stdout + listed.written;
      } else if commandParts[0] == "push" {
        if |args| < 2 {
          return Panicked(IndexOutOfRange), stdout, handled;
        }
        pushBatch := pushBatch + [commandParts[1..]];
      }
    }
    exit := Done;
  }

  /** One complete input line is dispatched on its fields; trimming does not matter. */
  lemma ServeLine(args: seq<string>, repo: Repository, st: LoopState, line: string, rest: string)
    requires '\n' !in line
    ensures Serve(args, repo, st, line + "\n" + rest) ==
      match Dispatch(args, repo, st, Fields(line))
      case None => (Panicked(IndexOutOfRange), st)
      case Some(next) => Serve(args, repo, next, rest)
  {
    ReadLineOf(line, rest);
    StepOnLine(args, repo, st, line);
  }

  lemma StepOnLine(args: seq<string>, repo: Repository, st: LoopState, line: string)
    ensures Step(args, repo, st, line + "\n") == Dispatch(args, repo, st, Fields(line))
  {
    FieldsSpaceSuffix(line, "\n");
  }

  /**
    A blank line (empty after trimming) with no pending batch writes nothing;
    with a pending batch it hands the whole batch, once, to
    `handlePushBatch`, writes its blank line and empties the batch.
   */
  lemma BlankLine(args: seq<string>, repo: Repository, st: LoopState, line: string, rest: string)
    requires '\n' !in line && AllSpace(line)
    ensures st.batch == [] ==> Serve(args, repo, st, line + "\n" + rest) == Serve(args, repo, st, rest)
    ensures st.batch != [] ==>
      Serve(args, repo, st, line + "\n" + rest) ==
      Serve(args, repo, LoopState([], st.stdout + "\n", st.handled + [st.batch]), rest)
  {
    ServeLine(args, repo, st, line, rest);
    FieldsEmptyIffBlank(line);
  }

  /** `capabilities` writes `push` and a blank line and leaves the batch alone. */
  lemma CapabilitiesLine(args: seq<string>, repo: Repository, st: LoopState, line: string, rest: string)
    requires '\n' !in line && Fields(line) != [] && Fields(line)[0] == "capabilities"
    ensures Serve(args, repo, st, line + "\n" + rest) ==
      Serve(args, repo, st.(stdout := st.stdout + "push\n\n"), rest)
  {
    ServeLine(args, repo, st, line, rest);
  }

  /**
    `list` or `list for-push` writes a blank line; `list` with other
    arguments writes nothing, and its error is dropped, so the loop goes on.
   */
  lemma ListLine(args: seq<string>, repo: Repository, st: LoopState, line: string, rest: string)
    requires '\n' !in line && Fields(line) != [] && Fields(line)[0] == "list"
    ensures var a := Fields(line)[1..];
      Serve(args, repo, st, line + "\n" + rest) ==
      Serve(args, repo, st.(stdout := st.stdout + (if a == [] || a == ["for-push"] then "\n" else "")), rest)
  {
    ServeLine(args, repo, st, line, rest);
  }

  /**
    `push` appends its arguments to the end of the batch and writes nothing;
    with a single positional argument it panics instead.
   */
  lemma PushLine(args: seq<string>, repo: Repository, st: LoopState, line: string, rest: string)
    requires '\n' !in line && Fields(line) != [] && Fields(line)[0] == "push"
    ensures |args| >= 2 ==>
      Serve(args, repo, st, line + "\n" + rest) ==
      Serve(args, repo, st.(batch := st.batch + [Fields(line)[1..]]), rest)
    ensures |args| < 2 ==> Serve(args, repo, st, line + "\n" + rest) == (Panicked(IndexOutOfRange), st)
  {
    ServeLine(args, repo, st, line, rest);
    DispatchPush(args, repo, st, Fields(line));
  }

  /**
    `Dispatch` on a `push` command, over abstract fields: kept apart from
    `Serve` so that comparing the command word with the literal commands
    stays cheap for the solver.
   */
  lemma DispatchPush(args: seq<string>, repo: Repository, st: LoopState, parts: seq<string>)
    requires parts != [] && parts[0] == "push"
    ensures |args| >= 2 ==> Dispatch(args, repo, st, parts) == Some(st.(batch := st.batch + [parts[1..]]))
    ensures |args| < 2 ==> Dispatch(args, repo, st, parts) == None
  {
  }

  /** Any other command is skipped without output or error. */
  lemma UnknownLine(args: seq<string>, repo: Repository, st: LoopState, line: string, rest: string)
    requires '\n' !in line && Fields(line) != []
    requires Fields(line)[0] !in {"capabilities", "list", "push"}
    ensures Serve(args, repo, st, line + "\n" + rest) == Serve(args, repo, st, rest)
  {
    ServeLine(args, repo, st, line, rest);
  }

  /** Input without a further '\n' ends the loop: the pending batch is dropped, not handled. */
  lemma EndOfInput(args: seq<string>, repo: Repository, st: LoopState, tail: string)
    requires '\n' !in tail
    ensures Serve(args, repo, st, tail) == (Done, st)
  {
  }

  /** A final line without '\n' is never acted on. */
  lemma {:induction false} UnterminatedTailIgnored(args: seq<string>, repo: Repository, st: LoopState, s: string, tail: string)
    requires s == [] || s[|s| - 1] == '\n'
    requires '\n' !in tail
    ensures Serve(args, repo, st, s + tail) == Serve(args, repo, st, s)
    decreases |s|
  {
    if s == [] {
      assert s + tail == tail;
    } else {
      var (line, rest) := ReadLine(s).value;
      var body := line[..|line| - 1];
      assert line == body + "\n";
      assert s + tail == body + "\n" + (rest + tail);
      ServeLine(args, repo, st, body, rest + tail);
      ServeLine(args, repo, st, body, rest);
      assert rest == [] || rest[|rest| - 1] == '\n' by {
        if rest != [] { assert rest[|rest| - 1] == s[|s| - 1]; }
      }
      match Dispatch(args, repo, st, Fields(body))
      case None =>
      case Some(next) => UnterminatedTailIgnored(args, repo, next, rest, tail);
    }
  }

  /** The `push` lines for the given refspecs, one per line. */
  function PushLines(refspecs: seq<string>): string {
    if refspecs == [] then "" else "push" + " " + refspecs[0] + "\n" + PushLines(refspecs[1..])
  }

  /** Each refspec as the one-element argument list of its `push` line. */
  function AsBatch(refspecs: seq<string>): Batch {
    if refspecs == [] then [] else [[refspecs[0]]] + AsBatch(refspecs[1..])
  }

  /** A line of two words split by one space has exactly those two fields. */
  lemma TwoWords(w: string, v: string)
    requires |w| > 0 && NoSpace(w) && '\n' !in w
    requires |v| > 0 && NoSpace(v)
    ensures Fields(w + " " + v) == [w, v]
    ensures '\n' !in w + " " + v
  {
    assert w + " " + v == w + (" " + v);
    FieldsCons(w, " " + v);
    FieldsSpacePrefix(" ", v);
    assert v + [] == v;
    FieldsCons(v, []);
    assert '\n' !in v;
  }

  /** One `push <refspec>` line appends the refspec to the batch. */
  lemma PushOne(args: seq<string>, repo: Repository, st: LoopState, refspec: string, rest: string)
    requires |args| >= 2 && |refspec| > 0 && NoSpace(refspec)
    ensures Serve(args, repo, st, "push" + " " + refspec + "\n" + rest) ==
      Serve(args, repo, st.(batch := st.batch + [[refspec]]), rest)
  {
    assert NoSpace("push");
    TwoWords("push", refspec);
    PushLine(args, repo, st, "push" + " " + refspec, rest);
  }

  lemma AsBatchCons(batch: Batch, refspecs: seq<string>)
    requires refspecs != []
    ensures batch + [[refspecs[0]]] + AsBatch(refspecs[1..]) == batch + AsBatch(refspecs)
  {
    assert AsBatch(refspecs) == [[refspecs[0]]] + AsBatch(refspecs[1..]);
  }

  /**
    Queued `push` lines followed by one blank line reach `handlePushBatch`
    exactly once, as a single batch holding every refspec in arrival order
    after whatever was already pending.
   */
  lemma {:induction false} PushLinesThenBlank(args: seq<string>, repo: Repository, st: LoopState, refspecs: seq<string>, rest: string)
    requires |args| >= 2
    requires forall i :: 0 <= i < |refspecs| ==> |refspecs[i]| > 0 && NoSpace(refspecs[i])
    requires st.batch + AsBatch(refspecs) != []
    ensures Serve(args, repo, st, PushLines(refspecs) + "\n" + rest) ==
      Serve(args, repo, LoopState([], st.stdout + "\n", st.handled + [st.batch + AsBatch(refspecs)]), rest)
    decreases |refspecs|
  {
    if refspecs == [] {
      assert PushLines(refspecs) + "\n" + rest == "" + "\n" + rest;
      assert st.batch + AsBatch(refspecs) == st.batch;
      BlankLine(args, repo, st, "", rest);
    } else {
      var r := refspecs[0];
      var after := PushLines(refspecs[1..]) + "\n" + rest;
      assert PushLines(refspecs) + "\n" + rest == "push" + " " + r + "\n" + after;
      PushOne(args, repo, st, r, after);
      AsBatchCons(st.batch, refspecs);
      PushLinesThenBlank(args, repo, st.(batch := st.batch + [[r]]), refspecs[1..], rest);
    }
  }

  lemma DispatchHandlesNonEmpty(args: seq<string>, repo: Repository, st: LoopState, parts: seq<string>)
    requires forall i :: 0 <= i < |st.handled| ==> st.handled[i] != []
    requires Dispatch(args, repo, st, parts).Some?
    ensures var next := Dispatch(args, repo, st, parts).value;
      forall i :: 0 <= i < |next.handled| ==> next.handled[i] != []
  {
  }

  lemma StepHandlesNonEmpty(args: seq<string>, repo: Repository, st: LoopState, line: string)
    requires forall i :: 0 <= i < |st.handled| ==> st.handled[i] != []
    requires Step(args, repo, st, line).Some?
    ensures var next := Step(args, repo, st, line).value;
      forall i :: 0 <= i < |next.handled| ==> next.handled[i] != []
  {
    DispatchHandlesNonEmpty(args, repo, st, Fields(TrimSpace(line)));
  }

  /** Every batch that reaches `handlePushBatch` is non-empty. */
  lemma {:induction false} HandledBatchesNonEmpty(args: seq<string>, repo: Repository, st: LoopState, input: string)
    requires forall i :: 0 <= i < |st.handled| ==> st.handled[i] != []
    ensures forall i :: 0 <= i < |Serve(args, repo, st, input).1.handled| ==> Serve(args, repo, st, input).1.handled[i] != []
    decreases |input|
  {
    var read := ReadLine(input);
    if read.Some? {
      var next := Step(args, repo, st, read.value.0);
      if next.Some? {
        StepHandlesNonEmpty(args, repo, st, read.value.0);
        HandledBatchesNonEmpty(args, repo, next.value, read.value.1);
      }
    }
  }

  /** A URL the pattern does not match is rejected before standard input is read. */
  lemma BadURLReadsNothing(args: seq<string>, stdin: string)
    requires |args| > 0
    requires ParseURL(if |args| == 1 then args[0] else args[1]).None?
    ensures Run(args, stdin).1 == Start
    ensures var url := if |args| == 1 then args[0] else args[1];
      Run(args, stdin).0 == Failed("URL on invalid format: '" + url + "'")
  {
  }

  lemma CapabilitiesFields()
    ensures Fields("capabilities") == ["capabilities"]
  {
    assert NoSpace("capabilities");
    FieldsCons("capabilities", []);
    assert "capabilities" + [] == "capabilities";
  }

  /**
    Input `capabilities` and a blank line (`capabilities\n\n`, or the same
    with extra white space on either line), read while no batch is pending,
    writes exactly `push\n\n` and hands nothing to `handlePushBatch`.
   */
  lemma CapabilitiesThenBlank(args: seq<string>, repo: Repository, st: LoopState, command: string, blank: string)
    requires st.batch == []
    requires '\n' !in command && Fields(command) == ["capabilities"]
    requires '\n' !in blank && AllSpace(blank)
    ensures Serve(args, repo, st, command + "\n" + (blank + "\n" + "")) == (Done, st.(stdout := st.stdout + "push\n\n"))
  {
    var answered := st.(stdout := st.stdout + "push\n\n");
    CapabilitiesLine(args, repo, st, command, blank + "\n" + "");
    BlankLine(args, repo, answered, blank, "");
    EndOfInput(args, repo, answered, "");
  }

  /** The same exchange from the start of a session, through URL selection. */
  lemma CapabilitiesScenario(args: seq<string>, command: string, blank: string)
    requires |args| > 0
    requires ParseURL(if |args| == 1 then args[0] else args[1]).Some?
    requires '\n' !in command && Fields(command) == ["capabilities"]
    requires '\n' !in blank && AllSpace(blank)
    ensures Run(args, command + "\n" + (blank + "\n" + "")) == (Done, LoopState([], "push\n\n", []))
  {
    var repo := ParseURL(if |args| == 1 then args[0] else args[1]).value;
    CapabilitiesThenBlank(args, repo, Start, command, blank);
    StartAnswered();
  }

  /**
    The state after `capabilities` from the start, stated on its own: the
    same step on literal strings inside the scenario lemma costs the solver
    far more than its resource limit allows.
   */
  lemma StartAnswered()
    ensures Start.(stdout := Start.stdout + "push\n\n") == LoopState([], "push\n\n", [])
  {
  }
}
