/**
 * The command-dispatch state machine of the shell emulator, as pure
 * functions over an explicit state: the current directory (the cursor),
 * the log entries written so far and the last text echoed.
 *
 * The host is abstracted: its file system is the set of paths that are
 * directories, and the results of listing a directory and of changing a
 * file's owner are opaque strings chosen by the host.
 */
module Shell {
  import opened PyStr
  import opened PosixPath

  /** A Python value that is either a string or `None`. */
  datatype Option<T> = None | Some(value: T)

  /** What the shell needs from the machine it runs on. */
  datatype Host = Host(
    dirs: iset<string>,                           // paths for which `os.path.isdir` holds
    listing: string -> string,                    // what `list_directory` returns in a directory
    chown: (string, string, string) -> string)    // what `change_owner` returns (directory, file, owner)

  datatype State = State(cursor: string, log: seq<string>, text: Option<string>)

  /** The state after a call and the value the call returned. */
  datatype Outcome = Outcome(state: State, reply: Option<string>)

  /** The command names `run_command` dispatches on. */
  const Commands: set<string> := {"ls", "cd", "date", "help", "echo", "chown", "exit"}

  /** The lines of the text `show_help` returns, each with its newline. */
  const HelpLines: seq<string> := [
    "Available commands:\n",
    "  ls              - List directory contents\n",
    "  cd <directory>  - Change directory\n",
    "  date            - Show current date and time\n",
    "  echo            - Print text\n",
    "  chown <file> <new_owner> - Change owner of file\n",
    "  help            - Show this help message\n",
    "  exit            - Exit the shell emulator\n"
  ]

  /** The strings of `parts` written one after the other. */
  function Concat(parts: seq<string>): string {
    if parts == [] then [] else parts[0] + Concat(parts[1..])
  }

  /** The text `show_help` returns. */
  function Help(): string {
    Concat(HelpLines)
  }

  const Welcome: string := "Welcome to the Shell Emulator!"

  /** How an f-string shows a returned value: `None` is shown as the word. */
  function Render(v: Option<string>): string {
    match v
    case None => "None"
    case Some(s) => s
  }

  /** A log entry of the form `<timestamp> <text>`. */
  function Stamped(now: string, text: string): string {
    now + " " + text
  }

  /** Appends one entry to the log. */
  function WriteLog(st: State, entry: string): State {
    st.(log := st.log + [entry])
  }

  /** Where the cursor is after a call of `change_directory`, and what it returned. */
  datatype Move = Move(cursor: string, reply: Option<string>)

  /** `change_directory(path)`: moves the cursor to the joined path when that
      is a directory and reports it; otherwise returns `None` and stays. */
  function ChangeDirectory(cursor: string, dirs: iset<string>, path: string): (m: Move)
    ensures m.reply.Some? <==> Join(cursor, path) in dirs
    ensures m.reply.Some? ==>
      m.cursor == Join(cursor, path) && m.reply.value == "Changed directory to " + m.cursor
    ensures m.reply.None? ==> m.cursor == cursor
  {
    var target := Join(cursor, path);
    if target in dirs then Move(target, Some("Changed directory to " + target))
    else Move(cursor, None)
  }

  /** What one non-blank command does: the new cursor and remembered text,
      the text its log entry carries, and the value it returns. */
  datatype Effect = Effect(cursor: string, text: Option<string>, logged: string, reply: Option<string>)

  /** A command that changes nothing, and logs and returns `msg`. */
  function Answer(st: State, msg: string): Effect {
    Effect(st.cursor, st.text, msg, Some(msg))
  }

  /** The branches of `run_command`, one per command name, and the
      fallback for any other first token. */
  datatype Verb = Ls | Cd | Date | ShowHelp | Echo | Chown | Exit | Unknown

  /** The `if`/`elif` chain of `run_command` on the first token. */
  function Classify(cmd: string): Verb {
    if cmd == "ls" then Ls
    else if cmd == "cd" then Cd
    else if cmd == "date" then Date
    else if cmd == "help" then ShowHelp
    else if cmd == "echo" then Echo
    else if cmd == "chown" then Chown
    else if cmd == "exit" then Exit
    else Unknown
  }

  /** The branch of `run_command` chosen by the first token. Both `cd` and
      `echo` evaluate their operation twice: once inside the log entry and
      once for the value returned. */
  function Dispatch(st: State, host: Host, line: string, parts: seq<string>, now: string): Effect
    requires parts != []
  {
    match Classify(parts[0])
    case Ls => Answer(st, host.listing(st.cursor))
    case Cd =>
      if |parts| < 2 then Answer(st, "cd: missing argument")
      else
        var first := ChangeDirectory(st.cursor, host.dirs, parts[1]);
        var second := ChangeDirectory(first.cursor, host.dirs, parts[1]);
        Effect(second.cursor, st.text, Render(first.reply), second.reply)
    case Date => Answer(st, now)
    case ShowHelp => Answer(st, Help())
    case Echo =>
      if |parts| < 2 then Answer(st, "echo: missing text")
      else
        var t := Drop(line, 5);
        Effect(st.cursor, Some(t), t, Some(t))
    case Chown =>
      if |parts| < 3 then Answer(st, "chown: missing arguments")
      else Answer(st, host.chown(st.cursor, parts[1], parts[2]))
    case Exit => Answer(st, "Exiting...")
    case Unknown => Answer(st, parts[0] + ": command not found")
  }

  /** The state and reply once an effect has happened and been logged at `now`. */
  function Apply(st: State, e: Effect, now: string): Outcome {
    Outcome(State(e.cursor, st.log + [Stamped(now, e.logged)], e.text), e.reply)
  }

  /** `run_command(line)` with `now` as the value of every clock reading it
      makes: a blank line answers the empty string and is not logged. */
  function Step(st: State, host: Host, line: string, now: string): Outcome {
    var parts := Split(Strip(line));
    if parts == [] then Outcome(st, Some(""))
    else Apply(st, Dispatch(st, host, line, parts, now), now)
  }

  /** One turn of the session loop: the raw line is logged with the user
      name, then dispatched. */
  function Cycle(st: State, host: Host, user: string, line: string, now: string): Outcome {
    Step(WriteLog(st, user + " " + now + " " + line), host, line, now)
  }

  /** What a session leaves behind: the final state and every value printed. */
  datatype Transcript = Transcript(state: State, outputs: seq<Option<string>>)

  /** The read-handle-print loop over the first `k` input lines, where
      `turn(st, line, j)` handles the `j`-th line (counting from 1). */
  function Run(s: State, turn: (State, string, nat) -> Outcome, lines: seq<string>, k: nat): Transcript
    requires k <= |lines|
    decreases k
  {
    if k == 0 then Transcript(s, [])
    else
      var t := Run(s, turn, lines, k - 1);
      var o := turn(t.state, lines[k - 1], k);
      Transcript(o.state, t.outputs + [o.reply])
  }

  /** The turn of the session loop, with `clock(j)` as the time during the
      `j`-th line. */
  function Turns(host: Host, user: string, clock: nat -> string): (State, string, nat) -> Outcome {
    (st: State, line: string, j: nat) => Cycle(st, host, user, line, clock(j))
  }

  /** The session after its first `k` input lines: the log is cleared and
      greeted with the reading `clock(0)`, then the lines are handled in
      order. */
  function Session(start: State, host: Host, user: string, lines: seq<string>,
                   clock: nat -> string, k: nat): Transcript
    requires k <= |lines|
  {
    Run(start.(log := [Stamped(clock(0), Welcome)]), Turns(host, user, clock), lines, k)
  }

  /** One more line of a session is one more turn of the loop. */
  lemma SessionNext(start: State, host: Host, user: string, lines: seq<string>,
                    clock: nat -> string, k: nat)
    requires k < |lines|
    ensures var t := Session(start, host, user, lines, clock, k);
      var o := Cycle(t.state, host, user, lines[k], clock(k + 1));
      Session(start, host, user, lines, clock, k + 1) == Transcript(o.state, t.outputs + [o.reply])
  {
  }

  /** The condition on which the loop of `start` stops after a line. */
  predicate IsExit(line: string) {
    Strip(line) == "exit"
  }

  /** How many of `lines` the loop of `start` reads: up to and including the
      first that strips to `exit`, or all of them. */
  function Consumed(lines: seq<string>): (n: nat)
    ensures n <= |lines|
  {
    if lines == [] then 0
    else if IsExit(lines[0]) then 1
    else 1 + Consumed(lines[1..])
  }

  /** When the input does not run out, the last line `start` reads is an
      exit line. */
  lemma {:induction false} ConsumedEndsAtExit(lines: seq<string>)
    ensures lines != [] ==> Consumed(lines) > 0
    ensures Consumed(lines) < |lines| ==> Consumed(lines) > 0 && IsExit(lines[Consumed(lines) - 1])
    decreases |lines|
  {
    if lines != [] && !IsExit(lines[0]) {
      var rest := lines[1..];
      ConsumedEndsAtExit(rest);
      if Consumed(lines) < |lines| {
        assert lines[Consumed(lines) - 1] == rest[Consumed(rest) - 1];
      }
    }
  }

  /** No line before the last one `start` reads is an exit line. */
  lemma {:induction false} ConsumedNoEarlierExit(lines: seq<string>, j: nat)
    requires j < Consumed(lines) - 1
    ensures !IsExit(lines[j])
    decreases j
  {
    if j > 0 {
      ConsumedNoEarlierExit(lines[1..], j - 1);
      assert lines[j] == lines[1..][j - 1];
    }
  }

  /** The number of lines among `lines` that are not blank. */
  function NonBlank(lines: seq<string>): nat {
    if lines == [] then 0
    else NonBlank(lines[..|lines| - 1]) + (if AllSpace(lines[|lines| - 1]) then 0 else 1)
  }

  // ---------------------------------------------------------------------
  // Properties of one command

  /** Each command name selects its own branch, and no other token does. */
  lemma ClassifyNames(cmd: string)
    ensures Classify(cmd) == Ls <==> cmd == "ls"
    ensures Classify(cmd) == Cd <==> cmd == "cd"
    ensures Classify(cmd) == Date <==> cmd == "date"
    ensures Classify(cmd) == ShowHelp <==> cmd == "help"
    ensures Classify(cmd) == Echo <==> cmd == "echo"
    ensures Classify(cmd) == Chown <==> cmd == "chown"
    ensures Classify(cmd) == Exit <==> cmd == "exit"
  {
  }

  /** The fallback branch is taken exactly for the tokens that are not
      command names. */
  lemma ClassifyUnknown(cmd: string)
    ensures Classify(cmd) == Unknown <==> cmd !in Commands
  {
  }

  /** A blank line answers the empty string and changes nothing. */
  lemma BlankLine(st: State, host: Host, line: string, now: string)
    requires AllSpace(line)
    ensures Step(st, host, line, now) == Outcome(st, Some(""))
  {
    StripSpec(line);
  }

  /** A line with tokens is handled by the branch its first token selects,
      and its effect is logged once. */
  lemma StepIsDispatch(st: State, host: Host, line: string, now: string)
    requires Split(line) != []
    ensures Step(st, host, line, now) == Apply(st, Dispatch(st, host, line, Split(line), now), now)
  {
    SplitOfStrip(line);
  }

  /** Only a blank line leaves the log alone; every other line adds exactly
      one entry, stamped with the time. */
  lemma OneLogEntryPerCommand(st: State, host: Host, line: string, now: string)
    ensures var o := Step(st, host, line, now);
      if AllSpace(line) then o == Outcome(st, Some(""))
      else
        |o.state.log| == |st.log| + 1 && o.state.log[..|st.log|] == st.log &&
        now + " " <= o.state.log[|st.log|]
  {
    if AllSpace(line) {
      BlankLine(st, host, line, now);
    } else {
      SplitBlankIff(line);
      StepIsDispatch(st, host, line, now);
      var e := Dispatch(st, host, line, Split(line), now);
      assert (st.log + [Stamped(now, e.logged)])[..|st.log|] == st.log;
    }
  }

  /** Every branch but a `cd` whose first move succeeds logs what it returns. */
  lemma DispatchLogsReply(st: State, host: Host, line: string, parts: seq<string>, now: string)
    requires parts != []
    requires !(Classify(parts[0]) == Cd && |parts| >= 2 && Join(st.cursor, parts[1]) in host.dirs)
    ensures var e := Dispatch(st, host, line, parts, now); e.logged == Render(e.reply)
  {
  }

  /** The log entry is the timestamped reply, except after a `cd` whose
      first move succeeded: that one logs the first move and returns the
      second. */
  lemma LogShowsReply(st: State, host: Host, line: string, now: string)
    requires !AllSpace(line)
    requires !(|Split(line)| >= 2 && Split(line)[0] == "cd" && Join(st.cursor, Split(line)[1]) in host.dirs)
    ensures var o := Step(st, host, line, now);
      o.state.log == st.log + [Stamped(now, Render(o.reply))]
  {
    SplitBlankIff(line);
    StepIsDispatch(st, host, line, now);
    ClassifyNames(Split(line)[0]);
    DispatchLogsReply(st, host, line, Split(line), now);
  }

  /** Any other first token is answered as not found. */
  lemma UnknownCommand(st: State, host: Host, line: string, now: string)
    requires Split(line) != [] && Split(line)[0] !in Commands
    ensures var msg := Split(line)[0] + ": command not found";
      Step(st, host, line, now) == Outcome(WriteLog(st, Stamped(now, msg)), Some(msg))
  {
    StepIsDispatch(st, host, line, now);
    ClassifyUnknown(Split(line)[0]);
  }

  /** `ls` lists the current directory whatever follows it. */
  lemma ListIgnoresArguments(st: State, host: Host, line: string, now: string)
    requires Split(line) != [] && Split(line)[0] == "ls"
    ensures Step(st, host, line, now) ==
      Outcome(WriteLog(st, Stamped(now, host.listing(st.cursor))), Some(host.listing(st.cursor)))
  {
    StepIsDispatch(st, host, line, now);
    ClassifyNames("ls");
  }

  lemma DateReply(st: State, host: Host, line: string, now: string)
    requires Split(line) != [] && Split(line)[0] == "date"
    ensures Step(st, host, line, now) == Outcome(WriteLog(st, Stamped(now, now)), Some(now))
  {
    StepIsDispatch(st, host, line, now);
    ClassifyNames("date");
  }

  lemma HelpReply(st: State, host: Host, line: string, now: string)
    requires Split(line) != [] && Split(line)[0] == "help"
    ensures Step(st, host, line, now) == Outcome(WriteLog(st, Stamped(now, Help())), Some(Help()))
  {
    StepIsDispatch(st, host, line, now);
    ClassifyNames("help");
  }

  lemma ExitReply(st: State, host: Host, line: string, now: string)
    requires Split(line) != [] && Split(line)[0] == "exit"
    ensures Step(st, host, line, now) ==
      Outcome(WriteLog(st, Stamped(now, "Exiting...")), Some("Exiting..."))
  {
    StepIsDispatch(st, host, line, now);
    ClassifyNames("exit");
  }

  lemma CdMissingArgument(st: State, host: Host, line: string, now: string)
    requires Split(line) == ["cd"]
    ensures Step(st, host, line, now) ==
      Outcome(WriteLog(st, Stamped(now, "cd: missing argument")), Some("cd: missing argument"))
  {
    StepIsDispatch(st, host, line, now);
    ClassifyNames("cd");
  }

  /** `cd p` changes directory twice with the same argument: the log shows
      the first attempt, the reply and the final cursor come from the second,
      which starts where the first one left the cursor. Arguments after `p`
      are ignored. */
  lemma CdRunsTwice(st: State, host: Host, line: string, now: string)
    requires |Split(line)| >= 2 && Split(line)[0] == "cd"
    ensures var p := Split(line)[1];
      var o := Step(st, host, line, now);
      var first := Join(st.cursor, p);
      var second := Join(first, p);
      && o.state.text == st.text
      && (first !in host.dirs ==> o == Outcome(WriteLog(st, Stamped(now, "None")), None))
      && (first in host.dirs ==> o.state.log == st.log + [Stamped(now, "Changed directory to " + first)])
      && (first in host.dirs && second in host.dirs ==>
            o.state.cursor == second && o.reply == Some("Changed directory to " + second))
      && (first in host.dirs && second !in host.dirs ==>
            o.state.cursor == first && o.reply == None)
  {
    StepIsDispatch(st, host, line, now);
    ClassifyNames("cd");
  }

  /** With a relative argument, a `cd` whose first move succeeds never
      reports that move: it either answers `None` or reports a second,
      deeper move. Either way the cursor has left its old place. */
  lemma CdNeverReportsFirstMove(st: State, host: Host, line: string, now: string)
    requires |Split(line)| >= 2 && Split(line)[0] == "cd"
    requires !IsAbsolute(Split(line)[1]) && Join(st.cursor, Split(line)[1]) in host.dirs
    ensures var o := Step(st, host, line, now);
      o.reply != Some("Changed directory to " + Join(st.cursor, Split(line)[1])) &&
      o.state.cursor != st.cursor
  {
    var p := Split(line)[1];
    var first := Join(st.cursor, p);
    var second := Join(first, p);
    assert IsWord(p);
    assert |st.cursor| < |first| < |second|;
    CdRunsTwice(st, host, line, now);
    if second in host.dirs {
      assert |"Changed directory to " + first| < |"Changed directory to " + second|;
    }
  }

  /** With an absolute argument the double call is harmless: the cursor
      moves to the argument exactly when it is a directory, and the reply
      reports that move. */
  lemma CdAbsolute(st: State, host: Host, line: string, now: string)
    requires |Split(line)| >= 2 && Split(line)[0] == "cd" && IsAbsolute(Split(line)[1])
    ensures var p := Split(line)[1];
      var o := Step(st, host, line, now);
      (p in host.dirs ==> o.state.cursor == p && o.reply == Some("Changed directory to " + p)) &&
      (p !in host.dirs ==> o.state.cursor == st.cursor && o.reply == None)
  {
    CdRunsTwice(st, host, line, now);
  }

  /** `echo` with some text answers the raw line minus its first five
      characters, and remembers that text. */
  lemma EchoCutsFive(st: State, host: Host, line: string, now: string)
    requires |Split(line)| >= 2 && Split(line)[0] == "echo"
    ensures var t := Drop(line, 5);
      Step(st, host, line, now) == Outcome(WriteLog(st.(text := Some(t)), Stamped(now, t)), Some(t))
  {
    StepIsDispatch(st, host, line, now);
    ClassifyNames("echo");
  }

  lemma EchoMissingText(st: State, host: Host, line: string, now: string)
    requires Split(line) == ["echo"]
    ensures Step(st, host, line, now) ==
      Outcome(WriteLog(st, Stamped(now, "echo: missing text")), Some("echo: missing text"))
  {
    StepIsDispatch(st, host, line, now);
    ClassifyNames("echo");
  }

  lemma SplitEchoLine(c: char, rest: string)
    requires IsSpace(c) && !AllSpace(rest)
    ensures Split("echo" + [c] + rest) == ["echo"] + Split(rest)
    ensures |Split("echo" + [c] + rest)| >= 2
    ensures Drop("echo" + [c] + rest, 5) == rest
  {
    var line := "echo" + [c] + rest;
    assert line == "echo" + ([c] + rest);
    WordPrefixStops("echo", [c] + rest);
    assert line[4..] == [c] + rest;
    assert ([c] + rest)[1..] == rest;
    SplitBlankIff(rest);
  }

  lemma SplitIndentedEchoLine(b: char, c: char, rest: string)
    requires IsSpace(b) && IsSpace(c) && !AllSpace(rest)
    ensures Split([b] + "echo" + [c] + rest) == ["echo"] + Split(rest)
    ensures |Split([b] + "echo" + [c] + rest)| >= 2
    ensures Drop([b] + "echo" + [c] + rest, 5) == [c] + rest
  {
    var word := "echo" + [c] + rest;
    var line := [b] + word;
    assert [b] + "echo" + [c] + rest == line;
    assert AllSpace([b]);
    SplitEchoLine(c, rest);
    SplitLeadingSpace([b], word);
    assert word == "echo" + ([c] + rest);
    assert word[4..] == [c] + rest;
    assert line[5..] == word[4..];
  }

  /** `echo`, one whitespace character and a text answer exactly that text,
      internal and trailing spacing included. */
  lemma EchoKeepsSpacing(st: State, host: Host, c: char, rest: string, now: string)
    requires IsSpace(c) && !AllSpace(rest)
    ensures Step(st, host, "echo" + [c] + rest, now).reply == Some(rest)
  {
    SplitEchoLine(c, rest);
    EchoCutsFive(st, host, "echo" + [c] + rest, now);
  }

  /** The cut is taken from the line as typed: with one whitespace character
      of indentation, the separator after `echo` stays in the reply. */
  lemma EchoCountsIndentation(st: State, host: Host, b: char, c: char, rest: string, now: string)
    requires IsSpace(b) && IsSpace(c) && !AllSpace(rest)
    ensures Step(st, host, [b] + "echo" + [c] + rest, now).reply == Some([c] + rest)
  {
    SplitIndentedEchoLine(b, c, rest);
    EchoCutsFive(st, host, [b] + "echo" + [c] + rest, now);
  }

  /** `chown` needs a file and an owner; it uses the first two arguments
      and ignores the rest. */
  lemma ChownUsesFirstTwo(st: State, host: Host, line: string, now: string)
    requires Split(line) != [] && Split(line)[0] == "chown"
    ensures |Split(line)| < 3 ==>
      Step(st, host, line, now) ==
      Outcome(WriteLog(st, Stamped(now, "chown: missing arguments")), Some("chown: missing arguments"))
    ensures |Split(line)| >= 3 ==>
      var r := host.chown(st.cursor, Split(line)[1], Split(line)[2]);
      Step(st, host, line, now) == Outcome(WriteLog(st, Stamped(now, r)), Some(r))
  {
    StepIsDispatch(st, host, line, now);
    ClassifyNames("chown");
  }

  /** Only the `cd` branch moves the cursor, only after a successful first
      move, and only into a directory; only the `echo` branch changes the
      remembered text. */
  lemma DispatchFrame(st: State, host: Host, line: string, parts: seq<string>, now: string)
    requires parts != []
    ensures var e := Dispatch(st, host, line, parts, now);
      && (e.cursor != st.cursor ==>
            Classify(parts[0]) == Cd && |parts| >= 2 && Join(st.cursor, parts[1]) in host.dirs &&
            e.cursor in host.dirs)
      && (e.text != st.text ==> Classify(parts[0]) == Echo && |parts| >= 2)
  {
  }

  /** Only a `cd` whose first move succeeds moves the cursor, and it moves
      it into a directory; only an `echo` with text changes the remembered
      text. */
  lemma WhatChanges(st: State, host: Host, line: string, now: string)
    ensures var o := Step(st, host, line, now);
      && (o.state.cursor != st.cursor ==>
            |Split(line)| >= 2 && Split(line)[0] == "cd" && Join(st.cursor, Split(line)[1]) in host.dirs &&
            o.state.cursor in host.dirs)
      && (o.state.text != st.text ==> |Split(line)| >= 2 && Split(line)[0] == "echo")
  {
    SplitOfStrip(line);
    if Split(line) != [] {
      StepIsDispatch(st, host, line, now);
      ClassifyNames(Split(line)[0]);
      DispatchFrame(st, host, line, Split(line), now);
    }
  }

  /** A line that strips to `exit` answers the farewell. */
  lemma ExitLine(st: State, host: Host, line: string, now: string)
    requires Strip(line) == "exit"
    ensures Step(st, host, line, now) ==
      Outcome(WriteLog(st, Stamped(now, "Exiting...")), Some("Exiting..."))
  {
    SplitExit();
    SplitOfStrip(line);
    ExitReply(st, host, line, now);
  }

  lemma SplitExit()
    ensures Split("exit") == ["exit"]
  {
    assert IsWord("exit");
    SplitJoin(["exit"]);
  }

  /** `exit` followed by arguments also answers the farewell, but does not
      strip to `exit`, so the session loop carries on after it. */
  lemma ExitWithArgument(st: State, host: Host, line: string, now: string)
    requires |Split(line)| >= 2 && Split(line)[0] == "exit"
    ensures Step(st, host, line, now).reply == Some("Exiting...")
    ensures !IsExit(line)
  {
    ExitReply(st, host, line, now);
    SplitOfStrip(line);
    SplitExit();
  }

  // ---------------------------------------------------------------------
  // Properties of a session

  /** A turn logs the raw line, with user name and time, before anything
      else; then one more entry unless the line is blank. */
  lemma CycleLog(st: State, host: Host, user: string, line: string, now: string)
    ensures var o := Cycle(st, host, user, line, now);
      |o.state.log| == |st.log| + (if AllSpace(line) then 1 else 2) &&
      o.state.log[..|st.log|] == st.log &&
      o.state.log[|st.log|] == user + " " + now + " " + line
  {
    var logged := WriteLog(st, user + " " + now + " " + line);
    OneLogEntryPerCommand(logged, host, line, now);
    assert logged.log[..|st.log|] == st.log;
  }

  /** A turn that starts in a directory ends in one. */
  lemma CycleKeepsDirectory(st: State, host: Host, user: string, line: string, now: string)
    requires st.cursor in host.dirs
    ensures Cycle(st, host, user, line, now).state.cursor in host.dirs
  {
    WhatChanges(WriteLog(st, user + " " + now + " " + line), host, line, now);
  }

  /** When no turn shrinks the log or forgets what was printed, neither does the loop. */
  lemma {:induction false} RunAppendOnly(s: State, turn: (State, string, nat) -> Outcome,
                                         lines: seq<string>, j: nat, k: nat)
    requires j <= k <= |lines|
    requires forall st: State, line: string, i: nat :: st.log <= turn(st, line, i).state.log
    ensures Run(s, turn, lines, j).state.log <= Run(s, turn, lines, k).state.log
    ensures Run(s, turn, lines, j).outputs <= Run(s, turn, lines, k).outputs
    decreases k
  {
    if j < k {
      RunAppendOnly(s, turn, lines, j, k - 1);
    }
  }

  /** When every turn adds one log entry, plus one for a non-blank line,
      the loop adds them all up. */
  lemma {:induction false} RunLogLength(s: State, turn: (State, string, nat) -> Outcome,
                                        lines: seq<string>, k: nat)
    requires k <= |lines|
    requires forall st: State, line: string, i: nat ::
      |turn(st, line, i).state.log| == |st.log| + (if AllSpace(line) then 1 else 2)
    ensures |Run(s, turn, lines, k).outputs| == k
    ensures |Run(s, turn, lines, k).state.log| == |s.log| + k + NonBlank(lines[..k])
  {
    if k > 0 {
      RunLogLength(s, turn, lines, k - 1);
      assert lines[..k][..k - 1] == lines[..k - 1];
    }
  }

  /** When every turn keeps the cursor in a directory, so does the loop. */
  lemma {:induction false} RunKeepsDirectory(s: State, turn: (State, string, nat) -> Outcome,
                                             dirs: iset<string>, lines: seq<string>, k: nat)
    requires k <= |lines| && s.cursor in dirs
    requires forall st: State, line: string, i: nat :: st.cursor in dirs ==> turn(st, line, i).state.cursor in dirs
    ensures Run(s, turn, lines, k).state.cursor in dirs
  {
    if k > 0 {
      RunKeepsDirectory(s, turn, dirs, lines, k - 1);
    }
  }

  /** After `k` lines the log holds the greeting, one audit entry per line
      and one result entry per non-blank line; one value was printed per line. */
  lemma SessionLogLength(start: State, host: Host, user: string, lines: seq<string>,
                         clock: nat -> string, k: nat)
    requires k <= |lines|
    ensures var t := Session(start, host, user, lines, clock, k);
      |t.outputs| == k && |t.state.log| == 1 + k + NonBlank(lines[..k])
  {
    var turn := Turns(host, user, clock);
    forall st: State, line: string, i: nat
      ensures |turn(st, line, i).state.log| == |st.log| + (if AllSpace(line) then 1 else 2)
    {
      CycleLog(st, host, user, line, clock(i));
    }
    RunLogLength(start.(log := [Stamped(clock(0), Welcome)]), turn, lines, k);
  }

  /** The log and the printed values only grow during a session. */
  lemma SessionAppendOnly(start: State, host: Host, user: string, lines: seq<string>,
                          clock: nat -> string, j: nat, k: nat)
    requires j <= k <= |lines|
    ensures var a := Session(start, host, user, lines, clock, j);
      var b := Session(start, host, user, lines, clock, k);
      a.state.log <= b.state.log && a.outputs <= b.outputs
  {
    var turn := Turns(host, user, clock);
    forall st: State, line: string, i: nat ensures st.log <= turn(st, line, i).state.log {
      CycleLog(st, host, user, line, clock(i));
    }
    RunAppendOnly(start.(log := [Stamped(clock(0), Welcome)]), turn, lines, j, k);
  }

  /** A session that starts in a directory is always in a directory. */
  lemma SessionCursorStaysDirectory(start: State, host: Host, user: string,
                                    lines: seq<string>, clock: nat -> string, k: nat)
    requires k <= |lines| && start.cursor in host.dirs
    ensures Session(start, host, user, lines, clock, k).state.cursor in host.dirs
  {
    var turn := Turns(host, user, clock);
    forall st: State, line: string, i: nat | st.cursor in host.dirs ensures turn(st, line, i).state.cursor in host.dirs {
      CycleKeepsDirectory(st, host, user, line, clock(i));
    }
    RunKeepsDirectory(start.(log := [Stamped(clock(0), Welcome)]), turn, host.dirs, lines, k);
  }
}
