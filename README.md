# Shell emulator: command dispatch and session loop

This project models the command interpreter of the `ShellEmulator` class in
`main.py`. The class is a small Unix-like shell over an unpacked virtual file
system. It reads lines, trims and splits them, and dispatches on the first
token to `ls`, `cd`, `date`, `help`, `echo`, `chown` or `exit`. It answers
fixed messages for missing arguments and unknown commands, and appends a
timestamped entry to a log for every command.

The model is split into four modules:

- `PyStr` holds the Python string built-ins the interpreter relies on:
  `str.isspace`, `strip`, `split()` without a separator, and the slice `s[n:]`.
- `PosixPath` holds `os.path.join` for two arguments, following the POSIX rule.
- `Shell` is the interpreter as pure functions over an explicit state. The
  state is the current directory (the cursor), the log and the last echoed
  text. `Step` is `run_command`, `Cycle` is one pass of the `start` loop, and
  `Session` is the loop over a sequence of input lines. The lemmas state what
  each command does, including the quirks of the code as written.
- `Emulator` holds the class `ShellEmulator`. It has the object's fields and
  methods that update them in place. Each method is proved against the
  function of `Shell` that specifies it.

The machine the shell runs on is a parameter, `Shell.Host`. It consists of:

- the set of paths that are directories, which may be infinite (`d`, `d/.`, `d/./.` and so on);
- the text `list_directory` returns in a directory;
- the text `change_owner` returns for a directory, a file and an owner.

The clock is a parameter as well: a timestamp string per command, and a
function from line numbers to timestamps for a session. The input is a
sequence of lines.

Some behaviour of the code is unusual but is modelled as written:

- `cd p` calls `change_directory(p)` twice. The log shows the first call. The
  reply and the final directory come from the second call, which starts where
  the first one left the cursor.
- `echo` returns the raw line minus its first five characters, so indentation
  shifts the cut.
- `exit now` answers `Exiting...`, but only a line that strips to `exit` ends
  the loop.

## Model

| member | source | states |
|---|---|---|
| PyStr.LStripSpec | main.py:108 | `lstrip` keeps a suffix of the line. Everything it drops is whitespace, and what it keeps does not start with whitespace. |
| PyStr.RStripSpec | main.py:108 | `rstrip` keeps a prefix of the line. Everything it drops is whitespace, and what it keeps does not end with whitespace. |
| PyStr.StripSpec | main.py:108 | `strip` gives the empty string exactly for a blank line. Otherwise its result begins and ends with a non-space and is no longer than the line. |
| PyStr.Split | main.py:108 | Every token `split()` returns is non-empty and contains no whitespace. |
| PyStr.SplitBlankIff | main.py:108-110 | `split()` returns no tokens if and only if the line is all whitespace. |
| PyStr.SplitLeadingSpace | main.py:108 | Leading whitespace does not change the tokens. |
| PyStr.SplitTrailingSpace | main.py:108 | Trailing whitespace does not change the tokens. |
| PyStr.SplitOfStrip | main.py:108 | `line.strip().split()` gives the same tokens as `line.split()`. |
| PyStr.SplitJoin | main.py:108 | Splitting the space-joined tokens gives the tokens back. |
| PyStr.LStrip | main.py:108 | The body is `str.lstrip()`: leading whitespace is dropped one character at a time. Its contract is `PyStr.LStripSpec`. |
| PyStr.RStrip | main.py:108 | The body is `str.rstrip()`: trailing whitespace is dropped one character at a time. Its contract is `PyStr.RStripSpec`. |
| PyStr.Strip | main.py:108 | The body is `str.strip()`, used on the line before splitting and in the loop's stop test (main.py:158). It is `rstrip` of `lstrip`, and its contract is `PyStr.StripSpec`. |
| PyStr.StripPadded | main.py:158 | `strip` recovers a text from any whitespace padding around it, provided the text does not begin or end with whitespace. |
| PyStr.Drop | main.py:132-133 | `s[n:]` has length `max(0, len(s) - n)` and is a suffix of `s`. |
| PosixPath.Join | main.py:60 | An absolute second part replaces the first. Otherwise the result extends the first part, is strictly longer when the second part is non-empty, and always ends with the second part. |
| Shell.Help | main.py:94-104 | The text `show_help` returns, with one literal per source line, in the source's order. |
| Shell.Render | main.py:120 | How the f-string in the `cd` log entry shows the value of `change_directory`: `None` is shown as the word `None`. |
| Shell.Classify | main.py:112-147 | The `if`/`elif` chain on the first token: one branch per command name, and the fallback for any other token. `ClassifyNames` and `ClassifyUnknown` state it. |
| Shell.Dispatch | main.py:112-147 | The body of each branch: the reply, the text logged, the new cursor and the remembered text. It includes the two calls of `change_directory` in `cd` and the two evaluations of `echo(full_text[5:])`. |
| Shell.Step | main.py:106-147 | `run_command`: a blank line answers `""`, and any other line is dispatched and logged once. The lemmas from `Shell.BlankLine` to `Shell.ExitWithArgument` state its contract. |
| Shell.Cycle | main.py:154-156 | One pass of the `start` loop: the raw line is logged with the user name and the time, then run. `Shell.CycleLog` and `Shell.CycleKeepsDirectory` state its contract. |
| Shell.IsExit | main.py:158 | The loop's stop test: the stripped line equals `exit`. |
| Shell.Session | main.py:149-159 | `start` after `k` input lines: the log is cleared and greeted, then each line goes through `Cycle` in order. The `Session` lemmas state its contract. |
| Shell.ChangeDirectory | main.py:59-65 | A call succeeds if and only if the joined path is a directory. On success it moves the cursor there and returns `Changed directory to <path>`. On failure it returns `None` and leaves the cursor alone. |
| Shell.ClassifyNames | main.py:112-144 | Each command name selects its own branch, and no other token selects that branch. |
| Shell.ClassifyUnknown | main.py:145-147 | The fallback branch is taken exactly for tokens that are not command names. |
| Shell.BlankLine | main.py:108-110 | A blank or whitespace-only line returns `""`. It leaves the cursor, the log and the echoed text unchanged. |
| Shell.StepIsDispatch | main.py:106-112 | A line with tokens is handled by the branch its first token selects, and the effect is logged once. |
| Shell.OneLogEntryPerCommand | main.py:108-147 | A blank line changes nothing. Any other line appends exactly one log entry, starting with the timestamp and a space, and keeps the earlier entries. |
| Shell.DispatchLogsReply | main.py:113-147 | In every branch except a `cd` whose first move succeeds, the log entry carries the rendered reply. |
| Shell.LogShowsReply | main.py:113-147 | For a non-blank line that is not a successful `cd`, the new log is the old log plus `<timestamp> <reply>`. |
| Shell.UnknownCommand | main.py:145-147 | Any other first token returns exactly `<cmd>: command not found` and logs it. Cursor and text are unchanged. |
| Shell.ListIgnoresArguments | main.py:113-115 | `ls` logs and returns the listing of the current directory, whatever arguments follow. |
| Shell.DateReply | main.py:122-124 | `date` logs and returns the timestamp. |
| Shell.HelpReply | main.py:125-127 | `help` logs and returns the help text. |
| Shell.ExitReply | main.py:142-144 | A line whose first token is `exit` logs and returns `Exiting...` and changes nothing else. |
| Shell.CdMissingArgument | main.py:116-119 | A bare `cd` returns `cd: missing argument`, logs it and does not move the cursor. |
| Shell.CdRunsTwice | main.py:116-121 | `cd p` uses only `p`. If the first move fails, the log shows `None`, the reply is `None` and the cursor stays. If it succeeds, the log shows the first move, and the second move starts from the new cursor and decides the reply and the final cursor. |
| Shell.CdNeverReportsFirstMove | main.py:120-121 | Under the POSIX join, a relative `cd` whose first move succeeds never reports that move, and the cursor has left its old place. |
| Shell.CdAbsolute | main.py:120-121 | Under the POSIX join, with an absolute argument, the cursor moves to it exactly when it is a directory, and the reply reports that move. |
| Shell.EchoCutsFive | main.py:128-133 | `echo` with some text returns the raw line minus its first five characters, logs it and remembers it. |
| Shell.EchoMissingText | main.py:129-131 | A bare `echo` returns `echo: missing text` and leaves the remembered text alone. |
| Shell.SplitEchoLine | main.py:108-133 | The line `echo`, one whitespace character and a non-blank text splits into `echo` followed by the text's tokens, and its five-character cut is the text. |
| Shell.SplitIndentedEchoLine | main.py:108-133 | With one character of indentation, the same line still splits into `echo` first, but the cut keeps the separator. |
| Shell.EchoKeepsSpacing | main.py:128-133 | `echo`, one whitespace character and a text returns exactly that text, internal and trailing spacing included. |
| Shell.EchoCountsIndentation | main.py:107-133 | The cut is taken from the unstripped line: an indented `echo` returns the separator together with the text. |
| Shell.ChownUsesFirstTwo | main.py:134-141 | With fewer than two arguments, `chown` returns `chown: missing arguments`. Otherwise it uses the first argument as the file and the second as the owner, ignores the rest, and logs and returns the host's answer. |
| Shell.DispatchFrame | main.py:113-147 | Only `cd` moves the cursor, only after a successful first move, and only into a directory. Only `echo` with text changes the remembered text. |
| Shell.WhatChanges | main.py:106-147 | The same frame property for any input line. |
| Shell.ExitLine | main.py:142-144 | A line that strips to `exit` returns `Exiting...`. |
| Shell.SplitExit | main.py:108 | `exit` splits into the single token `exit`. |
| Shell.ExitWithArgument | main.py:142-159 | Any line whose first token is `exit` and which has further tokens answers `Exiting...`, but it does not strip to `exit`, so the loop does not stop on it. |
| Shell.Consumed | main.py:153-159 | The loop never reads more lines than there are. |
| Shell.ConsumedEndsAtExit | main.py:158-159 | Unless the input runs out, the last line the loop reads strips to `exit`. A non-empty input is read at least once. |
| Shell.ConsumedNoEarlierExit | main.py:158-159 | No line before the last one read strips to `exit`. |
| Shell.SessionNext | main.py:153-159 | One more input line is one more turn: the raw line is logged, then dispatched, and its reply is printed. |
| Shell.CycleLog | main.py:155-156 | A turn first appends `<user> <timestamp> <line>`. It then appends one more entry unless the line is blank, and keeps the earlier entries. |
| Shell.CycleKeepsDirectory | main.py:155-156 | A turn that starts in a directory ends in one. |
| Shell.RunAppendOnly | main.py:153-159 | If no turn shrinks the log, the loop's log and printed values only grow. |
| Shell.RunLogLength | main.py:153-159 | If every turn adds one log entry, plus one for a non-blank line, then after `k` lines there are `k` outputs and the log has grown by `k` plus the number of non-blank lines. |
| Shell.RunKeepsDirectory | main.py:153-159 | If every turn keeps the cursor in a directory, so does the loop. |
| Shell.SessionLogLength | main.py:149-159 | After `k` lines the log holds the greeting, one audit entry per line and one result entry per non-blank line, and `k` values have been printed. |
| Shell.SessionAppendOnly | main.py:149-159 | During a session, the log and the printed values only grow. |
| Shell.SessionCursorStaysDirectory | main.py:149-159 | A session that starts in a directory is always in a directory. |
| Emulator.ShellEmulator.constructor | main.py:10-12 | The session starts in the unpacked file system with no echoed text. The log keeps whatever the file held before. |
| Emulator.ShellEmulator.Prompt | main.py:29-30 | The prompt has length `len(user) + len(path) + 3`. The user name, `:`, the current directory and `$ ` can each be read back from their place in it. |
| Emulator.ShellEmulator.WriteToTheLogFile | main.py:32-37 | Appends exactly the given entry to the log. |
| Emulator.ShellEmulator.ClearLogFile | main.py:39-41 | Empties the log. |
| Emulator.ShellEmulator.ChangeDirectory | main.py:59-65 | Changes `current_path` as `Shell.ChangeDirectory` does, and returns the same value. |
| Emulator.ShellEmulator.Echo | main.py:90-92 | Stores the text and returns it. |
| Emulator.ShellEmulator.RunCommand | main.py:106-111 | Updates the fields and returns as `Shell.Step` does for the line. |
| Emulator.ShellEmulator.RunParts | main.py:112-147 | The branch chain updates the fields and returns as `Shell.Dispatch` and its logging do, with the double calls of `cd` and `echo` made in place. |
| Emulator.ShellEmulator.Turn | main.py:154-156 | Logs the raw line with the user name and the time, then runs it, as `Shell.Cycle` does. |
| Emulator.ShellEmulator.Greet | main.py:150-151 | Leaves the log holding only the timestamped greeting. |
| Emulator.ShellEmulator.Start | main.py:149-159 | Reads exactly `Shell.Consumed(lines)` lines. The final fields and the printed values are those of `Shell.Session` after that many lines. |

## Left out

- `load_config` (main.py:14-27) is not modelled. It reads a configuration file and unpacks a zip archive into a temporary directory, both of which are I/O. The constructor takes the user name, the unpacked directory and the log file's current contents as parameters instead.
- `list_directory` (main.py:43-57) and `change_owner` (main.py:75-85) call `os.listdir` and the Windows security API. Their results are opaque strings chosen by `Shell.Host`.
- Shell.ListIgnoresArguments: the host functions are pure, so the two evaluations of `ls` (main.py:114-115) give the same text, and so do the two of `chown` (main.py:140-141). On a real host they could differ, or `chown` could change the owner before its second evaluation. The host's owner table is not part of the state.
- `remove_directory` (main.py:67-73) is not modelled, because no branch of `run_command` reaches it.
- Shell.Step: `current_date` (main.py:87-88) reads the wall clock. Each command gets one timestamp `now`, which stands for every reading in that command. `date` reads the clock three times (main.py:123-124), and the model takes the readings to agree.
- Writing the log to a file is not modelled: the newline after each entry, the swallowed write errors and the truncation by `clear_log_file`. The log is a sequence of entries.
- Emulator.ShellEmulator.Start: `input` and `print` are not modelled. The input is a sequence of lines, and the printed values are returned. The end of input, which raises an error in the source, ends the model's loop. The greeting printed to the console is not part of the outputs.
- PosixPath.Join: `os.path.join` is modelled by its POSIX rule. The Windows rule (drive letters, backslashes) is not modelled, and `os.path.isdir` is membership in `Shell.Host.dirs`.
- PyStr.IsSpace: whitespace is the set of code points Python's `str.isspace` accepts. No other Unicode processing takes place.
- `tests.py` is not part of this model. It exercises a different, dictionary-backed API (`vfs`, `resolve_path`, `get_date`) that `main.py` does not define.
