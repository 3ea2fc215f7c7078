/**
 * The `ShellEmulator` object: its fields, the methods that update them in
 * place, and the `start` loop. Each method is proved against the pure
 * definitions of module `Shell`, which carry the properties.
 */
module Emulator {
  import opened PyStr
  import opened PosixPath
  import opened Shell

  class ShellEmulator {
    var username: string
    var currentPath: string
    var log: seq<string>        // the lines of the log file
    var text: Option<string>    // set by `echo`; `None` until the first echo

    /** The part of the object that commands read and change. */
    function Snapshot(): State
      reads this
    {
      State(currentPath, log, text)
    }

    /** `init`, once the configuration has been read and the file system
        unpacked into `vfsPath`: the session starts there. The log file is
        left as it was, holding `logFile`. */
    constructor (username: string, vfsPath: string, logFile: seq<string>)
      ensures this.username == username && currentPath == vfsPath
      ensures log == logFile && text == None
    {
      this.username := username;
      currentPath := vfsPath;
      log := logFile;
      text := None;
    }

    /** `prompt`: the user name, a colon, the current directory and `$ `;
        each part can be read back from its place in the prompt. */
    function Prompt(): (p: string)
      reads this
      ensures |p| == |username| + |currentPath| + 3
      ensures p[..|username|] == username && p[|username|] == ':'
      ensures p[|username| + 1..|p| - 2] == currentPath && p[|p| - 2..] == "$ "
    {
      username + ":" + currentPath + "$ "
    }

    /** `write_to_the_log_file`: appends one entry. */
    method WriteToTheLogFile(entry: string)
      modifies this`log
      ensures log == old(log) + [entry]
    {
      log := log + [entry];
    }

    /** `clear_log_file`. */
    method ClearLogFile()
      modifies this`log
      ensures log == []
    {
      log := [];
    }

    /** `change_directory`. */
    method ChangeDirectory(dirs: iset<string>, path: string) returns (r: Option<string>)
      modifies this`currentPath
      ensures Move(currentPath, r) == Shell.ChangeDirectory(old(currentPath), dirs, path)
    {
      var newPath := Join(currentPath, path);
      if newPath in dirs {
        currentPath := newPath;
        r := Some("Changed directory to " + newPath);
      } else {
        r := None;
      }
    }

    /** `echo`: remembers the text and returns it. */
    method Echo(t: string) returns (r: string)
      modifies this`text
      ensures text == Some(t) && r == t
    {
      text := Some(t);
      r := t;
    }

    /** `run_command`, with `now` as the value of every clock reading. */
    method RunCommand(host: Host, command: string, now: string) returns (r: Option<string>)
      modifies this`currentPath, this`log, this`text
      ensures Outcome(Snapshot(), r) == Step(old(Snapshot()), host, command, now)
    {
      var fullText := command;
      var parts := Split(Strip(command));
      if parts == [] {
        return Some("");
      }
      r := RunParts(host, fullText, parts, now);
    }

    /** The branches of `run_command` once the line has been split into
        `parts`; `fullText` is the line as typed. */
    method RunParts(host: Host, fullText: string, parts: seq<string>, now: string) returns (r: Option<string>)
      requires parts != []
      modifies this`currentPath, this`log, this`text
      ensures Outcome(Snapshot(), r) ==
        Apply(old(Snapshot()), Shell.Dispatch(old(Snapshot()), host, fullText, parts, now), now)
    {
      var cmd := parts[0];
      ClassifyNames(cmd);
      if cmd == "ls" {
        WriteToTheLogFile(Stamped(now, host.listing(currentPath)));
        r := Some(host.listing(currentPath));
      } else if cmd == "cd" {
        if |parts| < 2 {
          WriteToTheLogFile(Stamped(now, "cd: missing argument"));
          return Some("cd: missing argument");
        }
        var first := ChangeDirectory(host.dirs, parts[1]);
        WriteToTheLogFile(Stamped(now, Render(first)));
        r := ChangeDirectory(host.dirs, parts[1]);
      } else if cmd == "date" {
        WriteToTheLogFile(Stamped(now, now));
        r := Some(now);
      } else if cmd == "help" {
        WriteToTheLogFile(Stamped(now, Help()));
        r := Some(Help());
      } else if cmd == "echo" {
        if |parts| < 2 {
          WriteToTheLogFile(Stamped(now, "echo: missing text"));
          return Some("echo: missing text");
        }
        var logged := Echo(Drop(fullText, 5));
        WriteToTheLogFile(Stamped(now, logged));
        var echoed := Echo(Drop(fullText, 5));
        r := Some(echoed);
      } else if cmd == "chown" {
        if |parts| < 3 {
          WriteToTheLogFile(Stamped(now, "chown: missing arguments"));
          return Some("chown: missing arguments");
        }
        var filename := parts[1];
        var newOwner := parts[2];
        WriteToTheLogFile(Stamped(now, host.chown(currentPath, filename, newOwner)));
        r := Some(host.chown(currentPath, filename, newOwner));
      } else if cmd == "exit" {
        WriteToTheLogFile(Stamped(now, "Exiting..."));
        r := Some("Exiting...");
      } else {
        ClassifyUnknown(cmd);
        WriteToTheLogFile(Stamped(now, cmd + ": command not found"));
        r := Some(cmd + ": command not found");
      }
    }

    /** One pass of the loop in `start`: the raw line is logged with the
        user name and the time, then run. */
    method Turn(host: Host, command: string, now: string) returns (output: Option<string>)
      modifies this`currentPath, this`log, this`text
      ensures Outcome(Snapshot(), output) == Cycle(old(Snapshot()), host, username, command, now)
    {
      WriteToTheLogFile(username + " " + now + " " + command);
      output := RunCommand(host, command, now);
    }

    /** The first two actions of `start`: the log is cleared and the
        greeting written to it, stamped with `now`. */
    method Greet(now: string)
      modifies this`log
      ensures log == [Stamped(now, Welcome)]
    {
      ClearLogFile();
      WriteToTheLogFile(Stamped(now, Welcome));
    }

    /** `start`: clears the log, greets, then reads, logs and runs lines
        until one strips to `exit` or the input runs out. `clock(0)` is the
        time of the greeting and `clock(j)` the time during the `j`-th line. */
    method Start(host: Host, lines: seq<string>, clock: nat -> string) returns (outputs: seq<Option<string>>)
      modifies this`currentPath, this`log, this`text
      ensures |outputs| == Consumed(lines)
      ensures Transcript(Snapshot(), outputs) == Session(old(Snapshot()), host, username, lines, clock, |outputs|)
    {
      Greet(clock(0));
      outputs := [];
      var k := 0;
      while k < |lines|
        invariant 0 <= k <= |lines| && |outputs| == k
        invariant Consumed(lines) == k + Consumed(lines[k..])
        invariant Transcript(Snapshot(), outputs) == Session(old(Snapshot()), host, username, lines, clock, k)
        decreases |lines| - k
      {
        SessionNext(old(Snapshot()), host, username, lines, clock, k);
        var command := lines[k];
        assert lines[k..] == [command] + lines[k + 1..];
        var output := Turn(host, command, clock(k + 1));
        outputs := outputs + [output];
        k := k + 1;
        if IsExit(command) {
          break;
        }
      }
    }
  }
}
