/**
 * The machine the instance manager runs on, given as a value: the directories
 * and files it can see, the order in which a directory lists its entries, and
 * what every external command it may run would return.
 */
module Os {
  import opened Wrappers

  /** A file that exists: either text that can be read, or something `open`/`read` fails on. */
  datatype FileData = Readable(content: string) | Unreadable

  /** What a call into `subprocess` gives back: the finished process's exit code and
      captured output, or an exception (timeout, missing program, failed spawn) with its message. */
  datatype Outcome =
    | Completed(returncode: int, stdout: string, stderr: string)
    | Raised(message: string)

  /** A script started with `Popen`: its argument vector, working directory, the text
      written to its stdin (None when stdin is not a pipe), the file its combined
      stdout and stderr go to, and whether it starts a new session. */
  datatype Launch = Launch(argv: seq<string>, cwd: Option<string>, stdin: Option<string>,
                           logFile: string, newSession: bool)

  /** Every external command the manager runs. */
  datatype Command =
    | IsActive(service: string)                           // systemctl is-active <service>
    | StatusDump(service: string)                         // systemctl status <service>
    | Journal(service: string, lines: int)                // journalctl -u <service> -n <lines> --no-pager
    | Tail(lines: int, path: string)                      // tail -n <lines> <path>
    | GrepTail(domain: string, source: string, lines: int) // grep '<domain>' <source> | tail -n <lines>
    | Restart(service: string)                            // sudo systemctl restart <service>
    | Spawn(launch: Launch)                               // Popen, stdin written and closed

  /** For a Spawn of an attached script, Completed carries the exit code after the wait and,
      as stdout, what the log file holds afterwards; for a detached one only Raised versus
      Completed matters. */
  datatype Host = Host(dirs: set<string>, files: map<string, FileData>,
                       listing: map<string, seq<string>>, run: Command -> Outcome)
  {
    /** `os.path.exists`. */
    predicate Exists(p: string) {
      p in dirs || p in files
    }

    /** `os.path.isdir`. */
    predicate IsDir(p: string) {
      p in dirs
    }

    /** `os.listdir`, in the order the directory yields its entries. */
    function ListDir(p: string): seq<string> {
      if p in listing then listing[p] else []
    }

    /** The whole text of the file at `p`, or None when reading it fails. */
    function Read(p: string): (r: Option<string>)
      ensures r.Some? ==> Exists(p)
    {
      if p in files && files[p].Readable? then Some(files[p].content) else None
    }
  }
}
