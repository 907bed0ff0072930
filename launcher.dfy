/**
 * The operations that start a shell script: which script, with which arguments,
 * working directory and answers on standard input, which log file it writes,
 * and the reply the manager gives. Whether the start succeeded and, for the
 * attached deletion, its exit code and log come from the host.
 */
module Launcher {
  import opened Wrappers
  import opened Text
  import opened Os
  import opened Registry

  datatype Operation = CreateDev | Delete | UpdateDb | UpdateFiles | SyncFilestore | RegenerateAssets

  function Tag(op: Operation): (tag: string) {
    match op
    case CreateDev => "create-dev"
    case Delete => "delete"
    case UpdateDb => "update-db"
    case UpdateFiles => "update-files"
    case SyncFilestore => "sync-filestore"
    case RegenerateAssets => "regenerate-assets"
  }

  const LogPrefix := "/tmp/odoo-"
  const LogSuffix := ".log"

  /** The file an operation's script writes its output to. */
  function LogPath(op: Operation, name: string): (path: string) {
    LogPrefix + Tag(op) + "-" + name + LogSuffix
  }

  /** Recovers the operation and the instance name from a log path. */
  function ParseLogPath(p: string): (parsed: Option<(Operation, string)>)
  {
    if |p| < |LogPrefix| + |LogSuffix| || p[..|LogPrefix|] != LogPrefix || p[|p| - |LogSuffix|..] != LogSuffix then None
    else ParseTagged(p[|LogPrefix|..|p| - |LogSuffix|])
  }

  /** Recovers the operation and the instance name from `<tag>-<name>`. */
  function ParseTagged(mid: string): (parsed: Option<(Operation, string)>)
  {
    if Tag(CreateDev) + "-" <= mid then Some((CreateDev, mid[|Tag(CreateDev)| + 1..]))
    else if Tag(Delete) + "-" <= mid then Some((Delete, mid[|Tag(Delete)| + 1..]))
    else if Tag(UpdateDb) + "-" <= mid then Some((UpdateDb, mid[|Tag(UpdateDb)| + 1..]))
    else if Tag(UpdateFiles) + "-" <= mid then Some((UpdateFiles, mid[|Tag(UpdateFiles)| + 1..]))
    else if Tag(SyncFilestore) + "-" <= mid then Some((SyncFilestore, mid[|Tag(SyncFilestore)| + 1..]))
    else if Tag(RegenerateAssets) + "-" <= mid then Some((RegenerateAssets, mid[|Tag(RegenerateAssets)| + 1..]))
    else None
  }

  // ---------------------------------------------------------------------------
  // Answers on standard input

  predicate NoNewline(s: string) {
    forall i :: 0 <= i < |s| ==> s[i] != '\n'
  }

  /** The text written to a script's stdin: each answer followed by a newline. */
  function StdinText(answers: seq<string>): (text: string) {
    if answers == [] then "" else answers[0] + "\n" + StdinText(answers[1..])
  }

  /** Index of the first newline at or after `i`, or the length of `t`. */
  function LineEnd(t: string, i: nat): (k: nat)
    requires i <= |t|
    ensures i <= k <= |t| && (k < |t| ==> t[k] == '\n')
    decreases |t| - i
  {
    if i == |t| || t[i] == '\n' then i else LineEnd(t, i + 1)
  }

  /** The lines a script reads one `read` at a time. */
  function Lines(t: string): (lines: seq<string>)
    decreases |t|
  {
    if t == [] then []
    else
      var k := LineEnd(t, 0);
      if k == |t| then [t] else [t[..k]] + Lines(t[k + 1..])
  }

  /** The answers each script is given: a confirmation `s`; for the database update also
      whether to neutralise; for deletion the name without `dev-` and the confirmation
      `BORRAR<name>`; none for asset regeneration, which runs with `--force`. */
  function Answers(op: Operation, name: string, neutralize: bool): (answers: Option<seq<string>>) {
    match op
    case CreateDev => Some(["s"])
    case Delete => Some([DeleteName(name), "BORRAR" + name])
    case UpdateDb => Some(["s", if neutralize then "s" else "n"])
    case UpdateFiles => Some(["s"])
    case SyncFilestore => Some(["s"])
    case RegenerateAssets => None
  }

  /** The name with every `dev-` removed, not only a leading one. */
  function DeleteName(name: string): (stripped: string) {
    ReplaceAll(name, "dev-", "")
  }

  function Stdin(op: Operation, name: string, neutralize: bool): (stdin: Option<string>) {
    var a := Answers(op, name, neutralize);
    if a.Some? then Some(StdinText(a.value)) else None
  }

  // ---------------------------------------------------------------------------
  // Replies

  /** The dictionary an operation returns: `success: True` with a message (and, for
      launched scripts, the log file and for the database update the neutralisation flag),
      or `success: False` with an error (and, for a failed deletion, the log's text). */
  datatype OpReply =
    | Ok(message: string, logFile: Option<string>, neutralize: Option<bool>)
    | Fail(error: string, log: Option<string>)

  const CreateScript := "odoo/create-dev-instance.sh"
  const RemoveScript := "odoo/remove-dev-instance.sh"
  const CentralScript := "/home/go/api-dev/scripts/odoo/regenerate-assets.sh"

  /** A detached script was started: any exception while opening its log or spawning it
      becomes the error; otherwise the reply points at its log. */
  function Started(host: Host, launch: Launch, message: string, neutralize: Option<bool>): (reply: OpReply) {
    match host.run(Spawn(launch))
    case Raised(m) => Fail(m, None)
    case Completed(_, _, _) => Ok(message, Some(launch.logFile), neutralize)
  }

  function CreateDevLaunch(script: string, name: string, email: Option<string>): (launch: Launch) {
    var extra := if email.Some? && email.value != "" then [email.value] else [];
    Launch(["/bin/bash", script, name] + extra, None, Stdin(CreateDev, name, false),
           LogPath(CreateDev, name), true)
  }

  /** `create_dev_instance`. */
  function CreateDevReply(host: Host, scriptsPath: string, name: string, email: Option<string>): (reply: OpReply) {
    var script := Join(scriptsPath, CreateScript);
    if !host.Exists(script) then Fail("Script de creación no encontrado", None)
    else
      Started(host, CreateDevLaunch(script, name, email),
              "Creación de instancia " + name + " iniciada. Ver logs: " + LogPath(CreateDev, name), None)
  }

  function DeleteLaunch(script: string, name: string): (launch: Launch) {
    Launch(["/bin/bash", script], None, Stdin(Delete, name, false), LogPath(Delete, name), false)
  }

  /** `delete_instance`: the script runs attached and is waited for; its exit code
      decides the reply, and a failure carries what its log holds. */
  function DeleteReply(host: Host, scriptsPath: string, name: string): (reply: OpReply) {
    var script := Join(scriptsPath, RemoveScript);
    if !host.Exists(script) then Fail("Script de eliminación no encontrado", None)
    else
      var log := LogPath(Delete, name);
      match host.run(Spawn(DeleteLaunch(script, name)))
      case Raised(m) => Fail(m, None)
      case Completed(code, logText, _) =>
        if code == 0 then Ok("Instancia " + name + " eliminada", Some(log), None)
        else Fail("Error en eliminación. Ver log: " + log, Some(logText))
  }

  /** A script kept in the development instance's own directory, run there. */
  function InstanceScriptLaunch(op: Operation, devRoot: string, name: string, scriptName: string,
                                neutralize: bool): (launch: Launch) {
    var dir := Join(devRoot, name);
    Launch(["/bin/bash", Join(dir, scriptName)], Some(dir), Stdin(op, name, neutralize),
           LogPath(op, name), true)
  }

  /** `update_instance_db`. */
  function UpdateDbReply(host: Host, devRoot: string, name: string, neutralize: bool): (reply: OpReply) {
    var script := Join(Join(devRoot, name), "update-db.sh");
    if !host.Exists(script) then Fail("Script update-db.sh no encontrado", None)
    else
      var note := if neutralize then " (con neutralización)" else " (sin neutralización)";
      Started(host, InstanceScriptLaunch(UpdateDb, devRoot, name, "update-db.sh", neutralize),
              "Actualización de BD iniciada" + note + ". Ver logs: " + LogPath(UpdateDb, name),
              Some(neutralize))
  }

  /** `update_instance_files`. */
  function UpdateFilesReply(host: Host, devRoot: string, name: string): (reply: OpReply) {
    var script := Join(Join(devRoot, name), "update-files.sh");
    if !host.Exists(script) then Fail("Script update-files.sh no encontrado", None)
    else
      Started(host, InstanceScriptLaunch(UpdateFiles, devRoot, name, "update-files.sh", false),
              "Actualización de archivos iniciada. Ver logs: " + LogPath(UpdateFiles, name), None)
  }

  /** `sync_filestore`. */
  function SyncFilestoreReply(host: Host, devRoot: string, name: string): (reply: OpReply) {
    var script := Join(Join(devRoot, name), "sync-filestore.sh");
    if !host.Exists(script) then Fail("Script sync-filestore.sh no encontrado", None)
    else
      Started(host, InstanceScriptLaunch(SyncFilestore, devRoot, name, "sync-filestore.sh", false),
              "Sincronización de filestore iniciada. Ver logs: " + LogPath(SyncFilestore, name), None)
  }

  /** The directory asset regeneration works on: the development one when it exists,
      else the production one. */
  function AssetsTarget(host: Host, prodRoot: string, devRoot: string, name: string): (target: Option<string>) {
    var devPath := Join(devRoot, name);
    var prodPath := Join(prodRoot, name);
    if host.Exists(devPath) then Some(devPath)
    else if host.Exists(prodPath) then Some(prodPath)
    else None
  }

  /** The environment argument given to the central script. */
  function AssetsEnvironment(path: string): (environment: string) {
    if Occurs("/develop/", path) then "develop" else "production"
  }

  function RegenerateLaunch(name: string, path: string): (launch: Launch) {
    Launch(["/bin/bash", CentralScript, "--force", name, AssetsEnvironment(path)], None, None,
           LogPath(RegenerateAssets, name), true)
  }

  /** `regenerate_assets`. */
  function RegenerateReply(host: Host, prodRoot: string, devRoot: string, name: string): (reply: OpReply) {
    match AssetsTarget(host, prodRoot, devRoot, name)
    case None => Fail("Instancia " + name + " no encontrada", None)
    case Some(path) =>
      if !host.Exists(CentralScript) then Fail("Script centralizado regenerate-assets.sh no encontrado", None)
      else
        Started(host, RegenerateLaunch(name, path),
                "Regeneración de assets iniciada. Ver logs: " + LogPath(RegenerateAssets, name), None)
  }

  /** A Python string literal as `repr` writes it, for text without quotes or escapes. */
  function Quoted(s: string): (quoted: string) {
    "'" + s + "'"
  }

  /** `str(CalledProcessError)` for a positive exit code. */
  function CalledProcessErrorText(argv: seq<string>, code: int): (text: string) {
    var items := if argv == [] then "" else Quoted(argv[0]) + QuotedRest(argv[1..]);
    "Command '[" + items + "]' returned non-zero exit status " + IntText(code) + "."
  }

  function QuotedRest(argv: seq<string>): (text: string) {
    if argv == [] then "" else ", " + Quoted(argv[0]) + QuotedRest(argv[1..])
  }

  function RestartArgv(service: string): (argv: seq<string>) {
    ["/usr/bin/sudo", "/usr/bin/systemctl", "restart", service]
  }

  /** `restart_instance`, given the record found by name. */
  function RestartReply(host: Host, found: Option<Instance>, name: string): (reply: OpReply) {
    if found.None? || found.value.service.None? then Fail("Instancia o servicio no encontrado", None)
    else
      var service := found.value.service.value;
      match host.run(Restart(service))
      case Raised(m) => Fail(m, None)
      case Completed(code, _, _) =>
        if code == 0 then Ok("Instancia " + name + " reiniciada", None, None)
        else Fail(CalledProcessErrorText(RestartArgv(service), code), None)
  }

  // ---------------------------------------------------------------------------
  // Properties

  /** The log path names its operation and instance: it can be read back, so no two
      operations or instances share a log. */
  lemma LogPathRoundTrip(op: Operation, name: string)
    ensures ParseLogPath(LogPath(op, name)) == Some((op, name))
  {
    var p := LogPath(op, name);
    var mid := Tag(op) + "-" + name;
    assert p == LogPrefix + mid + LogSuffix;
    assert p[..|LogPrefix|] == LogPrefix;
    assert p[|p| - |LogSuffix|..] == LogSuffix;
    assert p[|LogPrefix|..|p| - |LogSuffix|] == mid;
    TaggedRoundTrip(op, name);
  }

  lemma TaggedRoundTrip(op: Operation, name: string)
    ensures ParseTagged(Tag(op) + "-" + name) == Some((op, name))
  {
    var mid := Tag(op) + "-" + name;
    assert mid[|Tag(op)| + 1..] == name;
    assert (Tag(op) + "-") <= mid;
    assert mid[0] == Tag(op)[0];
    if op == UpdateFiles || op == UpdateDb {
      assert mid[7] == Tag(op)[7];
    }
  }

  lemma LogPathInjective(op1: Operation, name1: string, op2: Operation, name2: string)
    requires LogPath(op1, name1) == LogPath(op2, name2)
    ensures op1 == op2 && name1 == name2
  {
    LogPathRoundTrip(op1, name1);
    LogPathRoundTrip(op2, name2);
  }

  lemma {:induction false} LineEndAt(t: string, i: nat, k: nat)
    requires i <= k <= |t| && (k < |t| ==> t[k] == '\n')
    requires forall m :: i <= m < k ==> t[m] != '\n'
    ensures LineEnd(t, i) == k
    decreases k - i
  {
    if i < k {
      LineEndAt(t, i + 1, k);
    }
  }

  /** A script reading its stdin line by line receives exactly the answers written,
      provided none of them contains a newline. */
  lemma {:induction false} LinesOfStdin(answers: seq<string>)
    requires forall a :: a in answers ==> NoNewline(a)
    ensures Lines(StdinText(answers)) == answers
  {
    if answers != [] {
      var a := answers[0];
      var rest := StdinText(answers[1..]);
      var t := StdinText(answers);
      assert t == a + ("\n" + rest);
      assert t[|a|] == '\n';
      assert a in answers;
      forall m | 0 <= m < |a|
        ensures t[m] != '\n'
      {
        assert t[m] == a[m];
      }
      LineEndAt(t, 0, |a|);
      assert t[..|a|] == a;
      assert t[|a| + 1..] == rest;
      LinesOfStdin(answers[1..]);
      assert answers == [a] + answers[1..];
    }
  }

  /** Removing occurrences introduces no newline. */
  lemma {:induction false} DeleteNameNoNewline(s: string)
    requires NoNewline(s)
    ensures NoNewline(ReplaceAll(s, "dev-", ""))
    decreases |s|
  {
    if |s| >= 4 {
      if s[..4] == "dev-" {
        DeleteNameNoNewline(s[4..]);
      } else {
        DeleteNameNoNewline(s[1..]);
      }
    }
  }

  /** Each script receives its answers line by line as listed, whatever the instance
      name, as long as the name has no newline. */
  lemma AnswersRead(op: Operation, name: string, neutralize: bool)
    requires NoNewline(name)
    ensures var a := Answers(op, name, neutralize);
      a.Some? ==> Lines(Stdin(op, name, neutralize).value) == a.value
    ensures Stdin(op, name, neutralize).None? <==> op == RegenerateAssets
  {
    var a := Answers(op, name, neutralize);
    if a.Some? {
      if op == Delete {
        DeleteNameNoNewline(name);
        assert NoNewline("BORRAR" + name) by {
          forall i | 0 <= i < |"BORRAR" + name|
            ensures ("BORRAR" + name)[i] != '\n'
          {
            if i >= 6 {
              assert ("BORRAR" + name)[i] == name[i - 6];
            }
          }
        }
      }
      LinesOfStdin(a.value);
    }
  }

  lemma StdinOne(x: string)
    ensures StdinText([x]) == x + "\n"
  {
    assert [x][1..] == [];
  }

  lemma StdinTwo(x: string, y: string)
    ensures StdinText([x, y]) == x + "\n" + y + "\n"
  {
    assert [x, y][1..] == [y];
    StdinOne(y);
  }

  /** The text written to the deletion script. */
  lemma DeleteStdin(name: string)
    ensures Stdin(Delete, name, false) == Some(DeleteName(name) + "\n" + "BORRAR" + name + "\n")
  {
    var x := DeleteName(name);
    var y := "BORRAR" + name;
    assert [x, y][1..] == [y];
    assert [y][1..] == [];
    assert StdinText([y]) == y + "\n";
    assert StdinText([x, y]) == x + "\n" + (y + "\n");
    assert x + "\n" + (y + "\n") == x + "\n" + "BORRAR" + name + "\n";
  }

  /** A leading `dev-` is removed, and the scan continues over the rest of the name. */
  lemma DeleteNameLeading(base: string)
    ensures DeleteName("dev-" + base) == DeleteName(base)
  {
    ReplaceAllLeading("dev-", base, "");
    assert ReplaceAll("dev-" + base, "dev-", "") == "" + ReplaceAll(base, "dev-", "");
    assert "" + ReplaceAll(base, "dev-", "") == ReplaceAll(base, "dev-", "");
  }

  /** A name without `dev-` is passed through unchanged. */
  lemma DeleteNameUntouched(name: string)
    requires !Occurs("dev-", name)
    ensures DeleteName(name) == name
  {
    ReplaceAllNoOccurrence(name, "dev-", "");
  }

  /** Text before the first `dev-` is kept, that `dev-` is removed, and the scan goes on
      over the rest of the name. */
  lemma DeleteNameSplit(x: string, y: string)
    requires forall m :: 0 <= m < |x| ==> !StartsAt(x + "dev-" + y, m, "dev-")
    ensures DeleteName(x + "dev-" + y) == x + DeleteName(y)
  {
    assert x + "dev-" + y == x + ("dev-" + y);
    ReplaceAllSkip(x, "dev-" + y, "dev-", "");
    DeleteNameLeading(y);
  }

  /** An inner `dev-` is removed too. */
  lemma DeleteNameInner()
    ensures DeleteName("dev-a-dev-b") == "a-b"
  {
    var t := "a-" + "dev-" + "b";
    calc {
      DeleteName("dev-a-dev-b");
      { assert "dev-a-dev-b" == "dev-" + t; DeleteNameLeading(t); }
      DeleteName(t);
      { assert t[0] == 'a' && t[1] == '-';
        DeleteNameSplit("a-", "b"); }
      "a-" + DeleteName("b");
      { DeleteNameUntouched("b"); }
      "a-b";
    }
  }

  /** Creation: without its script nothing is started and the reply is fixed; otherwise
      the script gets the name (and the certbot e-mail when one is given), answers `s`,
      runs detached, and the reply points at its log. */
  lemma CreateDevSpec(host: Host, scriptsPath: string, name: string, email: Option<string>,
                      other: Command -> Outcome)
    ensures var script := Join(scriptsPath, CreateScript);
      var launch := CreateDevLaunch(script, name, email);
      var reply := CreateDevReply(host, scriptsPath, name, email);
      (!host.Exists(script) ==> reply == Fail("Script de creación no encontrado", None)
                                && CreateDevReply(host.(run := other), scriptsPath, name, email) == reply)
      && (reply.Ok? <==> host.Exists(script) && host.run(Spawn(launch)).Completed?)
      && (host.Exists(script) && host.run(Spawn(launch)).Raised? ==>
            reply == Fail(host.run(Spawn(launch)).message, None))
      && (reply.Ok? ==> reply.logFile == Some(LogPath(CreateDev, name)) && reply.neutralize.None?
                        && reply.message == "Creación de instancia " + name + " iniciada. Ver logs: " + LogPath(CreateDev, name))
      && launch.argv == ["/bin/bash", script, name] + (if email.Some? && email.value != "" then [email.value] else [])
      && launch.stdin == Some("s\n") && launch.cwd.None? && launch.newSession
  {
    StdinOne("s");
    assert "s" + "\n" == "s\n";
  }

  /** Deletion: without its script nothing is started; otherwise the script runs attached
      and its exit code decides: 0 is success, anything else a failure carrying the log's
      text and path. */
  lemma DeleteSpec(host: Host, scriptsPath: string, name: string, other: Command -> Outcome)
    ensures var script := Join(scriptsPath, RemoveScript);
      var launch := DeleteLaunch(script, name);
      var outcome := host.run(Spawn(launch));
      var reply := DeleteReply(host, scriptsPath, name);
      (!host.Exists(script) ==> reply == Fail("Script de eliminación no encontrado", None)
                                && DeleteReply(host.(run := other), scriptsPath, name) == reply)
      && (host.Exists(script) && outcome.Completed? ==> (reply.Ok? <==> outcome.returncode == 0))
      && (host.Exists(script) && outcome.Completed? && outcome.returncode != 0 ==>
            reply == Fail("Error en eliminación. Ver log: " + LogPath(Delete, name), Some(outcome.stdout)))
      && (host.Exists(script) && outcome.Raised? ==> reply == Fail(outcome.message, None))
      && (reply.Ok? ==> reply == Ok("Instancia " + name + " eliminada", Some(LogPath(Delete, name)), None))
      && launch.argv == ["/bin/bash", script] && launch.cwd.None? && !launch.newSession
      && launch.logFile == LogPath(Delete, name)
  {
  }

  /** The database update: the script in the development instance's directory runs
      there, is told `s` and then `s` or `n` for neutralisation, and the reply repeats
      the choice. */
  lemma UpdateDbSpec(host: Host, devRoot: string, name: string, neutralize: bool,
                     other: Command -> Outcome)
    ensures var dir := Join(devRoot, name);
      var script := Join(dir, "update-db.sh");
      var launch := InstanceScriptLaunch(UpdateDb, devRoot, name, "update-db.sh", neutralize);
      var reply := UpdateDbReply(host, devRoot, name, neutralize);
      (!host.Exists(script) ==> reply == Fail("Script update-db.sh no encontrado", None)
                                && UpdateDbReply(host.(run := other), devRoot, name, neutralize) == reply)
      && (reply.Ok? <==> host.Exists(script) && host.run(Spawn(launch)).Completed?)
      && (host.Exists(script) && host.run(Spawn(launch)).Raised? ==>
            reply == Fail(host.run(Spawn(launch)).message, None))
      && (reply.Ok? ==> reply.neutralize == Some(neutralize) && reply.logFile == Some(LogPath(UpdateDb, name)))
      && launch.argv == ["/bin/bash", script] && launch.cwd == Some(dir) && launch.newSession
      && launch.stdin == Some("s\n" + (if neutralize then "s" else "n") + "\n")
  {
    var answer := if neutralize then "s" else "n";
    StdinTwo("s", answer);
    assert "s" + "\n" == "s\n";
  }

  /** The file update: the instance's own script, run in its directory, answered `s`. */
  lemma UpdateFilesSpec(host: Host, devRoot: string, name: string, other: Command -> Outcome)
    ensures var dir := Join(devRoot, name);
      var script := Join(dir, "update-files.sh");
      var launch := InstanceScriptLaunch(UpdateFiles, devRoot, name, "update-files.sh", false);
      var reply := UpdateFilesReply(host, devRoot, name);
      (!host.Exists(script) ==> reply == Fail("Script update-files.sh no encontrado", None)
                                && UpdateFilesReply(host.(run := other), devRoot, name) == reply)
      && (reply.Ok? <==> host.Exists(script) && host.run(Spawn(launch)).Completed?)
      && (host.Exists(script) && host.run(Spawn(launch)).Raised? ==>
            reply == Fail(host.run(Spawn(launch)).message, None))
      && (reply.Ok? ==> reply.logFile == Some(LogPath(UpdateFiles, name)) && reply.neutralize.None?)
      && launch.argv == ["/bin/bash", script] && launch.cwd == Some(dir) && launch.newSession
      && launch.stdin == Some("s\n")
  {
    StdinOne("s");
    assert "s" + "\n" == "s\n";
  }

  /** The filestore synchronisation: the instance's own script, run in its directory,
      answered `s`. */
  lemma SyncFilestoreSpec(host: Host, devRoot: string, name: string, other: Command -> Outcome)
    ensures var dir := Join(devRoot, name);
      var script := Join(dir, "sync-filestore.sh");
      var launch := InstanceScriptLaunch(SyncFilestore, devRoot, name, "sync-filestore.sh", false);
      var reply := SyncFilestoreReply(host, devRoot, name);
      (!host.Exists(script) ==> reply == Fail("Script sync-filestore.sh no encontrado", None)
                                && SyncFilestoreReply(host.(run := other), devRoot, name) == reply)
      && (reply.Ok? <==> host.Exists(script) && host.run(Spawn(launch)).Completed?)
      && (host.Exists(script) && host.run(Spawn(launch)).Raised? ==>
            reply == Fail(host.run(Spawn(launch)).message, None))
      && (reply.Ok? ==> reply.logFile == Some(LogPath(SyncFilestore, name)) && reply.neutralize.None?)
      && launch.argv == ["/bin/bash", script] && launch.cwd == Some(dir) && launch.newSession
      && launch.stdin == Some("s\n")
  {
    StdinOne("s");
    assert "s" + "\n" == "s\n";
  }

  /** The target is the development directory when it exists, else the production one,
      else there is none. */
  lemma AssetsTargetSpec(host: Host, prodRoot: string, devRoot: string, name: string)
    ensures var target := AssetsTarget(host, prodRoot, devRoot, name);
      (host.Exists(Join(devRoot, name)) ==> target == Some(Join(devRoot, name)))
      && (!host.Exists(Join(devRoot, name)) && host.Exists(Join(prodRoot, name)) ==> target == Some(Join(prodRoot, name)))
      && (target.None? <==> !host.Exists(Join(devRoot, name)) && !host.Exists(Join(prodRoot, name)))
  {
  }

  /** The central script is run detached, from the current directory, with exactly
      `--force`, the name and the environment, which is `develop` exactly when the target
      path has a `/develop/` directory in it, and it is given nothing on standard input. */
  lemma RegenerateLaunchSpec(name: string, path: string)
    ensures var launch := RegenerateLaunch(name, path);
      launch.argv[..4] == ["/bin/bash", CentralScript, "--force", name]
      && (launch.argv[4] == "develop" <==> Occurs("/develop/", path))
      && (launch.argv[4] == "develop" || launch.argv[4] == "production")
      && |launch.argv| == 5 && launch.cwd.None? && launch.newSession
      && launch.stdin.None? && launch.logFile == LogPath(RegenerateAssets, name)
  {
  }

  /** Without a target or without the central script the request fails with its message
      and nothing is launched; otherwise it succeeds exactly when the start succeeds, an
      exception's message is the error, and a success points at the log. */
  lemma RegenerateSpec(host: Host, prodRoot: string, devRoot: string, name: string,
                       other: Command -> Outcome)
    ensures var target := AssetsTarget(host, prodRoot, devRoot, name);
      var reply := RegenerateReply(host, prodRoot, devRoot, name);
      (target.None? ==> reply == Fail("Instancia " + name + " no encontrada", None))
      && (target.Some? && !host.Exists(CentralScript) ==>
            reply == Fail("Script centralizado regenerate-assets.sh no encontrado", None))
      && (target.None? || !host.Exists(CentralScript) ==>
            RegenerateReply(host.(run := other), prodRoot, devRoot, name) == reply)
      && (reply.Ok? <==> target.Some? && host.Exists(CentralScript)
                         && host.run(Spawn(RegenerateLaunch(name, target.value))).Completed?)
      && (target.Some? && host.Exists(CentralScript)
          && host.run(Spawn(RegenerateLaunch(name, target.value))).Raised? ==>
            reply == Fail(host.run(Spawn(RegenerateLaunch(name, target.value))).message, None))
      && (reply.Ok? ==> reply == Ok("Regeneración de assets iniciada. Ver logs: " + LogPath(RegenerateAssets, name),
                                    Some(LogPath(RegenerateAssets, name)), None))
  {
  }

  /** A text that contains a pattern keeps containing it after more text is appended. */
  lemma OccursInPrefix(p: string, a: string, b: string)
    requires Occurs(p, a)
    ensures Occurs(p, a + b)
  {
    var i :| 0 <= i <= |a| && StartsAt(a, i, p);
    assert (a + b)[i..i + |p|] == a[i..i + |p|];
    assert StartsAt(a + b, i, p);
  }

  /** A development root under a `/develop/` directory makes its instances regenerate
      in the `develop` environment. */
  lemma DevelopRootGivesDevelop(host: Host, prodRoot: string, devRoot: string, name: string)
    requires Occurs("/develop/", devRoot)
    requires name == [] || name[0] != '/'
    requires host.Exists(Join(devRoot, name))
    ensures RegenerateLaunch(name, AssetsTarget(host, prodRoot, devRoot, name).value).argv[4] == "develop"
  {
    var path := Join(devRoot, name);
    assert path == devRoot + path[|devRoot|..];
    OccursInPrefix("/develop/", devRoot, path[|devRoot|..]);
  }

  /** Restart: a missing record or a record without a service fails before anything is
      run; otherwise the restart command's exit code decides. */
  lemma RestartSpec(host: Host, found: Option<Instance>, name: string, other: Command -> Outcome)
    ensures var reply := RestartReply(host, found, name);
      (found.None? || found.value.service.None? ==>
         reply == Fail("Instancia o servicio no encontrado", None)
         && RestartReply(host.(run := other), found, name) == reply)
      && (found.Some? && found.value.service.Some? ==>
            var outcome := host.run(Restart(found.value.service.value));
            (reply.Ok? <==> outcome.Completed? && outcome.returncode == 0)
            && (outcome.Raised? ==> reply == Fail(outcome.message, None)))
      && (reply.Ok? ==> reply == Ok("Instancia " + name + " reiniciada", None, None))
  {
  }
}
