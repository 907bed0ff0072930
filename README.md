# Odoo instance manager, modelled in Dafny

This project models the decision logic of `InstanceManager`, the backend service that
lists the Odoo instances of a server (production and development), reads each
instance's descriptor file `info-instancia.txt`, reports the state of its systemd
service, starts the maintenance scripts (create, delete, update database, update
files, synchronise filestore, regenerate assets), restarts services, and reads the
systemd, Odoo and nginx logs of an instance.

The host is an input. The modules are:

- `Os.Host` holds the directories, the files, the directory listings and a total
  function `run` from each external command to its outcome. An outcome is either a
  completed process (exit code, stdout, stderr) or an exception with its message.
- `Text` gives Python's string operations the manager relies on: `str.isspace`,
  `str.strip`, `str.replace`, `posixpath.join`, `int()` and `str()`.
- `Descriptor` models the four `re.search` calls over the descriptor's text. Each
  search returns the leftmost position where the whole pattern matches.
- `ServiceStatus` normalises the answer of `systemctl is-active`.
- `Registry` builds the instance records and looks them up by name.
- `Launcher` builds each script's command line, working directory, standard input and
  log file, and gives the reply.
- `Logs` gives the reply to a log request.
- `Manager.InstanceManager` is the object itself. It holds the five configured paths
  and initialises them once. Its loops build the instance list, and each of its
  methods is proved equal to the reply function it relies on.

## Model

| member | source | states |
|---|---|---|
| Manager.InstanceManager.constructor | backend/services/instance_manager.py:14-19 | a new manager has no paths configured |
| Manager.InstanceManager.InitPaths | backend/services/instance_manager.py:21-28 | the five paths are copied from the configuration exactly when the production root is unset; otherwise nothing changes |
| Manager.InitPathsOnce | backend/services/instance_manager.py:21-28 | once a non-empty production root has been read, a later configuration is ignored |
| Manager.InstanceManager.ListInstances | backend/services/instance_manager.py:30-51 | initialises the paths, then its loops produce exactly the production records followed by the development records |
| Manager.InstanceManager.ScanRoot | backend/services/instance_manager.py:36-49 | the loop over a root's listing yields one record per directory entry, in listing order; a missing root yields none |
| Manager.InstanceManager.GetInstanceInfo | backend/services/instance_manager.py:53-101 | setting the record's fields one at a time gives the record built from the descriptor's fields and the service's state |
| Manager.InstanceManager.FindInstance | backend/services/instance_manager.py:132 | the scan from the front returns the first record with the name, or none |
| Manager.InstanceManager.GetInstanceStatus | backend/services/instance_manager.py:129-150 | the reply is the status reply over the freshly listed instances |
| Manager.InstanceManager.CreateDevInstance | backend/services/instance_manager.py:152-188 | after initialising the paths, the reply is the creation reply for the configured scripts directory; the e-mail defaults to none |
| Manager.InstanceManager.DeleteInstance | backend/services/instance_manager.py:190-226 | after initialising the paths, the reply is the deletion reply for the configured scripts directory |
| Manager.InstanceManager.UpdateInstanceDb | backend/services/instance_manager.py:228-262 | after initialising the paths, the reply is the database-update reply under the development root; neutralisation defaults to on |
| Manager.InstanceManager.UpdateInstanceFiles | backend/services/instance_manager.py:264-295 | after initialising the paths, the reply is the file-update reply under the development root |
| Manager.InstanceManager.GetInstanceLogs | backend/services/instance_manager.py:297-405 | the reply is the log reply, with the nginx branches as written, for the first listed record with the name; the count defaults to 100 and the type to `systemd` |
| Manager.UpdateDbByDefault | backend/services/instance_manager.py:228-251 | a database update requested without the flag neutralises: the reply is the update with `neutralize` true, and the script is answered `s` twice |
| Manager.LogsByDefault | backend/services/instance_manager.py:297-322 | a log request without a count or a type is the journal request for 100 lines |
| Manager.InstanceManager.RestartInstance | backend/services/instance_manager.py:407-423 | the reply is the restart reply for the first listed record with the name |
| Manager.InstanceManager.SyncFilestore | backend/services/instance_manager.py:425-456 | after initialising the paths, the reply is the filestore-sync reply under the development root |
| Manager.InstanceManager.RegenerateAssets | backend/services/instance_manager.py:458-500 | after initialising the paths, the reply is the asset-regeneration reply for both roots |
| Text.JoinSpec | backend/services/instance_manager.py:38 | `os.path.join`: an absolute second part replaces the first; otherwise the result is the first part, then a `/` exactly when the first part is non-empty and does not end in one, then the second |
| Registry.InstanceInfoSpec | backend/services/instance_manager.py:53-101 | a record carries its name, type and path; its state is unknown unless a service was found, and then it is the probe's normalised answer; it has no service details |
| Registry.NoDescriptorDefaults | backend/services/instance_manager.py:55-71 | without a readable descriptor, port, domain, database and service are absent and the state is unknown |
| Registry.DescriptorParsed | backend/services/instance_manager.py:66-88 | with a readable descriptor, the record's four fields are exactly what the four searches find |
| Registry.ScanSpec | backend/services/instance_manager.py:36-49 | a root's records match its directory entries one to one, in listing order, and each is tagged with the root's environment |
| Registry.DirNamesSpec | backend/services/instance_manager.py:37-39 | an entry is kept exactly when it is a directory under the root |
| Registry.AllInstancesOrder | backend/services/instance_manager.py:30-51 | production records come first and development records after them; a missing root adds nothing; the count is the number of directory entries of the existing roots |
| Registry.EveryDirectoryListed | backend/services/instance_manager.py:36-41 | every directory entry of an existing root is reported under its name and path |
| Registry.FindIndex | backend/services/instance_manager.py:132 | the position found holds the name and no earlier record has it; none means no record has it |
| Registry.LookupSpec | backend/services/instance_manager.py:132 | the lookup finds nothing exactly when no record has the name; otherwise it finds the first one that does |
| Registry.LookupPrefersProduction | backend/services/instance_manager.py:129-132 | when a production instance has the name, the lookup returns a production record even if a development instance shares the name |
| Registry.StatusReplySpec | backend/services/instance_manager.py:129-150 | the status reply is none exactly when no record has the name; otherwise it is that record with only the service details changed; for a record with a service the details are the stdout of `systemctl status`, or `Error: ` and the message when the command raised |
| Descriptor.SkipSpaceSpec | backend/services/instance_manager.py:74 | the `\s*` step consumes exactly the whitespace that follows the label |
| Descriptor.RunEndSpec | backend/services/instance_manager.py:74-86 | the captured run is maximal: every character is in the token class and the next one is not |
| Descriptor.FirstMatchSpec | backend/services/instance_manager.py:74-88 | the search returns the leftmost position where the pattern matches, and none only if it matches nowhere |
| Descriptor.ParseAbsence | backend/services/instance_manager.py:74-88 | each field is absent exactly when its pattern matches at no position of the text |
| Descriptor.ExtractFound | backend/services/instance_manager.py:74-88 | a value found was captured at an occurrence of the field's label |
| Descriptor.MatchPrefixToken | backend/services/instance_manager.py:74-88 | a captured value is non-empty and made of the field's token characters (digits for the port, non-whitespace otherwise) |
| Descriptor.MatchNeedsKey | backend/services/instance_manager.py:74-88 | a pattern cannot match where its label does not start |
| Descriptor.NoLabelNoValue | backend/services/instance_manager.py:74-88 | a text without the label yields no value for that field |
| Descriptor.MatchAtShift | backend/services/instance_manager.py:74-88 | whether a pattern matches at a position depends only on the text from there on |
| Descriptor.FirstMatchIs | backend/services/instance_manager.py:74-88 | the leftmost matching position determines the search's result |
| Descriptor.ExtractIgnoresCleanLines | backend/services/instance_manager.py:74-88 | lines before a field's line that do not mention its label do not change the field |
| Descriptor.ExtractLabelledValue | backend/services/instance_manager.py:74-88 | a text starting with `label`, whitespace, a scheme for the domain, and a value gives that value; whitespace may span lines, and `http://` and `https://` are both stripped |
| Descriptor.FieldFromLine | backend/services/instance_manager.py:74-88 | a field's line gives its value after any lines that do not mention its label |
| Descriptor.ParsePortOf | backend/services/instance_manager.py:74-76 | the port is the decimal value of the digits found |
| Descriptor.PortFromLine | backend/services/instance_manager.py:74-76 | a `Puerto:` line gives its digits |
| Descriptor.DomainFromLine | backend/services/instance_manager.py:78-80 | a `Dominio:` line gives everything after the scheme up to the next whitespace, including any port or path |
| ServiceStatus.StatusCases | backend/services/instance_manager.py:103-127 | `active` gives active; `inactive` or `failed` give inactive; any other word, or an exception, gives unknown; each in both directions |
| ServiceStatus.StatusIgnoresPadding | backend/services/instance_manager.py:112-124 | whitespace around the answer does not change the state, whatever the exit code or stderr |
| Launcher.LogPathRoundTrip | backend/services/instance_manager.py:167-185 | the operation and the instance name can be read back from a log path |
| Launcher.LogPathInjective | backend/services/instance_manager.py:167-185 | no two operations or instances share a log path |
| Launcher.LinesOfStdin | backend/services/instance_manager.py:209-213 | a script reading line by line receives exactly the answers written, if none contains a newline |
| Launcher.AnswersRead | backend/services/instance_manager.py:209-213 | every script except the asset regeneration is given stdin, and reads back exactly its answers when the name has no newline |
| Launcher.DeleteStdin | backend/services/instance_manager.py:211-212 | the deletion script reads the name without `dev-`, then `BORRAR` followed by the full name |
| Launcher.DeleteNameNoNewline | backend/services/instance_manager.py:211 | removing `dev-` introduces no newline |
| Launcher.DeleteNameSplit | backend/services/instance_manager.py:211 | the text before the first `dev-` is kept, that `dev-` is dropped, and the rest of the name is treated the same way |
| Launcher.DeleteNameUntouched | backend/services/instance_manager.py:211 | a name without `dev-` is passed unchanged |
| Launcher.DeleteNameInner | backend/services/instance_manager.py:211 | every `dev-` is removed, including inner ones: `dev-a-dev-b` gives `a-b` |
| Launcher.CreateDevSpec | backend/services/instance_manager.py:152-188 | without the script the reply is the fixed failure and nothing is run; the command is exactly `/bin/bash`, the script and the name, plus the e-mail only when one is given and non-empty; it is answered `s` and runs detached; an exception's message is the error; success exactly when the start succeeds, with the log path in the reply |
| Launcher.DeleteSpec | backend/services/instance_manager.py:190-226 | without the script nothing is run; the script runs attached and its exit code decides; 0 gives success with the log path; any other code gives a failure carrying the log's text |
| Launcher.UpdateDbSpec | backend/services/instance_manager.py:228-262 | the instance's script runs in its directory, answered `s` and then `s` or `n`; the reply repeats the choice and the log path |
| Launcher.UpdateFilesSpec | backend/services/instance_manager.py:264-295 | the instance's script runs detached in its directory, answered `s`; a missing script fails with nothing run |
| Launcher.SyncFilestoreSpec | backend/services/instance_manager.py:425-456 | the instance's script runs detached in its directory, answered `s`; a missing script fails with nothing run |
| Launcher.AssetsTargetSpec | backend/services/instance_manager.py:462-471 | the development directory is preferred to the production one; with neither the instance is not found |
| Launcher.RegenerateLaunchSpec | backend/services/instance_manager.py:479-491 | the central script runs with `--force`, the name, and `develop` exactly when the path contains `/develop/` (else `production`), and nothing else; it runs detached from the current directory and gets no stdin |
| Launcher.RegenerateSpec | backend/services/instance_manager.py:458-500 | a missing instance is reported before a missing central script, and then nothing is run; otherwise success exactly when the start succeeds, an exception's message is the error, and the success message names the log |
| Launcher.DevelopRootGivesDevelop | backend/services/instance_manager.py:463-480 | instances of a development root under `/develop/` regenerate in the `develop` environment |
| Launcher.RestartSpec | backend/services/instance_manager.py:407-423 | a missing record or service fails before anything runs; otherwise success exactly when the restart command exits 0, and an exception's message is the error |
| Logs.LogsReplySpec | backend/services/instance_manager.py:297-322 | a missing record, an unknown type and a record without a service fail with their messages; the journal's stdout is returned whatever its exit code, and an exception's message is the error; a success echoes the line count and type |
| Logs.OdooLogsSpec | backend/services/instance_manager.py:324-345 | a missing `odoo.log` fails before anything runs; an exception's message is the error; a non-zero exit fails with `Error al leer log: ` and stderr; exit 0 returns the output, or `No hay logs disponibles` when it is empty |
| Logs.NginxLogsSpec | backend/services/instance_manager.py:347-399 | a missing domain fails; an exception's message is the error; every completed query succeeds with the output on exit 0 with output, the no-logs text on exit 1, and `Error al leer logs: ` with stderr otherwise |
| Logs.LogsReplyCorrectedSpec | backend/services/instance_manager.py:352-365 | the corrected reply differs from the code's only for an nginx query whose pipeline gave (0, "", ""), and then gives the no-logs text |
| Logs.NoMatchReadAsError | backend/services/instance_manager.py:352-365 | as written, a domain no line mentions yields `Error al leer logs: ` and never the no-logs text |
| Logs.NoLogsNeedsTailFailure | backend/services/instance_manager.py:352-365 | as written, the no-logs text needs `tail` itself to exit 1 (or to print that very text) |
| Logs.NginxTextCases | backend/services/instance_manager.py:352-365 | with the correction, no matching line gives the no-logs text, a failing grep gives the read error with its message, and matching lines are returned |
| Logs.NginxTextAgrees | backend/services/instance_manager.py:360-365 | the correction differs from the written branches only for a silent, successful, empty pipeline |

## Left out

- Starting processes, the five-minute wait of the deletion, and the timeouts of
  `subprocess.run` are left out. Each command's outcome is an input: a completed
  process, or an exception with the message `str(e)` would give.
- The log file a script writes is not modelled as a file. For the deletion, which waits
  for its script, the log's text after the wait is the completed outcome's stdout.
- A failure to read the deletion log after a non-zero exit is not modelled. It would
  turn the reply into the exception's message.
- `os.listdir` raising (for example, on a permission error) is not modelled. The listing
  is total.
- The descriptor file is either read whole or unreadable. A read that raises leaves
  every field unset, as the code does.
- `\d` in a Python `str` pattern also matches non-ASCII decimal digits, and `int()`
  accepts them. The model's `\d` is ASCII only.
- Launcher.RestartSpec: the error text of `CalledProcessError` is built (`Launcher.CalledProcessErrorText`),
  but its contract only says that a non-zero exit is a failure. The text itself is not
  stated, and `repr` quoting is modelled only for arguments without quotes or backslashes.
- A negative exit code (a process killed by a signal) is not distinguished in the
  error text.
- The domain is placed inside single quotes in the nginx shell command. Quoting and
  injection through a domain that contains a quote are not modelled: the pipeline's
  outcome is an input.
- The logging calls (`logger`, `print` to stderr) have no effect on results and are left
  out.
- The Flask application context is left out. The configuration is passed to each
  method as a `Config` value.
- The JavaScript front-end files are not part of this model.
- A configured production root that is empty is treated as unset, as the Python code
  does. Every call then reads the configuration again.
- Python 3.11 and later refuse `int()` on more than 4300 digits with a `ValueError`.
  The code catches it, so such a port leaves all four fields unset. The model has no
  digit limit: it gives the port's value and parses the other three fields.

Behaviour of the Python code that the model keeps:

- The domain keeps any port or path written after the host. The pattern stops only at
  whitespace.
- The descriptor search is not line-oriented. Whitespace after a label may span lines,
  and a label that is not followed by a valid value is skipped in favour of a later one.
- A failing nginx query returns success with the error text inside `logs`, not a
  failure.
- The instance operations use the nginx branches as written. The corrected choice
  (`Logs.LogsReplyCorrected`) stands beside them; see the finding below.

## Findings

| source | as written | input that shows it | evidently intended | confidence | as-written member | corrected member |
|---|---|---|---|---|---|---|
| backend/services/instance_manager.py:352-365 | the no-logs text is chosen when the command exits 1; the command is `grep … \| tail …` under `/bin/sh`, without `pipefail`, so its status is `tail`'s | a domain no line of the log mentions: grep exits 1 with no output and tail exits 0 with no output, so the pipeline gives (0, "", "") and the reply is `Error al leer logs: ` with an empty message | zero matching lines yield `No hay logs de acceso/error para el dominio <domain>` | high, not executed | Logs.NoMatchReadAsError | Logs.LogsReplyCorrectedSpec |
