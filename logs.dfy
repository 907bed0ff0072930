/**
 * Reading an instance's logs: the systemd journal of its service, its own
 * `odoo.log`, or the nginx access and error logs filtered by its domain.
 */
module Logs {
  import opened Wrappers
  import opened Text
  import opened Os
  import opened Registry

  /** `success: True` with the text, the requested line count and the log type, or
      `success: False` with an error. */
  datatype LogReply = LogOk(logs: string, lines: int, kind: string) | LogFail(error: string)

  const AccessLog := "/var/log/nginx/access.log"
  const ErrorLog := "/var/log/nginx/error.log"

  /** The text given for an nginx log when no line mentions the domain. */
  function NoLogsText(what: string, domain: string): (text: string) {
    "No hay logs de " + what + " para el dominio " + domain
  }

  function ReadErrorText(err: string): (text: string) {
    "Error al leer logs: " + err
  }

  /** The branches choosing the nginx text as they are written: the output when the
      command exits 0 with output, the no-logs text when it exits 1, and otherwise an
      error carrying stderr. */
  function NginxTextAsWritten(code: int, out: string, err: string, what: string, domain: string): (text: string) {
    if code == 0 && out != "" then out
    else if code == 1 then NoLogsText(what, domain)
    else ReadErrorText(err)
  }

  /** What `/bin/sh` reports for `grep … | tail …` (no `pipefail`): the output and the
      exit status are tail's, stderr collects both stages'. */
  function ShellPipeline(grepCode: int, grepErr: string, tailCode: int, tailOut: string, tailErr: string): (outcome: Outcome) {
    Completed(tailCode, tailOut, grepErr + tailErr)
  }

  /** The nginx text with the no-match case recognised from what the pipeline does
      report: a successful pipeline with no output and nothing on stderr means grep
      found no line. */
  function NginxText(code: int, out: string, err: string, what: string, domain: string): (text: string) {
    if code == 0 && out != "" then out
    else if code == 1 || (code == 0 && err == "") then NoLogsText(what, domain)
    else ReadErrorText(err)
  }

  /** The text given for an nginx log: as the branches are written, or with the
      no-match correction. */
  function NginxChoice(corrected: bool, code: int, out: string, err: string, what: string, domain: string): (text: string) {
    if corrected then NginxText(code, out, err, what, domain)
    else NginxTextAsWritten(code, out, err, what, domain)
  }

  /** `get_instance_logs`, given the record found by name: the nginx text is chosen by
      the branches as they are written. */
  function LogsReply(host: Host, found: Option<Instance>, lines: int, logType: string): (reply: LogReply) {
    Reply(host, found, lines, logType, false)
  }

  /** `get_instance_logs` with the nginx no-match case recognised. */
  function LogsReplyCorrected(host: Host, found: Option<Instance>, lines: int, logType: string): (reply: LogReply) {
    Reply(host, found, lines, logType, true)
  }

  function Reply(host: Host, found: Option<Instance>, lines: int, logType: string, corrected: bool): (reply: LogReply) {
    if found.None? then LogFail("Instancia no encontrada")
    else
      var inst := found.value;
      if logType == "systemd" then
        if inst.service.None? then LogFail("Servicio no encontrado")
        else
          match host.run(Journal(inst.service.value, lines))
          case Raised(m) => LogFail(m)
          case Completed(_, out, _) => LogOk(out, lines, "systemd")
      else if logType == "odoo" then
        var file := Join(inst.path, "odoo.log");
        if !host.Exists(file) then LogFail("Archivo odoo.log no encontrado")
        else
          match host.run(Tail(lines, file))
          case Raised(m) => LogFail(m)
          case Completed(code, out, err) =>
            if code != 0 then LogFail("Error al leer log: " + err)
            else LogOk(if out != "" then out else "No hay logs disponibles", lines, "odoo")
      else if logType == "nginx-access" || logType == "nginx-error" then
        var source := if logType == "nginx-access" then AccessLog else ErrorLog;
        var what := if logType == "nginx-access" then "acceso" else "error";
        if inst.domain.None? then LogFail("Dominio no encontrado")
        else
          match host.run(GrepTail(inst.domain.value, source, lines))
          case Raised(m) => LogFail(m)
          case Completed(code, out, err) =>
            LogOk(NginxChoice(corrected, code, out, err, what, inst.domain.value), lines, logType)
      else LogFail("Tipo de log no válido: " + logType)
  }

  // ---------------------------------------------------------------------------
  // Properties

  /** As written, a domain that no nginx line mentions is reported as a read error with
      an empty message: grep exits 1 but the pipeline reports tail's 0 with no output, so
      the no-logs branch is never taken. */
  lemma NoMatchReadAsError(what: string, domain: string)
    ensures var o := ShellPipeline(1, "", 0, "", "");
      NginxTextAsWritten(o.returncode, o.stdout, o.stderr, what, domain) == ReadErrorText("")
      && NginxTextAsWritten(o.returncode, o.stdout, o.stderr, what, domain) != NoLogsText(what, domain)
  {
    assert ReadErrorText("")[0] == 'E' != 'N' == NoLogsText(what, domain)[0];
  }

  /** As written, the no-logs text needs tail itself to exit 1, whatever grep did. */
  lemma NoLogsNeedsTailFailure(grepCode: int, grepErr: string, tailCode: int, tailOut: string, tailErr: string,
                               what: string, domain: string)
    requires tailCode != 1
    ensures var o := ShellPipeline(grepCode, grepErr, tailCode, tailOut, tailErr);
      NginxTextAsWritten(o.returncode, o.stdout, o.stderr, what, domain) != NoLogsText(what, domain)
      || (tailCode == 0 && tailOut == NoLogsText(what, domain))
  {
    var o := ShellPipeline(grepCode, grepErr, tailCode, tailOut, tailErr);
    if !(tailCode == 0 && tailOut != "") {
      assert ReadErrorText(o.stderr)[0] == 'E' != 'N' == NoLogsText(what, domain)[0];
    }
  }

  /** With the correction, a domain that no line mentions gives the no-logs text, a
      failing grep (status 2 with a message) gives the read error with that message, and
      matching lines are returned as they are. */
  lemma NginxTextCases(what: string, domain: string, grepErr: string, matched: string)
    requires grepErr != [] && matched != []
    ensures var none := ShellPipeline(1, "", 0, "", "");
      NginxText(none.returncode, none.stdout, none.stderr, what, domain) == NoLogsText(what, domain)
    ensures var failed := ShellPipeline(2, grepErr, 0, "", "");
      NginxText(failed.returncode, failed.stdout, failed.stderr, what, domain) == ReadErrorText(grepErr)
    ensures var found := ShellPipeline(0, "", 0, matched, "");
      NginxText(found.returncode, found.stdout, found.stderr, what, domain) == matched
  {
    assert "" + grepErr + "" == grepErr;
  }

  /** The correction changes only the case of a silent, successful, empty pipeline. */
  lemma NginxTextAgrees(code: int, out: string, err: string, what: string, domain: string)
    requires !(code == 0 && out == "" && err == "")
    ensures NginxText(code, out, err, what, domain) == NginxTextAsWritten(code, out, err, what, domain)
  {
  }

  /** The log reply: a missing record, an unknown type, a record without the service or
      domain the type needs and a missing `odoo.log` are failures decided before anything
      is run; a command that raises gives its message as the error; the journal is
      returned whatever its exit code; `odoo.log` fails on a non-zero exit code and reads
      `No hay logs disponibles` when empty; every completed nginx query is a success whose
      text is the output on exit 0 with output, the no-logs text on exit 1, and the read
      error with stderr otherwise. A success echoes the line count and the type. */
  lemma LogsReplySpec(host: Host, found: Option<Instance>, lines: int, logType: string)
    ensures var reply := LogsReply(host, found, lines, logType);
      (found.None? ==> reply == LogFail("Instancia no encontrada"))
      && (found.Some? && logType !in {"systemd", "odoo", "nginx-access", "nginx-error"} ==>
            reply == LogFail("Tipo de log no válido: " + logType))
      && (found.Some? && logType == "systemd" && found.value.service.None? ==>
            reply == LogFail("Servicio no encontrado"))
      && (found.Some? && logType == "systemd" && found.value.service.Some? ==>
            var o := host.run(Journal(found.value.service.value, lines));
            (o.Raised? ==> reply == LogFail(o.message))
            && (o.Completed? ==> reply == LogOk(o.stdout, lines, "systemd")))
      && (reply.LogOk? ==> reply.lines == lines && reply.kind == logType)
  {
  }

  lemma OdooLogsSpec(host: Host, found: Option<Instance>, lines: int)
    requires found.Some?
    ensures var reply := LogsReply(host, found, lines, "odoo");
      var file := Join(found.value.path, "odoo.log");
      var o := host.run(Tail(lines, file));
      (!host.Exists(file) ==> reply == LogFail("Archivo odoo.log no encontrado"))
      && (host.Exists(file) && o.Raised? ==> reply == LogFail(o.message))
      && (host.Exists(file) && o.Completed? && o.returncode != 0 ==>
            reply == LogFail("Error al leer log: " + o.stderr))
      && (host.Exists(file) && o.Completed? && o.returncode == 0 ==>
            reply == LogOk(if o.stdout == "" then "No hay logs disponibles" else o.stdout, lines, "odoo"))
  {
  }

  lemma NginxLogsSpec(host: Host, found: Option<Instance>, lines: int, logType: string)
    requires found.Some? && (logType == "nginx-access" || logType == "nginx-error")
    ensures var reply := LogsReply(host, found, lines, logType);
      var source := if logType == "nginx-access" then AccessLog else ErrorLog;
      var what := if logType == "nginx-access" then "acceso" else "error";
      var d := found.value.domain;
      (d.None? ==> reply == LogFail("Dominio no encontrado"))
      && (d.Some? ==>
            var o := host.run(GrepTail(d.value, source, lines));
            (o.Raised? ==> reply == LogFail(o.message))
            && (o.Completed? && o.returncode == 0 && o.stdout != "" ==> reply == LogOk(o.stdout, lines, logType))
            && (o.Completed? && o.returncode == 1 ==> reply == LogOk(NoLogsText(what, d.value), lines, logType))
            && (o.Completed? && o.returncode != 1 && !(o.returncode == 0 && o.stdout != "") ==>
                  reply == LogOk(ReadErrorText(o.stderr), lines, logType)))
  {
  }

  /** The corrected reply differs from the written one only for an nginx query whose
      pipeline succeeded silently with no output, and then it gives the no-logs text. */
  lemma LogsReplyCorrectedSpec(host: Host, found: Option<Instance>, lines: int, logType: string)
    ensures var fixed := LogsReplyCorrected(host, found, lines, logType);
      var written := LogsReply(host, found, lines, logType);
      fixed != written <==>
        found.Some? && (logType == "nginx-access" || logType == "nginx-error") && found.value.domain.Some?
        && host.run(GrepTail(found.value.domain.value, if logType == "nginx-access" then AccessLog else ErrorLog, lines))
           == Completed(0, "", "")
    ensures var fixed := LogsReplyCorrected(host, found, lines, logType);
      fixed != LogsReply(host, found, lines, logType) ==>
        fixed == LogOk(NoLogsText(if logType == "nginx-access" then "acceso" else "error", found.value.domain.value),
                       lines, logType)
  {
    if found.Some? && (logType == "nginx-access" || logType == "nginx-error") && found.value.domain.Some? {
      var d := found.value.domain.value;
      var what := if logType == "nginx-access" then "acceso" else "error";
      var o := host.run(GrepTail(d, if logType == "nginx-access" then AccessLog else ErrorLog, lines));
      if o == Completed(0, "", "") {
        assert ReadErrorText("")[0] == 'E' != 'N' == NoLogsText(what, d)[0];
      } else if o.Completed? {
        NginxTextAgrees(o.returncode, o.stdout, o.stderr, what, d);
      }
    }
  }
}
