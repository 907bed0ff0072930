/**
 * The instance manager object. It keeps the configured paths, read from the
 * application's configuration the first time an operation needs them, and
 * answers each request from the host's state.
 */
module Manager {
  import opened Wrappers
  import opened Text
  import opened Os
  import opened Descriptor
  import opened ServiceStatus
  import opened Registry
  import opened Launcher
  import opened Logs

  /** The application's configuration entries the manager reads. */
  datatype Config = Config(prodRoot: string, devRoot: string, scriptsPath: string,
                           puertosFile: string, devInstancesFile: string)

  /** The manager. An empty path stands for a path not read yet; since an empty string
      is as false as None, an empty configured production root makes every call read the
      configuration again, as the Python code does. */
  class InstanceManager {
    var prodRoot: string
    var devRoot: string
    var scriptsPath: string
    var puertosFile: string
    var devInstancesFile: string

    constructor()
      ensures prodRoot == "" && devRoot == "" && scriptsPath == ""
      ensures puertosFile == "" && devInstancesFile == ""
    {
      prodRoot := "";
      devRoot := "";
      scriptsPath := "";
      puertosFile := "";
      devInstancesFile := "";
    }

    predicate Configured(app: Config)
      reads this
    {
      prodRoot == app.prodRoot && devRoot == app.devRoot && scriptsPath == app.scriptsPath
      && puertosFile == app.puertosFile && devInstancesFile == app.devInstancesFile
    }

    /** `_init_paths`: the paths are read only while the production root is unset. */
    method InitPaths(app: Config)
      modifies this
      ensures old(prodRoot) == "" ==> Configured(app)
      ensures old(prodRoot) != "" ==> unchanged(this)
    {
      if prodRoot == "" {
        prodRoot := app.prodRoot;
        devRoot := app.devRoot;
        scriptsPath := app.scriptsPath;
        puertosFile := app.puertosFile;
        devInstancesFile := app.devInstancesFile;
      }
    }

    /** `_get_instance_info`: defaults first, then each field the descriptor supplies,
        then the service's state when a service was named. */
    method GetInstanceInfo(host: Host, name: string, path: string, env: Environment) returns (info: Instance)
      ensures info == InstanceInfo(host, name, path, env)
    {
      info := Instance(name, env, path, Unknown, None, None, None, None, None);
      var file := Join(path, DescriptorName);
      if host.Exists(file) {
        var read := host.Read(file);
        if read.Some? {
          var content := read.value;
          ghost var fields := Parse(content);
          var port := Extract(content, PortPattern);
          if port.Some? {
            info := info.(port := Some(DigitsValue(port.value)));
          }
          assert info == Instance(name, env, path, Unknown, fields.port, None, None, None, None);
          var domain := Extract(content, DomainPattern);
          if domain.Some? {
            info := info.(domain := domain);
          }
          assert info == Instance(name, env, path, Unknown, fields.port, fields.domain, None, None, None);
          var database := Extract(content, DatabasePattern);
          if database.Some? {
            info := info.(database := database);
          }
          assert info == Instance(name, env, path, Unknown, fields.port, fields.domain, fields.database, None, None);
          var service := Extract(content, ServicePattern);
          if service.Some? {
            info := info.(service := service);
          }
          assert info == Instance(name, env, path, Unknown, fields.port, fields.domain, fields.database, fields.service, None);
        }
      }
      assert info == Instance(name, env, path, Unknown, DescriptorFields(host, path).port, DescriptorFields(host, path).domain,
                              DescriptorFields(host, path).database, DescriptorFields(host, path).service, None);
      if info.service.Some? {
        info := info.(status := StatusOf(host.run(IsActive(info.service.value))));
      }
    }

    /** The records of one root's directory entries, in listing order. */
    method ScanRoot(host: Host, root: string, env: Environment) returns (instances: seq<Instance>)
      ensures instances == RootInstances(host, root, env)
    {
      instances := [];
      if host.Exists(root) {
        var names := host.ListDir(root);
        var i := 0;
        while i < |names|
          invariant 0 <= i <= |names|
          invariant instances == Scan(host, root, names[..i], env)
        {
          var name := names[i];
          var path := Join(root, name);
          ScanStep(host, root, names, i, env);
          if host.IsDir(path) {
            var info := GetInstanceInfo(host, name, path, env);
            instances := instances + [info];
          }
          i := i + 1;
        }
        assert names[..|names|] == names;
      }
    }

    /** `list_instances`. */
    method ListInstances(app: Config, host: Host) returns (instances: seq<Instance>)
      modifies this
      ensures old(prodRoot) == "" ==> Configured(app)
      ensures old(prodRoot) != "" ==> unchanged(this)
      ensures instances == AllInstances(host, prodRoot, devRoot)
    {
      InitPaths(app);
      var production := ScanRoot(host, prodRoot, Production);
      var development := ScanRoot(host, devRoot, Development);
      instances := production + development;
    }

    /** The first record with the name, by a scan from the front. */
    method FindInstance(instances: seq<Instance>, name: string) returns (found: Option<Instance>)
      ensures found == Lookup(instances, name)
    {
      var i := 0;
      while i < |instances|
        invariant 0 <= i <= |instances|
        invariant forall j :: 0 <= j < i ==> instances[j].name != name
      {
        if instances[i].name == name {
          return Some(instances[i]);
        }
        i := i + 1;
      }
      return None;
    }

    /** `get_instance_status`. */
    method GetInstanceStatus(app: Config, host: Host, name: string) returns (reply: Option<Instance>)
      modifies this
      ensures old(prodRoot) == "" ==> Configured(app)
      ensures old(prodRoot) != "" ==> unchanged(this)
      ensures reply == StatusReply(host, AllInstances(host, prodRoot, devRoot), name)
    {
      var instances := ListInstances(app, host);
      var found := FindInstance(instances, name);
      if found.None? {
        return None;
      }
      var inst := found.value;
      if inst.service.Some? {
        var details;
        match host.run(StatusDump(inst.service.value)) {
          case Completed(_, out, _) => details := out;
          case Raised(message) => details := "Error: " + message;
        }
        inst := inst.(serviceDetails := Some(details));
      }
      reply := Some(inst);
    }

    /** `create_dev_instance`. */
    method CreateDevInstance(app: Config, host: Host, name: string, email: Option<string> := None) returns (reply: OpReply)
      modifies this
      ensures old(prodRoot) == "" ==> Configured(app)
      ensures old(prodRoot) != "" ==> unchanged(this)
      ensures reply == CreateDevReply(host, scriptsPath, name, email)
    {
      InitPaths(app);
      reply := CreateDevReply(host, scriptsPath, name, email);
    }

    /** `delete_instance`. */
    method DeleteInstance(app: Config, host: Host, name: string) returns (reply: OpReply)
      modifies this
      ensures old(prodRoot) == "" ==> Configured(app)
      ensures old(prodRoot) != "" ==> unchanged(this)
      ensures reply == DeleteReply(host, scriptsPath, name)
    {
      InitPaths(app);
      reply := DeleteReply(host, scriptsPath, name);
    }

    /** `update_instance_db`. */
    method UpdateInstanceDb(app: Config, host: Host, name: string, neutralize: bool := true) returns (reply: OpReply)
      modifies this
      ensures old(prodRoot) == "" ==> Configured(app)
      ensures old(prodRoot) != "" ==> unchanged(this)
      ensures reply == UpdateDbReply(host, devRoot, name, neutralize)
    {
      InitPaths(app);
      reply := UpdateDbReply(host, devRoot, name, neutralize);
    }

    /** `update_instance_files`. */
    method UpdateInstanceFiles(app: Config, host: Host, name: string) returns (reply: OpReply)
      modifies this
      ensures old(prodRoot) == "" ==> Configured(app)
      ensures old(prodRoot) != "" ==> unchanged(this)
      ensures reply == UpdateFilesReply(host, devRoot, name)
    {
      InitPaths(app);
      reply := UpdateFilesReply(host, devRoot, name);
    }

    /** `sync_filestore`. */
    method SyncFilestore(app: Config, host: Host, name: string) returns (reply: OpReply)
      modifies this
      ensures old(prodRoot) == "" ==> Configured(app)
      ensures old(prodRoot) != "" ==> unchanged(this)
      ensures reply == SyncFilestoreReply(host, devRoot, name)
    {
      InitPaths(app);
      reply := SyncFilestoreReply(host, devRoot, name);
    }

    /** `regenerate_assets`. */
    method RegenerateAssets(app: Config, host: Host, name: string) returns (reply: OpReply)
      modifies this
      ensures old(prodRoot) == "" ==> Configured(app)
      ensures old(prodRoot) != "" ==> unchanged(this)
      ensures reply == RegenerateReply(host, prodRoot, devRoot, name)
    {
      InitPaths(app);
      reply := RegenerateReply(host, prodRoot, devRoot, name);
    }

    /** `get_instance_logs`. */
    method GetInstanceLogs(app: Config, host: Host, name: string, lines: int := 100, logType: string := "systemd") returns (reply: LogReply)
      modifies this
      ensures old(prodRoot) == "" ==> Configured(app)
      ensures old(prodRoot) != "" ==> unchanged(this)
      ensures reply == LogsReply(host, Lookup(AllInstances(host, prodRoot, devRoot), name), lines, logType)
    {
      var instances := ListInstances(app, host);
      var found := FindInstance(instances, name);
      reply := LogsReply(host, found, lines, logType);
    }

    /** `restart_instance`. */
    method RestartInstance(app: Config, host: Host, name: string) returns (reply: OpReply)
      modifies this
      ensures old(prodRoot) == "" ==> Configured(app)
      ensures old(prodRoot) != "" ==> unchanged(this)
      ensures reply == RestartReply(host, Lookup(AllInstances(host, prodRoot, devRoot), name), name)
    {
      var instances := ListInstances(app, host);
      var found := FindInstance(instances, name);
      reply := RestartReply(host, found, name);
    }
  }

  /** Scanning one more entry appends at most that entry's record. */
  lemma ScanStep(host: Host, root: string, names: seq<string>, i: nat, env: Environment)
    requires i < |names|
    ensures Scan(host, root, names[..i + 1], env)
      == Scan(host, root, names[..i], env)
         + (if host.IsDir(Join(root, names[i])) then [InstanceInfo(host, names[i], Join(root, names[i]), env)] else [])
  {
    assert names[..i + 1][..i] == names[..i];
  }

  /** Once a non-empty production root has been read, later configurations are ignored. */
  method InitPathsOnce(first: Config, second: Config) returns (m: InstanceManager)
    requires first.prodRoot != ""
    ensures m.Configured(first)
  {
    m := new InstanceManager();
    m.InitPaths(first);
    m.InitPaths(second);
  }

  /** A database update requested without the neutralisation flag neutralises: the
      script is answered `s` twice and the reply says so. */
  method UpdateDbByDefault(app: Config, host: Host, name: string) returns (reply: OpReply)
    ensures reply == UpdateDbReply(host, app.devRoot, name, true)
    ensures reply.Ok? ==> reply.neutralize == Some(true)
    ensures InstanceScriptLaunch(UpdateDb, app.devRoot, name, "update-db.sh", true).stdin == Some("s\ns\n")
  {
    var m := new InstanceManager();
    reply := m.UpdateInstanceDb(app, host, name);
    UpdateDbSpec(host, app.devRoot, name, true, host.run);
    assert "s\n" + "s" + "\n" == "s\ns\n";
  }

  /** A log request without a count or a type reads the last 100 lines of the journal. */
  method LogsByDefault(app: Config, host: Host, name: string) returns (reply: LogReply)
    ensures reply == LogsReply(host, Lookup(AllInstances(host, app.prodRoot, app.devRoot), name), 100, "systemd")
    ensures reply.LogOk? ==> reply.lines == 100 && reply.kind == "systemd"
  {
    var m := new InstanceManager();
    reply := m.GetInstanceLogs(app, host, name);
  }
}
