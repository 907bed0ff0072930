/**
 * The instance records the manager reports: one per subdirectory of the
 * production root, then one per subdirectory of the development root, each
 * filled from the instance's descriptor file and its service's state; and the
 * lookup of a record by name.
 */
module Registry {
  import opened Wrappers
  import opened Text
  import opened Os
  import opened Descriptor
  import opened ServiceStatus

  datatype Environment = Production | Development

  /** An instance record. `serviceDetails` is only filled in by the status query. */
  datatype Instance = Instance(name: string, env: Environment, path: string, status: Status,
                               port: Option<nat>, domain: Option<string>,
                               database: Option<string>, service: Option<string>,
                               serviceDetails: Option<string>)

  const DescriptorName := "info-instancia.txt"

  /** The fields read from the instance's descriptor: none when the file does not exist
      or cannot be read, otherwise the four searches over its text. */
  function DescriptorFields(host: Host, path: string): (fields: Fields)
  {
    var file := Join(path, DescriptorName);
    if !host.Exists(file) then NoFields
    else
      match host.Read(file)
      case None => NoFields
      case Some(content) => Parse(content)
  }

  /** The state reported for an instance: probed only when a service name was found. */
  function ServiceState(host: Host, service: Option<string>): (st: Status)
  {
    if service.Some? then StatusOf(host.run(IsActive(service.value))) else Unknown
  }

  /** The record built for the entry `name` at `path`. */
  function InstanceInfo(host: Host, name: string, path: string, env: Environment): (info: Instance)
  {
    var f := DescriptorFields(host, path);
    Instance(name, env, path, ServiceState(host, f.service),
             f.port, f.domain, f.database, f.service, None)
  }

  /** The records for the entries of `names` under `root` that are directories, in
      listing order. */
  function Scan(host: Host, root: string, names: seq<string>, env: Environment): (rs: seq<Instance>)
  {
    if names == [] then []
    else
      var name := names[|names| - 1];
      var path := Join(root, name);
      Scan(host, root, names[..|names| - 1], env)
        + (if host.IsDir(path) then [InstanceInfo(host, name, path, env)] else [])
  }

  /** The entries of `names` under `root` that are directories, in listing order. */
  function DirNames(host: Host, root: string, names: seq<string>): (ds: seq<string>)
  {
    if names == [] then []
    else
      var name := names[|names| - 1];
      DirNames(host, root, names[..|names| - 1]) + (if host.IsDir(Join(root, name)) then [name] else [])
  }

  /** The records of one root; a root that does not exist contributes nothing. */
  function RootInstances(host: Host, root: string, env: Environment): (rs: seq<Instance>)
  {
    if host.Exists(root) then Scan(host, root, host.ListDir(root), env) else []
  }

  /** `list_instances`: production records first, then development records. */
  function AllInstances(host: Host, prodRoot: string, devRoot: string): (all: seq<Instance>)
  {
    RootInstances(host, prodRoot, Production) + RootInstances(host, devRoot, Development)
  }

  /** Position of the first record named `name`. */
  function FindIndex(instances: seq<Instance>, name: string): (r: Option<nat>)
    ensures r.Some? ==> r.value < |instances| && instances[r.value].name == name
    ensures r.Some? ==> forall i :: 0 <= i < r.value ==> instances[i].name != name
    ensures r.None? ==> forall i :: 0 <= i < |instances| ==> instances[i].name != name
  {
    if instances == [] then None
    else if instances[0].name == name then Some(0)
    else
      var r := FindIndex(instances[1..], name);
      if r.Some? then Some(r.value + 1) else None
  }

  /** The first record whose name equals `name`, or None. */
  function Lookup(instances: seq<Instance>, name: string): (found: Option<Instance>)
  {
    var i := FindIndex(instances, name);
    if i.Some? then Some(instances[i.value]) else None
  }

  /** `get_instance_status`: the record found by name, with `service_details` set to the
      output of `systemctl status` (or `Error: <message>` when that raised) when the
      record has a service. */
  function StatusReply(host: Host, instances: seq<Instance>, name: string): (reply: Option<Instance>)
  {
    match Lookup(instances, name)
    case None => None
    case Some(inst) =>
      if inst.service.None? then Some(inst)
      else
        var details :=
          match host.run(StatusDump(inst.service.value))
          case Completed(_, out, _) => out
          case Raised(message) => "Error: " + message;
        Some(inst.(serviceDetails := Some(details)))
  }

  // ---------------------------------------------------------------------------
  // Properties

  /** A record's fields are its descriptor's fields; its state is unknown unless a
      service name was found, and then it is the probe's normalised answer. */
  lemma InstanceInfoSpec(host: Host, name: string, path: string, env: Environment)
    ensures var r := InstanceInfo(host, name, path, env);
      r.name == name && r.env == env && r.path == path && r.serviceDetails.None?
      && (r.status != Unknown ==> r.service.Some?)
      && (r.service.Some? ==> r.status == StatusOf(host.run(IsActive(r.service.value))))
  {
  }

  /** Without a readable descriptor every optional field is absent and the state is
      unknown. */
  lemma NoDescriptorDefaults(host: Host, name: string, path: string, env: Environment)
    requires host.Read(Join(path, DescriptorName)).None?
    ensures var r := InstanceInfo(host, name, path, env);
      r.port.None? && r.domain.None? && r.database.None? && r.service.None? && r.status == Unknown
  {
  }

  /** With a readable descriptor the record carries exactly what the searches find. */
  lemma DescriptorParsed(host: Host, name: string, path: string, env: Environment, content: string)
    requires host.Read(Join(path, DescriptorName)) == Some(content)
    ensures var r := InstanceInfo(host, name, path, env); var f := Parse(content);
      r.port == f.port && r.domain == f.domain && r.database == f.database && r.service == f.service
  {
  }

  /** Every scanned record is the record of a directory entry, tagged with the root's
      environment; there is one per directory entry, in listing order. */
  lemma {:induction false} ScanSpec(host: Host, root: string, names: seq<string>, env: Environment)
    ensures var rs := Scan(host, root, names, env); var ds := DirNames(host, root, names);
      |rs| == |ds|
      && forall i :: 0 <= i < |rs| ==>
           rs[i] == InstanceInfo(host, ds[i], Join(root, ds[i]), env) && rs[i].env == env
  {
    if names != [] {
      ScanSpec(host, root, names[..|names| - 1], env);
    }
  }

  /** The directory names are exactly the entries that are directories. */
  lemma {:induction false} DirNamesSpec(host: Host, root: string, names: seq<string>)
    ensures forall n :: n in DirNames(host, root, names) <==> n in names && host.IsDir(Join(root, n))
    ensures |DirNames(host, root, names)| <= |names|
  {
    if names != [] {
      var init, last := names[..|names| - 1], names[|names| - 1];
      DirNamesSpec(host, root, init);
      assert names == init + [last];
      var ds := DirNames(host, root, init);
      var extra := if host.IsDir(Join(root, last)) then [last] else [];
      assert DirNames(host, root, names) == ds + extra;
      forall n
        ensures n in ds + extra <==> n in names && host.IsDir(Join(root, n))
      {
        assert n in names <==> n in init || n == last;
      }
    }
  }

  /** Production records come first, then development records; a missing root adds
      none, and the count is the number of directory entries of the existing roots. */
  lemma AllInstancesOrder(host: Host, prodRoot: string, devRoot: string)
    ensures var all := AllInstances(host, prodRoot, devRoot);
      var k := |RootInstances(host, prodRoot, Production)|;
      k <= |all|
      && (forall i :: 0 <= i < |all| ==> (all[i].env == Production <==> i < k))
      && (!host.Exists(prodRoot) ==> k == 0)
      && (!host.Exists(devRoot) ==> |all| == k)
      && |all| == (if host.Exists(prodRoot) then |DirNames(host, prodRoot, host.ListDir(prodRoot))| else 0)
                + (if host.Exists(devRoot) then |DirNames(host, devRoot, host.ListDir(devRoot))| else 0)
  {
    ScanSpec(host, prodRoot, host.ListDir(prodRoot), Production);
    ScanSpec(host, devRoot, host.ListDir(devRoot), Development);
  }

  /** Every directory entry of an existing root is reported under its name. */
  lemma {:induction false} EveryDirectoryListed(host: Host, root: string, env: Environment, n: string)
    requires host.Exists(root) && n in host.ListDir(root) && host.IsDir(Join(root, n))
    ensures exists r :: r in RootInstances(host, root, env) && r.name == n && r.path == Join(root, n)
  {
    var names := host.ListDir(root);
    DirNamesSpec(host, root, names);
    ScanSpec(host, root, names, env);
    var ds := DirNames(host, root, names);
    var i :| 0 <= i < |ds| && ds[i] == n;
    assert Scan(host, root, names, env)[i].name == n;
  }

  /** Lookup finds a record exactly when one has that name, and it is the first. */
  lemma LookupSpec(instances: seq<Instance>, name: string)
    ensures Lookup(instances, name).None? <==> forall r :: r in instances ==> r.name != name
    ensures Lookup(instances, name).Some? ==>
      exists i :: 0 <= i < |instances| && Lookup(instances, name) == Some(instances[i])
        && instances[i].name == name && forall j :: 0 <= j < i ==> instances[j].name != name
  {
    var i := FindIndex(instances, name);
    if i.None? {
      forall r | r in instances
        ensures r.name != name
      {
        var j :| 0 <= j < |instances| && instances[j] == r;
      }
    }
  }

  /** A production instance shadows a development instance of the same name. */
  lemma LookupPrefersProduction(host: Host, prodRoot: string, devRoot: string, name: string)
    requires exists r :: r in RootInstances(host, prodRoot, Production) && r.name == name
    ensures var found := Lookup(AllInstances(host, prodRoot, devRoot), name);
      found.Some? && found.value.env == Production && found.value.name == name
  {
    var all := AllInstances(host, prodRoot, devRoot);
    var prod := RootInstances(host, prodRoot, Production);
    AllInstancesOrder(host, prodRoot, devRoot);
    var r :| r in prod && r.name == name;
    var j :| 0 <= j < |prod| && prod[j] == r;
    assert all[j] == r;
    var i := FindIndex(all, name).value;
    assert i <= j;
  }

  /** The status query answers None exactly when no record has the name; otherwise it
      returns that first record with only `service_details` changed, and changed
      exactly when the record has a service. */
  lemma StatusReplySpec(host: Host, instances: seq<Instance>, name: string)
    ensures var reply := StatusReply(host, instances, name); var found := Lookup(instances, name);
      (reply.None? <==> found.None?)
      && (found.Some? ==> reply.value.(serviceDetails := found.value.serviceDetails) == found.value)
      && (found.Some? && found.value.service.None? ==> reply == found)
      && (found.Some? && found.value.service.Some? ==>
            var o := host.run(StatusDump(found.value.service.value));
            (o.Completed? ==> reply.value.serviceDetails == Some(o.stdout))
            && (o.Raised? ==> reply.value.serviceDetails == Some("Error: " + o.message)))
  {
  }
}
