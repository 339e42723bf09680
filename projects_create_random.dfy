// "projects create-random": creates a number of public test projects in an
// existing parent group, each named after a base name and a fresh UUID,
// stopping at the first failed request.

module ProjectsCreateRandom {
  import opened Wrappers
  import opened Flags
  import opened GitlabUtil
  import opened XmlUsers
  import opened Environment

  // The fields of ProjectsCreateRandomOptions, stored under `prefix`.
  function DryRunField(prefix: string): string { prefix + ".DryRun" }
  function ParentGroupField(prefix: string): string { prefix + ".ParentGroup" }
  function ProjectBaseNameField(prefix: string): string { prefix + ".ProjectBaseName" }
  function ProjectCountField(prefix: string): string { prefix + ".ProjectCount" }

  /** The flags Initialize registers; -n and --dry-run write the same field. */
  function Bindings(prefix: string): map<string, Flag>
  {
    map["n" := Flag(DryRunField(prefix), BoolKind),
        "dry-run" := Flag(DryRunField(prefix), BoolKind),
        "parent-group" := Flag(ParentGroupField(prefix), StringKind),
        "project-base-name" := Flag(ProjectBaseNameField(prefix), StringKind),
        "project-count" := Flag(ProjectCountField(prefix), Uint64Kind)]
  }

  /** The fields after Initialize: each flag registered with the field's current value. */
  function Registered(fields: Fields, prefix: string): Fields
  {
    KeepCurrent(KeepCurrent(KeepCurrent(KeepCurrent(fields, DryRunField(prefix), BoolKind),
      ParentGroupField(prefix), StringKind), ProjectBaseNameField(prefix), StringKind),
      ProjectCountField(prefix), Uint64Kind)
  }

  lemma DistinctFields(prefix: string)
    ensures DryRunField(prefix) != ParentGroupField(prefix)
    ensures DryRunField(prefix) != ProjectBaseNameField(prefix)
    ensures DryRunField(prefix) != ProjectCountField(prefix)
    ensures ParentGroupField(prefix) != ProjectBaseNameField(prefix)
    ensures ParentGroupField(prefix) != ProjectCountField(prefix)
    ensures ProjectBaseNameField(prefix) != ProjectCountField(prefix)
  {
    var n := |prefix| + 1;
    assert DryRunField(prefix)[n] == 'D' && ParentGroupField(prefix)[n] == 'P';
    assert ParentGroupField(prefix)[n + 1] == 'a' && ProjectBaseNameField(prefix)[n + 1] == 'r';
    assert ProjectCountField(prefix)[n + 1] == 'r';
    assert ProjectBaseNameField(prefix)[n + 7] == 'B' && ProjectCountField(prefix)[n + 7] == 'C';
  }

  /**
   * Registration keeps what the options already hold (a value read from the
   * options file survives unless its flag is given), and touches no other field.
   */
  lemma RegisteredKeepsValues(fields: Fields, prefix: string)
    ensures var f := Registered(fields, prefix);
            BoolAt(f, DryRunField(prefix)) == BoolAt(fields, DryRunField(prefix))
            && StrAt(f, ParentGroupField(prefix)) == StrAt(fields, ParentGroupField(prefix))
            && StrAt(f, ProjectBaseNameField(prefix)) == StrAt(fields, ProjectBaseNameField(prefix))
            && UintAt(f, ProjectCountField(prefix)) == UintAt(fields, ProjectCountField(prefix))
            && forall k ::
                 k !in {DryRunField(prefix), ParentGroupField(prefix), ProjectBaseNameField(prefix), ProjectCountField(prefix)}
                 ==> SameAt(fields, f, k)
  {
    DistinctFields(prefix);
    var f1 := KeepCurrent(fields, DryRunField(prefix), BoolKind);
    var f2 := KeepCurrent(f1, ParentGroupField(prefix), StringKind);
    var f3 := KeepCurrent(f2, ProjectBaseNameField(prefix), StringKind);
    KeepCurrentKeepsValues(fields, DryRunField(prefix), BoolKind);
    KeepCurrentKeepsValues(f1, ParentGroupField(prefix), StringKind);
    KeepCurrentKeepsValues(f2, ProjectBaseNameField(prefix), StringKind);
    KeepCurrentKeepsValues(f3, ProjectCountField(prefix), Uint64Kind);
  }

  /** -n and --dry-run, with the current DryRun. */
  method RegisterDryRun(o: Store, prefix: string, flags: FlagSet)
    requires "n" !in flags.formal && "dry-run" !in flags.formal
    modifies o, flags
    ensures flags.formal == old(flags.formal)["n" := Flag(DryRunField(prefix), BoolKind)]
                                              ["dry-run" := Flag(DryRunField(prefix), BoolKind)]
    ensures o.fields == KeepCurrent(old(o.fields), DryRunField(prefix), BoolKind)
    ensures flags.actual == old(flags.actual) && flags.args == old(flags.args) && flags.parsed == old(flags.parsed)
  {
    flags.Define(o, "n", DryRunField(prefix), Bool(BoolAt(o.fields, DryRunField(prefix))));
    flags.Define(o, "dry-run", DryRunField(prefix), Bool(BoolAt(o.fields, DryRunField(prefix))));
  }

  /** ProjectsCreateRandomOptions.Initialize. */
  method Initialize(o: Store, prefix: string, flags: FlagSet)
    requires flags.formal.Keys !! Bindings(prefix).Keys
    modifies o, flags
    ensures flags.formal == old(flags.formal) + Bindings(prefix)
    ensures o.fields == Registered(old(o.fields), prefix)
    ensures flags.actual == old(flags.actual) && flags.args == old(flags.args) && flags.parsed == old(flags.parsed)
  {
    RegisterDryRun(o, prefix, flags);
    flags.Define(o, "parent-group", ParentGroupField(prefix), Str(StrAt(o.fields, ParentGroupField(prefix))));
    flags.Define(o, "project-base-name", ProjectBaseNameField(prefix),
      Str(StrAt(o.fields, ProjectBaseNameField(prefix))));
    flags.Define(o, "project-count", ProjectCountField(prefix), Uint(UintAt(o.fields, ProjectCountField(prefix))));
  }

  /** The CreateProject request for one project: public, "Test Project", merge requests and snippets on. */
  function CreateOptions(g: Group, projectBaseName: string, suffix: string): CreateProjectOptions
  {
    CreateProjectOptions(g.id, projectBaseName + "-" + suffix, "Test Project", true, true, PublicVisibility)
  }

  /** The full path CreateRandomProject logs for the new project. */
  function FullPath(g: Group, projectBaseName: string, suffix: string): string
  {
    g.fullPath + "/" + projectBaseName + "-" + suffix
  }

  /**
   * The logged path names the project the request creates: the parent
   * group's full path and a slash, then exactly the path sent in the request
   * to that group's namespace; different UUIDs log different paths.
   */
  lemma FullPathNamesRequest(g: Group, projectBaseName: string, suffix: string, other: string)
    ensures var opts := CreateOptions(g, projectBaseName, suffix);
            var full := FullPath(g, projectBaseName, suffix);
            var n := |g.fullPath| + 1;
            opts.namespaceID == g.id && |full| == n + |opts.path|
            && full[..n] == g.fullPath + "/" && full[n..] == opts.path
    ensures other != suffix ==> FullPath(g, projectBaseName, other) != FullPath(g, projectBaseName, suffix)
  {
    var n := |g.fullPath| + 1;
    var full := FullPath(g, projectBaseName, suffix);
    assert full == (g.fullPath + "/") + (projectBaseName + "-" + suffix);
    if other != suffix {
      var m := n + |projectBaseName| + 1;
      var full' := FullPath(g, projectBaseName, other);
      assert full[m..] == suffix && full'[m..] == other;
    }
  }

  /** CreateRandomProject with `suffix` as the UUID: the request it sends (none in a dry run) and its error. */
  function CreateOne(s: ProjectsService, g: Group, projectBaseName: string, dryRun: bool, suffix: string)
    : (Option<string>, seq<Effect>)
  {
    if dryRun then (None, [])
    else
      var opts := CreateOptions(g, projectBaseName, suffix);
      match s.createProject(opts)
      case None => (None, [CreateRequest(opts)])
      case Some(e) => (Some("CreateProject: " + e), [CreateRequest(opts)])
  }

  /** CreateRandomProject. */
  method CreateRandomProject(s: ProjectsService, g: Group, projectBaseName: string, dryRun: bool, suffix: string)
    returns (err: Option<string>, sent: seq<Effect>)
    ensures (err, sent) == CreateOne(s, g, projectBaseName, dryRun, suffix)
  {
    var opts := CreateOptions(g, projectBaseName, suffix);
    sent := [];
    if !dryRun {
      var e := s.createProject(opts);
      sent := [CreateRequest(opts)];
      if e.Some? {
        return Some("CreateProject: " + e.value), sent;
      }
    }
    err := None;
  }

  /** The first `n` rounds of CreateRandomProjects' loop; the i-th round uses the i-th UUID. */
  function Creations(s: ProjectsService, g: Group, projectBaseName: string, dryRun: bool, uuid: nat -> string, n: nat)
    : (Option<string>, seq<Effect>)
  {
    if n == 0 then (None, [])
    else
      var before := Creations(s, g, projectBaseName, dryRun, uuid, n - 1);
      if before.0.Some? then before
      else
        var last := CreateOne(s, g, projectBaseName, dryRun, uuid(n - 1));
        (last.0, before.1 + last.1)
  }

  /** The requests of the first `n` rounds when none fails. */
  function Requests(g: Group, projectBaseName: string, uuid: nat -> string, n: nat): (r: seq<Effect>)
    ensures |r| == n
    ensures forall i :: 0 <= i < n ==> r[i] == CreateRequest(CreateOptions(g, projectBaseName, uuid(i)))
  {
    seq(n, i requires 0 <= i < n => CreateRequest(CreateOptions(g, projectBaseName, uuid(i))))
  }

  /** The round whose request fails first among the first `n`; `n` when none does. */
  function FailingAt(s: ProjectsService, g: Group, projectBaseName: string, uuid: nat -> string, n: nat): (k: nat)
    ensures k <= n
    ensures forall i :: 0 <= i < k ==> s.createProject(CreateOptions(g, projectBaseName, uuid(i))).None?
    ensures k < n ==> s.createProject(CreateOptions(g, projectBaseName, uuid(k))).Some?
  {
    if n == 0 then 0
    else
      var k := FailingAt(s, g, projectBaseName, uuid, n - 1);
      if k < n - 1 then k
      else if s.createProject(CreateOptions(g, projectBaseName, uuid(n - 1))).Some? then n - 1
      else n
  }

  /**
   * Without a dry run, the rounds send one request each, in order, up to and
   * including the first that fails, whose error ends the loop; when none
   * fails there are exactly `n` requests.
   */
  lemma {:induction false} CreationsStopAtFirstFailure(s: ProjectsService, g: Group, projectBaseName: string,
                                                       uuid: nat -> string, n: nat)
    ensures var k := FailingAt(s, g, projectBaseName, uuid, n);
            k == n ==> Creations(s, g, projectBaseName, false, uuid, n) == (None, Requests(g, projectBaseName, uuid, n))
    ensures var k := FailingAt(s, g, projectBaseName, uuid, n);
            k < n ==> Creations(s, g, projectBaseName, false, uuid, n)
                      == (Some("CreateProject: " + s.createProject(CreateOptions(g, projectBaseName, uuid(k))).value),
                          Requests(g, projectBaseName, uuid, k + 1))
  {
    if n > 0 {
      var m: nat := n - 1;
      CreationsStopAtFirstFailure(s, g, projectBaseName, uuid, m);
      var k := FailingAt(s, g, projectBaseName, uuid, m);
      var before := Creations(s, g, projectBaseName, false, uuid, m);
      var last := CreateOne(s, g, projectBaseName, false, uuid(m));
      assert Creations(s, g, projectBaseName, false, uuid, n)
             == if before.0.Some? then before else (last.0, before.1 + last.1);
      if k < m {
        assert FailingAt(s, g, projectBaseName, uuid, n) == k;
      } else {
        var opts := CreateOptions(g, projectBaseName, uuid(m));
        assert before == (None, Requests(g, projectBaseName, uuid, m));
        assert last.1 == [CreateRequest(opts)];
        RequestsSnoc(g, projectBaseName, uuid, m);
        if s.createProject(opts).Some? {
          assert FailingAt(s, g, projectBaseName, uuid, n) == m;
          assert last.0 == Some("CreateProject: " + s.createProject(opts).value);
        } else {
          assert FailingAt(s, g, projectBaseName, uuid, n) == n;
          assert last.0 == None;
        }
      }
    }
  }

  lemma RequestsSnoc(g: Group, projectBaseName: string, uuid: nat -> string, m: nat)
    ensures Requests(g, projectBaseName, uuid, m + 1)
            == Requests(g, projectBaseName, uuid, m) + [CreateRequest(CreateOptions(g, projectBaseName, uuid(m)))]
  {
    assert Requests(g, projectBaseName, uuid, m + 1)[..m] == Requests(g, projectBaseName, uuid, m);
  }

  /** A dry run sends no request and reports no error, however many rounds. */
  lemma {:induction false} DryRunCreatesNothing(s: ProjectsService, g: Group, projectBaseName: string,
                                                uuid: nat -> string, n: nat)
    ensures Creations(s, g, projectBaseName, true, uuid, n) == (None, [])
  {
    if n > 0 {
      DryRunCreatesNothing(s, g, projectBaseName, uuid, n - 1);
      var before := Creations(s, g, projectBaseName, true, uuid, n - 1);
      var last := CreateOne(s, g, projectBaseName, true, uuid(n - 1));
      assert last.0 == None && last.1 == [];
      assert Creations(s, g, projectBaseName, true, uuid, n) == (last.0, before.1 + last.1);
      assert before.1 + last.1 == [];
    }
  }

  /** CreateRandomProjects: find the parent group, then `projectCount` rounds. */
  function CreateAll(client: Client, parentGroup: string, projectBaseName: string, projectCount: nat, dryRun: bool,
                     uuid: nat -> string): (Option<string>, seq<Effect>)
    requires Serves(client)
  {
    match ExactGroupFrom(client.groups.listGroups(parentGroup), parentGroup, 1)
    case Err(e) => (Some(e), [])
    case Ok(g) => Creations(client.projects, g, projectBaseName, dryRun, uuid, projectCount)
  }

  /** CreateRandomProjects; `uuid` stands for the strings uuid.NewString returns, in order. */
  method CreateRandomProjects(client: Client, parentGroup: string, projectBaseName: string, projectCount: nat,
                              dryRun: bool, uuid: nat -> string)
    returns (err: Option<string>, effects: seq<Effect>)
    requires Serves(client)
    ensures (err, effects) == CreateAll(client, parentGroup, projectBaseName, projectCount, dryRun, uuid)
  {
    var found := FindExactGroup(client.groups, parentGroup);
    if found.Err? {
      return Some(found.error), [];
    }
    var g := found.value;
    effects := [];
    for i := 0 to projectCount
      invariant Creations(client.projects, g, projectBaseName, dryRun, uuid, i) == (None, effects)
    {
      var e, sent := CreateRandomProject(client.projects, g, projectBaseName, dryRun, uuid(i));
      effects := effects + sent;
      if e.Some? {
        assert Creations(client.projects, g, projectBaseName, dryRun, uuid, i + 1) == (e, effects);
        CreationsStopAfterFailure(client.projects, g, projectBaseName, dryRun, uuid, i + 1, projectCount);
        return e, effects;
      }
    }
    err := None;
  }

  /** Once a round fails, later rounds change nothing. */
  lemma {:induction false} CreationsStopAfterFailure(s: ProjectsService, g: Group, projectBaseName: string,
                                                     dryRun: bool, uuid: nat -> string, m: nat, n: nat)
    requires m <= n
    requires Creations(s, g, projectBaseName, dryRun, uuid, m).0.Some?
    ensures Creations(s, g, projectBaseName, dryRun, uuid, n) == Creations(s, g, projectBaseName, dryRun, uuid, m)
    decreases n
  {
    if m < n {
      CreationsStopAfterFailure(s, g, projectBaseName, dryRun, uuid, m, n - 1);
    }
  }

  /**
   * A parent group that cannot be found stops everything before the first
   * request, with FindExactGroup's error unchanged; otherwise every request
   * goes to that group, and there are exactly `projectCount` of them when
   * none fails and it is not a dry run.
   */
  lemma CreateAllRequests(client: Client, parentGroup: string, projectBaseName: string, projectCount: nat,
                          dryRun: bool, uuid: nat -> string)
    requires Serves(client)
    ensures var found := ExactGroupFrom(client.groups.listGroups(parentGroup), parentGroup, 1);
            var r := CreateAll(client, parentGroup, projectBaseName, projectCount, dryRun, uuid);
            (found.Err? ==> r == (Some(found.error), []))
            && (found.Ok? && dryRun ==> r == (None, []))
            && (found.Ok? && !dryRun
                && FailingAt(client.projects, found.value, projectBaseName, uuid, projectCount) == projectCount
                ==> r == (None, Requests(found.value, projectBaseName, uuid, projectCount)))
            && (found.Ok? ==> |r.1| <= projectCount)
            && (found.Ok? ==>
                  forall i :: 0 <= i < |r.1| ==>
                    r.1[i].CreateRequest? && r.1[i].options.namespaceID == found.value.id
                    && r.1[i].options.path == projectBaseName + "-" + uuid(i))
  {
    var found := ExactGroupFrom(client.groups.listGroups(parentGroup), parentGroup, 1);
    if found.Ok? {
      if dryRun {
        DryRunCreatesNothing(client.projects, found.value, projectBaseName, uuid, projectCount);
      } else {
        CreationsStopAtFirstFailure(client.projects, found.value, projectBaseName, uuid, projectCount);
      }
    }
  }

  /** The first invalid option, in the order Run checks them. */
  function Invalid(fields: Fields, prefix: string): Option<string>
  {
    if StrAt(fields, ParentGroupField(prefix)) == "" then Some("invalid parent group: \"\"")
    else if StrAt(fields, ProjectBaseNameField(prefix)) == "" then Some("invalid project base name: \"\"")
    else if UintAt(fields, ProjectCountField(prefix)) == 0 then Some("invalid project count: 0")
    else None
  }

  /** What Run does once its flags are parsed into `fields`. */
  function Execute(fields: Fields, prefix: string, client: Client, env: Env, disk: Disk): Outcome
    requires Serves(client)
  {
    match Invalid(fields, prefix)
    case Some(e) => Outcome(Some(e), [], fields, disk)
    case None =>
      var r := CreateAll(client, StrAt(fields, ParentGroupField(prefix)), StrAt(fields, ProjectBaseNameField(prefix)),
        UintAt(fields, ProjectCountField(prefix)), BoolAt(fields, DryRunField(prefix)), env.uuid);
      Outcome(r.0, r.1, fields, disk)
  }

  /** Run: parse the flags, then Execute. */
  function RunOutcome(formal: map<string, Flag>, actual: set<string>, fields: Fields, prefix: string,
                      client: Client, env: Env, disk: Disk, args: seq<string>): Outcome
    requires Serves(client)
  {
    var p := ParseArgs(formal, fields, args, actual);
    if p.err.Some? then ParseFailed(p, disk) else Execute(p.fields, prefix, client, env, disk)
  }

  /**
   * Run sends nothing unless the parent group, the base name and the count
   * are all set, and then creates in that group, one request per round.
   */
  lemma ExecuteValidatesFirst(fields: Fields, prefix: string, client: Client, env: Env, disk: Disk)
    requires Serves(client)
    ensures var r := Execute(fields, prefix, client, env, disk);
            r.fields == fields && r.disk == disk
            && (Invalid(fields, prefix).Some? ==> r.err == Invalid(fields, prefix) && r.effects == [])
            && (StrAt(fields, ParentGroupField(prefix)) == "" ==> r.err == Some("invalid parent group: \"\""))
            && (Invalid(fields, prefix).None? ==>
                  StrAt(fields, ParentGroupField(prefix)) != "" && StrAt(fields, ProjectBaseNameField(prefix)) != ""
                  && UintAt(fields, ProjectCountField(prefix)) > 0
                  && |r.effects| <= UintAt(fields, ProjectCountField(prefix)))
  {
    CreateAllRequests(client, StrAt(fields, ParentGroupField(prefix)), StrAt(fields, ProjectBaseNameField(prefix)),
      UintAt(fields, ProjectCountField(prefix)), BoolAt(fields, DryRunField(prefix)), env.uuid);
  }

  /** ProjectsCreateRandomCommand. */
  class ProjectsCreateRandomCommand {
    const name: string
    const store: Store
    const prefix: string
    const flags: FlagSet
    const client: Client

    ghost predicate Valid()
    {
      Serves(client)
    }

    /** NewProjectsCreateRandomCommand: a fresh flag set, with the options' flags registered on it. */
    constructor (name: string, store: Store, prefix: string, client: Client)
      modifies store
      ensures this.name == name && this.store == store && this.prefix == prefix && this.client == client
      ensures fresh(flags) && flags.name == name && flags.formal == Bindings(prefix)
      ensures flags.actual == {} && flags.args == [] && !flags.parsed
      ensures store.fields == Registered(old(store.fields), prefix)
    {
      this.name := name;
      this.store := store;
      this.prefix := prefix;
      this.client := client;
      var fs := new FlagSet(name);
      flags := fs;
      new;
      Initialize(store, prefix, flags);
    }

    /** Run: parse, validate the options, then CreateRandomProjects. */
    method Run(env: Env, fs: FileSystem, args: seq<string>) returns (err: Option<string>, effects: seq<Effect>)
      requires Valid()
      modifies store, flags
      ensures var p := ParseArgs(old(flags.formal), old(store.fields), args, old(flags.actual));
              flags.formal == old(flags.formal) && flags.actual == p.actual && flags.args == p.rest && flags.parsed
      ensures Outcome(err, effects, store.fields, fs.Contents())
              == RunOutcome(old(flags.formal), old(flags.actual), old(store.fields), prefix, client, env, old(fs.Contents()), args)
    {
      err := flags.Parse(store, args);
      if err.Some? {
        return err, [];
      }
      var parentGroup := StrAt(store.fields, ParentGroupField(prefix));
      var projectBaseName := StrAt(store.fields, ProjectBaseNameField(prefix));
      var projectCount := UintAt(store.fields, ProjectCountField(prefix));
      if parentGroup == "" {
        return Some("invalid parent group: \"\""), [];
      } else if projectBaseName == "" {
        return Some("invalid project base name: \"\""), [];
      } else if projectCount == 0 {
        return Some("invalid project count: 0"), [];
      }
      err, effects := CreateRandomProjects(client, parentGroup, projectBaseName, projectCount,
        BoolAt(store.fields, DryRunField(prefix)), env.uuid);
    }
  }
}
