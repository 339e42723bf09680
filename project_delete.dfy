// "project delete": collects every project of a group whose path matches a
// regular expression, then deletes them one by one, stopping at the first
// failure. Its -n/--dry-run flags are registered on the program's
// package-level flag set, which the command never parses.

module ProjectDelete {
  import opened Wrappers
  import opened Strings
  import opened Flags
  import opened Paging
  import opened GitlabUtil
  import opened XmlUsers
  import opened Environment
  import ProjectsList

  // The fields of ProjectDeleteOptions, stored under `prefix`. Expr, Group
  // and Recursive, and the flags that write them, are those of
  // ProjectsListOptions.
  function DryRunField(prefix: string): string { prefix + ".DryRun" }
  function ExprField(prefix: string): string { ProjectsList.ExprField(prefix) }
  function GroupField(prefix: string): string { ProjectsList.GroupField(prefix) }
  function RecursiveField(prefix: string): string { ProjectsList.RecursiveField(prefix) }

  /** The flags Initialize registers on the command's own set: --expr, --group, -r, --recursive. */
  function Bindings(prefix: string): map<string, Flag>
  {
    ProjectsList.Bindings(prefix)
  }

  /** The flags Initialize registers on the package-level set. */
  function CommandLineBindings(prefix: string): map<string, Flag>
  {
    map["n" := Flag(DryRunField(prefix), BoolKind), "dry-run" := Flag(DryRunField(prefix), BoolKind)]
  }

  /** The fields after Initialize: every flag registered with the field's current value. */
  function Registered(fields: Fields, prefix: string): Fields
  {
    ProjectsList.Registered(KeepCurrent(fields, DryRunField(prefix), BoolKind), prefix)
  }

  lemma DistinctFields(prefix: string)
    ensures DryRunField(prefix) != ExprField(prefix) && DryRunField(prefix) != GroupField(prefix)
    ensures DryRunField(prefix) != RecursiveField(prefix)
  {
    var n := |prefix| + 1;
    assert DryRunField(prefix)[n] == 'D' && ExprField(prefix)[n] == 'E';
    assert GroupField(prefix)[n] == 'G' && RecursiveField(prefix)[n] == 'R';
  }

  /** -n and --dry-run on the package-level set, with the current DryRun. */
  method RegisterDryRun(o: Store, prefix: string, commandLine: FlagSet)
    requires commandLine.formal.Keys !! CommandLineBindings(prefix).Keys
    modifies o, commandLine
    ensures commandLine.formal == old(commandLine.formal) + CommandLineBindings(prefix)
    ensures o.fields == KeepCurrent(old(o.fields), DryRunField(prefix), BoolKind)
    ensures commandLine.actual == old(commandLine.actual) && commandLine.args == old(commandLine.args)
    ensures commandLine.parsed == old(commandLine.parsed)
  {
    commandLine.Define(o, "n", DryRunField(prefix), Bool(BoolAt(o.fields, DryRunField(prefix))));
    commandLine.Define(o, "dry-run", DryRunField(prefix), Bool(BoolAt(o.fields, DryRunField(prefix))));
  }

  /** ProjectDeleteOptions.Initialize: -n and --dry-run on `commandLine`, the rest on `flags`. */
  method Initialize(o: Store, prefix: string, flags: FlagSet, commandLine: FlagSet)
    requires flags != commandLine
    requires flags.formal.Keys !! Bindings(prefix).Keys
    requires commandLine.formal.Keys !! CommandLineBindings(prefix).Keys
    modifies o, flags, commandLine
    ensures flags.formal == old(flags.formal) + Bindings(prefix)
    ensures commandLine.formal == old(commandLine.formal) + CommandLineBindings(prefix)
    ensures o.fields == Registered(old(o.fields), prefix)
    ensures flags.actual == old(flags.actual) && flags.args == old(flags.args) && flags.parsed == old(flags.parsed)
    ensures commandLine.actual == old(commandLine.actual) && commandLine.args == old(commandLine.args)
    ensures commandLine.parsed == old(commandLine.parsed)
  {
    RegisterDryRun(o, prefix, commandLine);
    ProjectsList.Initialize(o, prefix, flags);
  }

  /**
   * The command's own Parse never changes DryRun, whatever the arguments:
   * only the package-level set binds -n and --dry-run.
   */
  lemma ParseKeepsDryRun(prefix: string, fields: Fields, args: seq<string>, actual: set<string>)
    ensures SameAt(fields, ParseArgs(Bindings(prefix), fields, args, actual).fields, DryRunField(prefix))
  {
    DistinctFields(prefix);
    ParseKeepsUnbound(Bindings(prefix), fields, args, actual, DryRunField(prefix));
  }

  /** DeleteProject: the request it sends (none in a dry run) and its error. */
  function DeleteOne(s: ProjectsService, p: Project, dryRun: bool): (r: (Option<string>, seq<Effect>))
  {
    if dryRun then (None, [])
    else
      match s.deleteProject(p.id)
      case None => (None, [DeleteRequest(p.id)])
      case Some(e) => (Some("DeleteProject: " + e), [DeleteRequest(p.id)])
  }

  /** DeleteProject. */
  method DeleteProject(s: ProjectsService, p: Project, dryRun: bool) returns (err: Option<string>, sent: seq<Effect>)
    ensures (err, sent) == DeleteOne(s, p, dryRun)
  {
    sent := [];
    if !dryRun {
      var e := s.deleteProject(p.id);
      sent := [DeleteRequest(p.id)];
      if e.Some? {
        return Some("DeleteProject: " + e.value), sent;
      }
    }
    err := None;
  }

  /** The deletion loop of DeleteProjects over the collected projects. */
  function Deletions(s: ProjectsService, ps: seq<Project>, dryRun: bool): (Option<string>, seq<Effect>)
  {
    if ps == [] then (None, [])
    else
      var first := DeleteOne(s, ps[0], dryRun);
      if first.0.Some? then (Some("DeleteProjects: " + first.0.value), first.1)
      else
        var rest := Deletions(s, ps[1..], dryRun);
        (rest.0, first.1 + rest.1)
  }

  /** The position of the first project whose deletion fails; |ps| when none does. */
  function FailingAt(s: ProjectsService, ps: seq<Project>): (k: nat)
    ensures k <= |ps|
    ensures forall j :: 0 <= j < k ==> s.deleteProject(ps[j].id).None?
    ensures k < |ps| ==> s.deleteProject(ps[k].id).Some?
  {
    if ps == [] then 0
    else if s.deleteProject(ps[0].id).Some? then 0
    else 1 + FailingAt(s, ps[1..])
  }

  function DeleteRequests(ps: seq<Project>): (r: seq<Effect>)
    ensures |r| == |ps|
    ensures forall i :: 0 <= i < |ps| ==> r[i] == DeleteRequest(ps[i].id)
  {
    seq(|ps|, i requires 0 <= i < |ps| => DeleteRequest(ps[i].id))
  }

  lemma RequestsCons(ps: seq<Project>)
    requires ps != []
    ensures DeleteRequests(ps) == [DeleteRequest(ps[0].id)] + DeleteRequests(ps[1..])
  {
    assert DeleteRequests(ps)[1..] == DeleteRequests(ps[1..]);
  }

  /**
   * Projects are deleted in collected order; the first failing deletion
   * ends the loop with its error, and no later project is touched.
   */
  lemma {:induction false} DeletionsStopAtFirstFailure(s: ProjectsService, ps: seq<Project>)
    ensures FailingAt(s, ps) == |ps| ==> Deletions(s, ps, false) == (None, DeleteRequests(ps))
    ensures FailingAt(s, ps) < |ps| ==>
              Deletions(s, ps, false)
              == (Some("DeleteProjects: " + ("DeleteProject: " + s.deleteProject(ps[FailingAt(s, ps)].id).value)),
                  DeleteRequests(ps[..FailingAt(s, ps) + 1]))
  {
    if ps == [] {
      return;
    }
    var first := DeleteOne(s, ps[0], false);
    var e := s.deleteProject(ps[0].id);
    assert first.1 == [DeleteRequest(ps[0].id)];
    if e.Some? {
      assert first.0 == Some("DeleteProject: " + e.value);
      assert FailingAt(s, ps) == 0;
      assert Deletions(s, ps, false) == (Some("DeleteProjects: " + first.0.value), first.1);
      assert DeleteRequests(ps[..1]) == [DeleteRequest(ps[0].id)];
      return;
    }
    assert first.0 == None;
    var tail := ps[1..];
    DeletionsStopAtFirstFailure(s, tail);
    var k := FailingAt(s, tail);
    assert FailingAt(s, ps) == k + 1;
    var rest := Deletions(s, tail, false);
    assert Deletions(s, ps, false) == (rest.0, first.1 + rest.1);
    if k == |tail| {
      RequestsCons(ps);
    } else {
      assert ps[k + 1] == tail[k];
      assert ps[..k + 2][1..] == tail[..k + 1];
      RequestsCons(ps[..k + 2]);
    }
  }

  /** A dry run sends no request and reports no error. */
  lemma {:induction false} DryRunDeletesNothing(s: ProjectsService, ps: seq<Project>)
    ensures Deletions(s, ps, true) == (None, [])
  {
    if ps != [] {
      DryRunDeletesNothing(s, ps[1..]);
      var first := DeleteOne(s, ps[0], true);
      assert first.0 == None && first.1 == [];
      var rest := Deletions(s, ps[1..], true);
      assert rest.0 == None && rest.1 == [];
      assert Deletions(s, ps, true) == (rest.0, first.1 + rest.1);
      assert first.1 + rest.1 == [];
    }
  }

  /** DeleteProjects: collect every matching project first, then delete them in order. */
  function DeleteAll(client: Client, group: string, expr: string, compile: Compiler, recursive: bool, dryRun: bool)
    : (Option<string>, seq<Effect>)
    requires Serves(client)
  {
    var (collected, err) := ProjectsWalk(client.groups, group, expr, compile, recursive, CollectProject);
    if err.Some? then (Some("DeleteProjects: " + ("GetAllProjects: " + err.value)), [])
    else Deletions(client.projects, collected, dryRun)
  }

  /**
   * The complete list is collected before the first deletion: a collection
   * error means no deletion request at all, and otherwise the deletions are
   * exactly those of the collected list.
   */
  lemma CollectsBeforeDeleting(client: Client, group: string, expr: string, compile: Compiler, recursive: bool, dryRun: bool)
    requires Serves(client)
    ensures var (collected, err) := ProjectsWalk(client.groups, group, expr, compile, recursive, CollectProject);
            var r := DeleteAll(client, group, expr, compile, recursive, dryRun);
            var k := FailingAt(client.projects, collected);
            (err.Some? ==> r.1 == [] && r.0 == Some("DeleteProjects: " + ("GetAllProjects: " + err.value)))
            && (err.None? && !dryRun && k == |collected| ==> r == (None, DeleteRequests(collected)))
            && (err.None? && !dryRun && k < |collected| ==> r.0.Some? && r.1 == DeleteRequests(collected[..k + 1]))
            && (dryRun ==> r.1 == [] && (err.None? ==> r.0 == None))
  {
    var (collected, err) := ProjectsWalk(client.groups, group, expr, compile, recursive, CollectProject);
    DeletionsStopAtFirstFailure(client.projects, collected);
    DryRunDeletesNothing(client.projects, collected);
  }

  /** DeleteProjects. */
  method DeleteProjects(client: Client, group: string, expr: string, compile: Compiler, recursive: bool, dryRun: bool)
    returns (err: Option<string>, effects: seq<Effect>)
    requires Serves(client)
    ensures (err, effects) == DeleteAll(client, group, expr, compile, recursive, dryRun)
  {
    var projects := GetAllProjects(client.groups, group, expr, compile, recursive);
    if projects.Err? {
      return Some("DeleteProjects: " + projects.error), [];
    }
    err, effects := DeleteEach(client.projects, projects.value, dryRun);
  }

  /** The `for _, p := range projects` loop of DeleteProjects. */
  method DeleteEach(s: ProjectsService, ps: seq<Project>, dryRun: bool) returns (err: Option<string>, effects: seq<Effect>)
    ensures (err, effects) == Deletions(s, ps, dryRun)
  {
    ghost var whole := Deletions(s, ps, dryRun);
    effects := [];
    assert ps[0..] == ps;
    assert effects + whole.1 == whole.1;
    for i := 0 to |ps|
      invariant var rest := Deletions(s, ps[i..], dryRun);
                whole == (rest.0, effects + rest.1)
    {
      ghost var rest := Deletions(s, ps[i..], dryRun);
      ghost var next := Deletions(s, ps[i + 1..], dryRun);
      assert ps[i..][0] == ps[i] && ps[i..][1..] == ps[i + 1..];
      var e, sent := DeleteProject(s, ps[i], dryRun);
      if e.Some? {
        assert rest == (Some("DeleteProjects: " + e.value), sent);
        return Some("DeleteProjects: " + e.value), effects + sent;
      }
      assert rest == (next.0, sent + next.1);
      assert effects + rest.1 == (effects + sent) + next.1;
      effects := effects + sent;
    }
    assert ps[|ps|..] == [];
    assert effects + [] == effects;
    err := None;
  }

  /** What Run does once its flags are parsed into `fields`. */
  function Execute(fields: Fields, prefix: string, client: Client, env: Env, disk: Disk): Outcome
    requires Serves(client)
  {
    var group := StrAt(fields, GroupField(prefix));
    if group == "" then Outcome(Some("group not set"), [], fields, disk)
    else
      var (err, effects) := DeleteAll(client, group, StrAt(fields, ExprField(prefix)), env.compile,
        BoolAt(fields, RecursiveField(prefix)), BoolAt(fields, DryRunField(prefix)));
      Outcome(err, effects, fields, disk)
  }

  /** Run: parse the flags, then Execute. */
  function RunOutcome(formal: map<string, Flag>, actual: set<string>, fields: Fields, prefix: string,
                      client: Client, env: Env, disk: Disk, args: seq<string>): Outcome
    requires Serves(client)
  {
    var p := ParseArgs(formal, fields, args, actual);
    if p.err.Some? then ParseFailed(p, disk) else Execute(p.fields, prefix, client, env, disk)
  }

  /** Without a group, Run deletes nothing and reports "group not set". */
  lemma NoGroupDeletesNothing(fields: Fields, prefix: string, client: Client, env: Env, disk: Disk)
    requires Serves(client)
    requires StrAt(fields, GroupField(prefix)) == ""
    ensures Execute(fields, prefix, client, env, disk) == Outcome(Some("group not set"), [], fields, disk)
  {
  }

  /** ProjectDeleteCommand. */
  class ProjectDeleteCommand {
    const name: string
    const store: Store
    const prefix: string
    const flags: FlagSet
    const client: Client

    ghost predicate Valid()
    {
      Serves(client)
    }

    /** NewProjectDeleteCommand: -n and --dry-run go to `commandLine`, the rest to a fresh set. */
    constructor (name: string, store: Store, prefix: string, client: Client, commandLine: FlagSet)
      requires commandLine.formal.Keys !! CommandLineBindings(prefix).Keys
      modifies store, commandLine
      ensures this.name == name && this.store == store && this.prefix == prefix && this.client == client
      ensures fresh(flags) && flags.name == name && flags.formal == Bindings(prefix)
      ensures flags.actual == {} && flags.args == [] && !flags.parsed
      ensures commandLine.formal == old(commandLine.formal) + CommandLineBindings(prefix)
      ensures commandLine.actual == old(commandLine.actual) && commandLine.args == old(commandLine.args)
      ensures commandLine.parsed == old(commandLine.parsed)
      ensures store.fields == Registered(old(store.fields), prefix)
    {
      this.name := name;
      this.store := store;
      this.prefix := prefix;
      this.client := client;
      var fs := new FlagSet(name);
      flags := fs;
      new;
      Initialize(store, prefix, flags, commandLine);
    }

    /** Run: parse, require a group, then DeleteProjects with the options' DryRun. */
    method Run(env: Env, fs: FileSystem, args: seq<string>) returns (err: Option<string>, effects: seq<Effect>)
      requires Valid()
      modifies store, flags
      ensures var p := ParseArgs(old(flags.formal), old(store.fields), args, old(flags.actual));
              flags.formal == old(flags.formal) && flags.actual == p.actual && flags.args == p.rest && flags.parsed
      ensures Outcome(err, effects, store.fields, fs.Contents())
              == RunOutcome(old(flags.formal), old(flags.actual), old(store.fields), prefix, client, env, old(fs.Contents()), args)
    {
      err := flags.Parse(store, args);
      if err.Some? {
        return err, [];
      }
      var group := StrAt(store.fields, GroupField(prefix));
      if group == "" {
        return Some("group not set"), [];
      }
      err, effects := DeleteProjects(client, group, StrAt(store.fields, ExprField(prefix)), env.compile,
        BoolAt(store.fields, RecursiveField(prefix)), BoolAt(store.fields, DryRunField(prefix)));
    }
  }
}
