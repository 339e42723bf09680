// "project": a parent command over ProjectOptions whose subcommands are
// create-random, delete and list, each working on its own part of the
// options. ProjectOptions.Initialize registers no flag.

module ProjectCommand {
  import opened Wrappers
  import opened Flags
  import opened XmlUsers
  import opened Environment
  import opened Command
  import ProjectsCreateRandom
  import ProjectCreateRandom
  import ProjectDelete
  import ProjectsList
  import ProjectList

  /** The option fields of the children: ProjectCreateRandomOpts, ProjectDeleteOpts, ProjectListOpts. */
  function CreateRandomOpts(prefix: string): string { prefix + ".ProjectCreateRandomOpts" }
  function DeleteOpts(prefix: string): string { prefix + ".ProjectDeleteOpts" }
  function ListOpts(prefix: string): string { prefix + ".ProjectListOpts" }

  /** The names addSubcmds registers. */
  function Names(): set<string> { {"create-random", "delete", "list"} }

  /** The options after NewProjectCommand: each child's Initialize, in the order addSubcmds creates them. */
  function Registered(fields: Fields, prefix: string): Fields
  {
    ProjectsList.Registered(
      ProjectDelete.Registered(
        ProjectCreateRandom.ResetRegistered(fields, CreateRandomOpts(prefix)),
        DeleteOpts(prefix)),
      ListOpts(prefix))
  }

  /** A create-random child as addSubcmds makes it: its name, its options, the client, its flags unparsed. */
  ghost predicate CreateRandomBuilt(c: ProjectCreateRandom.ProjectCreateRandomCommand, prefix: string, client: Client)
    reads c.flags
  {
    c.name == "create-random" && c.prefix == CreateRandomOpts(prefix) && c.client == client
    && c.flags.formal == ProjectsCreateRandom.Bindings(c.prefix) && c.flags.actual == {}
  }

  /** A delete child as addSubcmds makes it. */
  ghost predicate DeleteBuilt(c: ProjectDelete.ProjectDeleteCommand, prefix: string, client: Client)
    reads c.flags
  {
    c.name == "delete" && c.prefix == DeleteOpts(prefix) && c.client == client
    && c.flags.formal == ProjectDelete.Bindings(c.prefix) && c.flags.actual == {}
  }

  /** A list child as addSubcmds makes it. */
  ghost predicate ListBuilt(c: ProjectList.ProjectListCommand, prefix: string, client: Client)
    reads c.flags
  {
    c.name == "list" && c.prefix == ListOpts(prefix) && c.client == client
    && c.flags.formal == ProjectsList.Bindings(c.prefix) && c.flags.actual == {}
  }

  /**
   * The state NewProjectCommand leaves: no flag of its own, nothing parsed,
   * and one freshly initialized child per name, bound to its own options
   * and to the client.
   */
  ghost predicate Built(cmd: ParentCommand, prefix: string, client: Client)
    reads cmd, cmd.flags, cmd.Repr
  {
    cmd.Valid() && cmd.flags.actual == {}
    && cmd.subcmds.Keys == Names()
    && cmd.subcmds["create-random"].ProjectCreateRandomRunner?
    && cmd.subcmds["delete"].ProjectDeleteRunner?
    && cmd.subcmds["list"].ProjectListRunner?
    && CreateRandomBuilt(cmd.subcmds["create-random"].projectCreateRandom, prefix, client)
    && DeleteBuilt(cmd.subcmds["delete"].projectDelete, prefix, client)
    && ListBuilt(cmd.subcmds["list"].projectList, prefix, client)
  }

  /** NewProjectCommand: an empty parent, ProjectOptions.Initialize (which registers nothing), then addSubcmds. */
  method NewProjectCommand(name: string, store: Store, prefix: string, client: Client, commandLine: FlagSet)
    returns (cmd: ParentCommand)
    requires Serves(client)
    requires commandLine.formal.Keys !! ProjectDelete.CommandLineBindings(DeleteOpts(prefix)).Keys
    modifies store, commandLine
    ensures fresh(cmd) && fresh(cmd.flags) && fresh(cmd.Repr)
    ensures cmd.name == name && cmd.store == store && Built(cmd, prefix, client)
    ensures store.fields == Registered(old(store.fields), prefix)
    ensures commandLine.formal == old(commandLine.formal) + ProjectDelete.CommandLineBindings(DeleteOpts(prefix))
    ensures commandLine.actual == old(commandLine.actual) && commandLine.args == old(commandLine.args)
    ensures commandLine.parsed == old(commandLine.parsed)
  {
    ghost var before := store.fields;
    cmd := new ParentCommand(name, store);
    assert cmd.store.fields == before;
    ghost var createRandom, delete, list := AddSubcmds(cmd, prefix, client, commandLine);
    AssembledIsBuilt(cmd, createRandom, delete, list, prefix, client);
  }

  /**
   * addSubcmds: create-random, delete and list, each on its part of the options and with the client.
   * The three children are handed back as ghost results so that the caller can name them.
   */
  method AddSubcmds(cmd: ParentCommand, prefix: string, client: Client, commandLine: FlagSet)
    returns (ghost createRandom: ProjectCreateRandom.ProjectCreateRandomCommand,
             ghost delete: ProjectDelete.ProjectDeleteCommand, ghost list: ProjectList.ProjectListCommand)
    requires Serves(client) && cmd.Valid() && cmd.subcmds == map[] && cmd.Repr == {}
    requires cmd.flags != commandLine
    requires commandLine.formal.Keys !! ProjectDelete.CommandLineBindings(DeleteOpts(prefix)).Keys
    modifies cmd, cmd.store, commandLine
    ensures cmd.Valid() && cmd.Repr == {createRandom.flags, delete.flags, list.flags}
    ensures fresh(createRandom.flags) && fresh(delete.flags) && fresh(list.flags)
    ensures cmd.subcmds == map[]["create-random" := ProjectCreateRandomRunner(createRandom)]
                                ["delete" := ProjectDeleteRunner(delete)]["list" := ProjectListRunner(list)]
    ensures CreateRandomBuilt(createRandom, prefix, client) && DeleteBuilt(delete, prefix, client)
    ensures ListBuilt(list, prefix, client)
    ensures cmd.store.fields == Registered(old(cmd.store.fields), prefix)
    ensures commandLine.formal == old(commandLine.formal) + ProjectDelete.CommandLineBindings(DeleteOpts(prefix))
    ensures commandLine.actual == old(commandLine.actual) && commandLine.args == old(commandLine.args)
    ensures commandLine.parsed == old(commandLine.parsed)
  {
    createRandom := AddCreateRandom(cmd, prefix, client);
    delete := AddDelete(cmd, prefix, client, commandLine);
    list := AddList(cmd, prefix, client);
  }

  /** A valid parent holding exactly the three built children is a built "project" command. */
  lemma AssembledIsBuilt(cmd: ParentCommand, createRandom: ProjectCreateRandom.ProjectCreateRandomCommand,
                         delete: ProjectDelete.ProjectDeleteCommand, list: ProjectList.ProjectListCommand,
                         prefix: string, client: Client)
    requires cmd.Valid() && cmd.flags.actual == {}
    requires cmd.subcmds == map[]["create-random" := ProjectCreateRandomRunner(createRandom)]
                                ["delete" := ProjectDeleteRunner(delete)]["list" := ProjectListRunner(list)]
    requires CreateRandomBuilt(createRandom, prefix, client) && DeleteBuilt(delete, prefix, client)
    requires ListBuilt(list, prefix, client)
    ensures Built(cmd, prefix, client)
  {
    assert cmd.subcmds.Keys == Names();
  }

  /** The first statement of addSubcmds: subcmds["create-random"] = NewProjectCreateRandomCommand(...). */
  method AddCreateRandom(cmd: ParentCommand, prefix: string, client: Client)
    returns (c: ProjectCreateRandom.ProjectCreateRandomCommand)
    requires Serves(client) && cmd.Valid()
    modifies cmd, cmd.store
    ensures fresh(c.flags) && CreateRandomBuilt(c, prefix, client) && cmd.Valid()
    ensures cmd.subcmds == old(cmd.subcmds)["create-random" := ProjectCreateRandomRunner(c)]
    ensures cmd.Repr == old(cmd.Repr) + {c.flags}
    ensures cmd.store.fields == ProjectCreateRandom.ResetRegistered(old(cmd.store.fields), CreateRandomOpts(prefix))
  {
    c := new ProjectCreateRandom.ProjectCreateRandomCommand("create-random", cmd.store, CreateRandomOpts(prefix), client);
    cmd.Add("create-random", ProjectCreateRandomRunner(c));
  }

  /** The second statement of addSubcmds: subcmds["delete"] = NewProjectDeleteCommand(...). */
  method AddDelete(cmd: ParentCommand, prefix: string, client: Client, commandLine: FlagSet)
    returns (c: ProjectDelete.ProjectDeleteCommand)
    requires Serves(client) && cmd.Valid() && cmd.flags != commandLine
    requires commandLine.formal.Keys !! ProjectDelete.CommandLineBindings(DeleteOpts(prefix)).Keys
    modifies cmd, cmd.store, commandLine
    ensures fresh(c.flags) && DeleteBuilt(c, prefix, client) && cmd.Valid()
    ensures cmd.subcmds == old(cmd.subcmds)["delete" := ProjectDeleteRunner(c)]
    ensures cmd.Repr == old(cmd.Repr) + {c.flags}
    ensures cmd.store.fields == ProjectDelete.Registered(old(cmd.store.fields), DeleteOpts(prefix))
    ensures commandLine.formal == old(commandLine.formal) + ProjectDelete.CommandLineBindings(DeleteOpts(prefix))
    ensures commandLine.actual == old(commandLine.actual) && commandLine.args == old(commandLine.args)
    ensures commandLine.parsed == old(commandLine.parsed)
  {
    c := new ProjectDelete.ProjectDeleteCommand("delete", cmd.store, DeleteOpts(prefix), client, commandLine);
    cmd.Add("delete", ProjectDeleteRunner(c));
  }

  /** The third statement of addSubcmds: subcmds["list"] = NewProjectListCommand(...). */
  method AddList(cmd: ParentCommand, prefix: string, client: Client)
    returns (c: ProjectList.ProjectListCommand)
    requires Serves(client) && cmd.Valid()
    modifies cmd, cmd.store
    ensures fresh(c.flags) && ListBuilt(c, prefix, client) && cmd.Valid()
    ensures cmd.subcmds == old(cmd.subcmds)["list" := ProjectListRunner(c)]
    ensures cmd.Repr == old(cmd.Repr) + {c.flags}
    ensures cmd.store.fields == ProjectsList.Registered(old(cmd.store.fields), ListOpts(prefix))
  {
    c := new ProjectList.ProjectListCommand("list", cmd.store, ListOpts(prefix), client);
    cmd.Add("list", ProjectListRunner(c));
  }

  /**
   * What Run yields on a freshly built "project" command: no option of its
   * own, then the named child runs with its flags as Initialize left them.
   */
  function FreshOutcome(fields: Fields, prefix: string, client: Client, env: Env, disk: Disk, args: seq<string>): Outcome
    requires Serves(client)
  {
    var p := ParseArgs(map[], fields, args, {});
    if p.err.Some? then ParseFailed(p, disk)
    else match Route(Names(), p.rest)
      case Err(e) => Outcome(Some(e), [], p.fields, disk)
      case Ok(n) =>
        if n == "create-random" then
          ProjectsCreateRandom.RunOutcome(ProjectsCreateRandom.Bindings(CreateRandomOpts(prefix)), {}, p.fields,
            CreateRandomOpts(prefix), client, env, disk, p.rest[1..])
        else if n == "delete" then
          ProjectDelete.RunOutcome(ProjectDelete.Bindings(DeleteOpts(prefix)), {}, p.fields,
            DeleteOpts(prefix), client, env, disk, p.rest[1..])
        else
          ProjectsList.RunOutcome(ProjectsList.Bindings(ListOpts(prefix)), {}, p.fields,
            ListOpts(prefix), client, env, disk, p.rest[1..])
  }

  /** Running a freshly built "project" command is FreshOutcome, whatever its objects are. */
  lemma BuiltRuns(cmd: ParentCommand, prefix: string, client: Client, fields: Fields, env: Env, disk: Disk,
                  failures: map<string, string>, args: seq<string>)
    requires Serves(client) && Built(cmd, prefix, client)
    ensures cmd.RunOutcome(fields, env, disk, failures, args) == FreshOutcome(fields, prefix, client, env, disk, args)
  {
    var p := ParseArgs(map[], fields, args, {});
    assert cmd.flags.formal == map[] && cmd.flags.actual == {};
    if p.err.None? && p.rest != [] && p.rest[0] in Names() {
      if p.rest[0] == "create-random" {
        CreateRandomRuns(cmd, prefix, client, p.fields, env, disk, failures, p.rest);
      } else if p.rest[0] == "delete" {
        DeleteRuns(cmd, prefix, client, p.fields, env, disk, failures, p.rest);
      } else {
        ListRuns(cmd, prefix, client, p.fields, env, disk, failures, p.rest);
      }
    }
  }

  /** "create-random" reaches the built create-random child with its flags unparsed. */
  lemma CreateRandomRuns(cmd: ParentCommand, prefix: string, client: Client, fields: Fields, env: Env, disk: Disk,
                         failures: map<string, string>, rest: seq<string>)
    requires Serves(client) && Built(cmd, prefix, client) && rest != [] && rest[0] == "create-random"
    ensures cmd.Dispatched(fields, env, disk, failures, rest)
            == ProjectsCreateRandom.RunOutcome(ProjectsCreateRandom.Bindings(CreateRandomOpts(prefix)), {}, fields,
                 CreateRandomOpts(prefix), client, env, disk, rest[1..])
  {
    assert CreateRandomBuilt(cmd.subcmds["create-random"].projectCreateRandom, prefix, client);
  }

  /** "delete" reaches the built delete child with its flags unparsed. */
  lemma DeleteRuns(cmd: ParentCommand, prefix: string, client: Client, fields: Fields, env: Env, disk: Disk,
                   failures: map<string, string>, rest: seq<string>)
    requires Serves(client) && Built(cmd, prefix, client) && rest != [] && rest[0] == "delete"
    ensures cmd.Dispatched(fields, env, disk, failures, rest)
            == ProjectDelete.RunOutcome(ProjectDelete.Bindings(DeleteOpts(prefix)), {}, fields,
                 DeleteOpts(prefix), client, env, disk, rest[1..])
  {
    assert DeleteBuilt(cmd.subcmds["delete"].projectDelete, prefix, client);
  }

  /** "list" reaches the built list child with its flags unparsed. */
  lemma ListRuns(cmd: ParentCommand, prefix: string, client: Client, fields: Fields, env: Env, disk: Disk,
                 failures: map<string, string>, rest: seq<string>)
    requires Serves(client) && Built(cmd, prefix, client) && rest != [] && rest[0] == "list"
    ensures cmd.Dispatched(fields, env, disk, failures, rest)
            == ProjectsList.RunOutcome(ProjectsList.Bindings(ListOpts(prefix)), {}, fields,
                 ListOpts(prefix), client, env, disk, rest[1..])
  {
    assert ListBuilt(cmd.subcmds["list"].projectList, prefix, client);
  }
}
