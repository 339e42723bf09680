// "projects": a parent command over ProjectsOptions whose subcommands are
// create-random, delete and list. ProjectsOptions.Initialize registers no
// flag. The "delete" child is built by NewProjectsDeleteCommand, whose
// source is not part of this model: it runs as the environment says.

module ProjectsCommand {
  import opened Flags
  import opened Environment
  import opened Command
  import ProjectsCreateRandom
  import ProjectsList

  /** The option fields of the modelled children: ProjectsCreateRandomOpts and ProjectsListOpts. */
  function CreateRandomOpts(prefix: string): string { prefix + ".ProjectsCreateRandomOpts" }
  function ListOpts(prefix: string): string { prefix + ".ProjectsListOpts" }

  /** The options after NewProjectsCommand: the Initialize of create-random, then of list. */
  function Registered(fields: Fields, prefix: string): Fields
  {
    ProjectsList.Registered(ProjectsCreateRandom.Registered(fields, CreateRandomOpts(prefix)), ListOpts(prefix))
  }

  /** NewProjectsCommand: an empty parent, then addSubcmds. */
  method NewProjectsCommand(name: string, store: Store, prefix: string, client: Client) returns (cmd: ParentCommand)
    requires Serves(client)
    modifies store
    ensures fresh(cmd) && fresh(cmd.flags) && fresh(cmd.Repr)
    ensures cmd.name == name && cmd.store == store && cmd.Valid() && cmd.flags.actual == {}
    ensures cmd.subcmds.Keys == {"create-random", "delete", "list"}
    ensures cmd.subcmds["create-random"].ProjectsCreateRandomRunner?
            && cmd.subcmds["create-random"].projectsCreateRandom.prefix == CreateRandomOpts(prefix)
            && cmd.subcmds["create-random"].projectsCreateRandom.client == client
    ensures cmd.subcmds["delete"] == ExternalRunner("projects delete")
    ensures cmd.subcmds["list"].ProjectsListRunner?
            && cmd.subcmds["list"].projectsList.prefix == ListOpts(prefix)
            && cmd.subcmds["list"].projectsList.client == client
    ensures store.fields == Registered(old(store.fields), prefix)
  {
    cmd := new ParentCommand(name, store);
    var createRandom := new ProjectsCreateRandom.ProjectsCreateRandomCommand("create-random", store, CreateRandomOpts(prefix), client);
    cmd.Add("create-random", ProjectsCreateRandomRunner(createRandom));
    cmd.Add("delete", ExternalRunner("projects delete"));
    var list := new ProjectsList.ProjectsListCommand("list", store, ListOpts(prefix), client);
    cmd.Add("list", ProjectsListRunner(list));
    assert cmd.subcmds == map["create-random" := ProjectsCreateRandomRunner(createRandom),
                              "delete" := ExternalRunner("projects delete"),
                              "list" := ProjectsListRunner(list)];
    assert cmd.Repr == {createRandom.flags, list.flags};
  }
}
