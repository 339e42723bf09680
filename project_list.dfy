// "project list": the same listing as "projects list", over the options of
// ProjectListOptions, whose fields, flags and tags are those of
// ProjectsListOptions; the option functions of ProjectsList serve both.

module ProjectList {
  import opened Wrappers
  import opened Flags
  import opened GitlabUtil
  import opened XmlUsers
  import opened Environment
  import ProjectsList

  /** ProjectListCommand. */
  class ProjectListCommand {
    const name: string
    const store: Store
    const prefix: string
    const flags: FlagSet
    const client: Client

    ghost predicate Valid()
    {
      Serves(client)
    }

    /** NewProjectListCommand: a fresh flag set with --expr, --group, -r and --recursive. */
    constructor (name: string, store: Store, prefix: string, client: Client)
      modifies store
      ensures this.name == name && this.store == store && this.prefix == prefix && this.client == client
      ensures fresh(flags) && flags.name == name && flags.formal == ProjectsList.Bindings(prefix)
      ensures flags.actual == {} && flags.args == [] && !flags.parsed
      ensures store.fields == ProjectsList.Registered(old(store.fields), prefix)
    {
      this.name := name;
      this.store := store;
      this.prefix := prefix;
      this.client := client;
      var fs := new FlagSet(name);
      flags := fs;
      new;
      ProjectsList.Initialize(store, prefix, flags);
    }

    /** Run: parse, require a group, print every matching project. */
    method Run(env: Env, fs: FileSystem, args: seq<string>) returns (err: Option<string>, effects: seq<Effect>)
      requires Valid()
      modifies store, flags
      ensures var p := ParseArgs(old(flags.formal), old(store.fields), args, old(flags.actual));
              flags.formal == old(flags.formal) && flags.actual == p.actual && flags.args == p.rest && flags.parsed
      ensures Outcome(err, effects, store.fields, fs.Contents())
              == ProjectsList.RunOutcome(old(flags.formal), old(flags.actual), old(store.fields), prefix, client, env, old(fs.Contents()), args)
    {
      err := flags.Parse(store, args);
      if err.Some? {
        return err, [];
      }
      var group := StrAt(store.fields, ProjectsList.GroupField(prefix));
      if group == "" {
        return Some("group not set"), [];
      }
      var called;
      called, err := ForEachProjectInGroup(client.groups, group, StrAt(store.fields, ProjectsList.ExprField(prefix)),
        env.compile, BoolAt(store.fields, ProjectsList.RecursiveField(prefix)), PrintProject);
      effects := ProjectLines(called);
    }
  }
}
