// "project create-random": the same creation as "projects create-random",
// over ProjectCreateRandomOptions. Its fields and flags are those of
// ProjectsCreateRandomOptions, and so are CreateRandomProject(s) and the
// validation of Run; only registration differs: --parent-group,
// --project-base-name and --project-count are registered with the literal
// defaults "", "" and 0, not with the fields' current values.

module ProjectCreateRandom {
  import opened Wrappers
  import opened Flags
  import opened XmlUsers
  import opened Environment
  import ProjectsCreateRandom

  /** The fields after Initialize: DryRun kept, the three others reset to their literal defaults. */
  function ResetRegistered(fields: Fields, prefix: string): Fields
  {
    KeepCurrent(fields, ProjectsCreateRandom.DryRunField(prefix), BoolKind)
      [ProjectsCreateRandom.ParentGroupField(prefix) := Str("")]
      [ProjectsCreateRandom.ProjectBaseNameField(prefix) := Str("")]
      [ProjectsCreateRandom.ProjectCountField(prefix) := Uint(0)]
  }

  /**
   * Registration discards whatever the options held for the parent group,
   * the base name and the count when the subcommand is built, keeps DryRun,
   * and touches no other field. Run loads options.xml only after the
   * subcommands are built, so values from that file are not affected.
   */
  lemma ResetRegisteredDiscards(fields: Fields, prefix: string)
    ensures var f := ResetRegistered(fields, prefix);
            BoolAt(f, ProjectsCreateRandom.DryRunField(prefix)) == BoolAt(fields, ProjectsCreateRandom.DryRunField(prefix))
            && StrAt(f, ProjectsCreateRandom.ParentGroupField(prefix)) == ""
            && StrAt(f, ProjectsCreateRandom.ProjectBaseNameField(prefix)) == ""
            && UintAt(f, ProjectsCreateRandom.ProjectCountField(prefix)) == 0
            && ProjectsCreateRandom.Invalid(f, prefix) == Some("invalid parent group: \"\"")
            && forall k ::
                 k !in {ProjectsCreateRandom.DryRunField(prefix), ProjectsCreateRandom.ParentGroupField(prefix), ProjectsCreateRandom.ProjectBaseNameField(prefix), ProjectsCreateRandom.ProjectCountField(prefix)}
                 ==> SameAt(fields, f, k)
  {
    ProjectsCreateRandom.DistinctFields(prefix);
    KeepCurrentKeepsValues(fields, ProjectsCreateRandom.DryRunField(prefix), BoolKind);
  }

  /** ProjectCreateRandomOptions.Initialize. */
  method Initialize(o: Store, prefix: string, flags: FlagSet)
    requires flags.formal.Keys !! ProjectsCreateRandom.Bindings(prefix).Keys
    modifies o, flags
    ensures flags.formal == old(flags.formal) + ProjectsCreateRandom.Bindings(prefix)
    ensures o.fields == ResetRegistered(old(o.fields), prefix)
    ensures flags.actual == old(flags.actual) && flags.args == old(flags.args) && flags.parsed == old(flags.parsed)
  {
    ProjectsCreateRandom.RegisterDryRun(o, prefix, flags);
    flags.Define(o, "parent-group", ProjectsCreateRandom.ParentGroupField(prefix), Str(""));
    flags.Define(o, "project-base-name", ProjectsCreateRandom.ProjectBaseNameField(prefix), Str(""));
    flags.Define(o, "project-count", ProjectsCreateRandom.ProjectCountField(prefix), Uint(0));
  }

  /** ProjectCreateRandomCommand. */
  class ProjectCreateRandomCommand {
    const name: string
    const store: Store
    const prefix: string
    const flags: FlagSet
    const client: Client

    ghost predicate Valid()
    {
      Serves(client)
    }

    /** NewProjectCreateRandomCommand: a fresh flag set, with the options' flags registered on it. */
    constructor (name: string, store: Store, prefix: string, client: Client)
      modifies store
      ensures this.name == name && this.store == store && this.prefix == prefix && this.client == client
      ensures fresh(flags) && flags.name == name && flags.formal == ProjectsCreateRandom.Bindings(prefix)
      ensures flags.actual == {} && flags.args == [] && !flags.parsed
      ensures store.fields == ResetRegistered(old(store.fields), prefix)
    {
      this.name := name;
      this.store := store;
      this.prefix := prefix;
      this.client := client;
      var fs := new FlagSet(name);
      flags := fs;
      new;
      Initialize(store, prefix, flags);
    }

    /** Run: parse, validate the options, then CreateRandomProjects. */
    method Run(env: Env, fs: FileSystem, args: seq<string>) returns (err: Option<string>, effects: seq<Effect>)
      requires Valid()
      modifies store, flags
      ensures var p := ParseArgs(old(flags.formal), old(store.fields), args, old(flags.actual));
              flags.formal == old(flags.formal) && flags.actual == p.actual && flags.args == p.rest && flags.parsed
      ensures Outcome(err, effects, store.fields, fs.Contents())
              == ProjectsCreateRandom.RunOutcome(old(flags.formal), old(flags.actual), old(store.fields), prefix, client, env, old(fs.Contents()), args)
    {
      err := flags.Parse(store, args);
      if err.Some? {
        return err, [];
      }
      var parentGroup := StrAt(store.fields, ProjectsCreateRandom.ParentGroupField(prefix));
      var projectBaseName := StrAt(store.fields, ProjectsCreateRandom.ProjectBaseNameField(prefix));
      var projectCount := UintAt(store.fields, ProjectsCreateRandom.ProjectCountField(prefix));
      if parentGroup == "" {
        return Some("invalid parent group: \"\""), [];
      } else if projectBaseName == "" {
        return Some("invalid project base name: \"\""), [];
      } else if projectCount == 0 {
        return Some("invalid project count: 0"), [];
      }
      err, effects := ProjectsCreateRandom.CreateRandomProjects(client, parentGroup, projectBaseName, projectCount,
        BoolAt(store.fields, ProjectsCreateRandom.DryRunField(prefix)), env.uuid);
    }
  }
}
