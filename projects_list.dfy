// "projects list": lists the projects of a group whose path matches a
// regular expression, optionally descending into subgroups.

module ProjectsList {
  import opened Wrappers
  import opened Strings
  import opened Flags
  import opened Paging
  import opened GitlabUtil
  import opened XmlUsers
  import opened Environment

  // The fields of ProjectsListOptions, stored under `prefix`.
  function ExprField(prefix: string): string { prefix + ".Expr" }
  function GroupField(prefix: string): string { prefix + ".Group" }
  function RecursiveField(prefix: string): string { prefix + ".Recursive" }

  /** The flags Initialize registers; -r and --recursive write the same field. */
  function Bindings(prefix: string): map<string, Flag>
  {
    map["expr" := Flag(ExprField(prefix), StringKind),
        "group" := Flag(GroupField(prefix), StringKind),
        "r" := Flag(RecursiveField(prefix), BoolKind),
        "recursive" := Flag(RecursiveField(prefix), BoolKind)]
  }

  /** The fields after Initialize: each flag registered with the field's current value. */
  function Registered(fields: Fields, prefix: string): Fields
  {
    KeepCurrent(KeepCurrent(KeepCurrent(fields, ExprField(prefix), StringKind),
      GroupField(prefix), StringKind), RecursiveField(prefix), BoolKind)
  }

  lemma DistinctFields(prefix: string)
    ensures ExprField(prefix) != GroupField(prefix)
    ensures ExprField(prefix) != RecursiveField(prefix)
    ensures GroupField(prefix) != RecursiveField(prefix)
  {
    var n := |prefix| + 1;
    assert ExprField(prefix)[n] == 'E' && GroupField(prefix)[n] == 'G' && RecursiveField(prefix)[n] == 'R';
  }

  /**
   * Registration keeps what the options already hold (a value read from the
   * options file survives unless its flag is given), and touches no other field.
   */
  lemma RegisteredKeepsValues(fields: Fields, prefix: string)
    ensures var f := Registered(fields, prefix);
            StrAt(f, ExprField(prefix)) == StrAt(fields, ExprField(prefix))
            && StrAt(f, GroupField(prefix)) == StrAt(fields, GroupField(prefix))
            && BoolAt(f, RecursiveField(prefix)) == BoolAt(fields, RecursiveField(prefix))
            && forall k :: k !in {ExprField(prefix), GroupField(prefix), RecursiveField(prefix)} ==> SameAt(fields, f, k)
  {
    DistinctFields(prefix);
    var f1 := KeepCurrent(fields, ExprField(prefix), StringKind);
    var f2 := KeepCurrent(f1, GroupField(prefix), StringKind);
    KeepCurrentKeepsValues(fields, ExprField(prefix), StringKind);
    KeepCurrentKeepsValues(f1, GroupField(prefix), StringKind);
    KeepCurrentKeepsValues(f2, RecursiveField(prefix), BoolKind);
  }

  /** ProjectsListOptions.Initialize. */
  method Initialize(o: Store, prefix: string, flags: FlagSet)
    requires flags.formal.Keys !! Bindings(prefix).Keys
    modifies o, flags
    ensures flags.formal == old(flags.formal) + Bindings(prefix)
    ensures o.fields == Registered(old(o.fields), prefix)
    ensures flags.actual == old(flags.actual) && flags.args == old(flags.args) && flags.parsed == old(flags.parsed)
  {
    flags.Define(o, "expr", ExprField(prefix), Str(StrAt(o.fields, ExprField(prefix))));
    flags.Define(o, "group", GroupField(prefix), Str(StrAt(o.fields, GroupField(prefix))));
    flags.Define(o, "r", RecursiveField(prefix), Bool(BoolAt(o.fields, RecursiveField(prefix))));
    flags.Define(o, "recursive", RecursiveField(prefix), Bool(BoolAt(o.fields, RecursiveField(prefix))));
  }

  /** What Run does once its flags are parsed into `fields`. */
  function Execute(fields: Fields, prefix: string, client: Client, env: Env, disk: Disk): Outcome
    requires Serves(client)
  {
    var group := StrAt(fields, GroupField(prefix));
    if group == "" then Outcome(Some("group not set"), [], fields, disk)
    else
      var (called, err) := ProjectsWalk(client.groups, group, StrAt(fields, ExprField(prefix)), env.compile,
        BoolAt(fields, RecursiveField(prefix)), PrintProject);
      Outcome(err, ProjectLines(called), fields, disk)
  }

  /** Run: parse the flags, then Execute. */
  function RunOutcome(formal: map<string, Flag>, actual: set<string>, fields: Fields, prefix: string,
                      client: Client, env: Env, disk: Disk, args: seq<string>): Outcome
    requires Serves(client)
  {
    var p := ParseArgs(formal, fields, args, actual);
    if p.err.Some? then ParseFailed(p, disk) else Execute(p.fields, prefix, client, env, disk)
  }

  /**
   * Without a group Run fails with "group not set" and lists nothing; with
   * one, it prints exactly the projects of a complete listing whose path
   * matches, in order, and reports the listing's error unchanged.
   */
  lemma ExecuteListsMatching(fields: Fields, prefix: string, client: Client, env: Env, disk: Disk)
    requires Serves(client)
    ensures var r := Execute(fields, prefix, client, env, disk);
            r.fields == fields && r.disk == disk
            && (StrAt(fields, GroupField(prefix)) == "" ==> r.err == Some("group not set") && r.effects == [])
            && (StrAt(fields, GroupField(prefix)) != "" ==>
                  var group := StrAt(fields, GroupField(prefix));
                  var found := ExactGroupFrom(client.groups.listGroups(group), group, 1);
                  var compiled := env.compile(StrAt(fields, ExprField(prefix)));
                  (found.Err? || compiled.Err? ==> r.effects == [] && r.err.Some?)
                  && (found.Ok? && compiled.Ok? ==>
                        var l := ListFrom(client.groups.listGroupProjects(found.value.id, BoolAt(fields, RecursiveField(prefix))), 1);
                        r.effects == ProjectLines(Filter(PathMatcher(compiled.value), l.items))
                        && r.err == (if l.error.None? then None else Some(Wrapped("ForEachProjectInGroup", l.error.value)))))
  {
    var group := StrAt(fields, GroupField(prefix));
    if group != "" {
      var found := ExactGroupFrom(client.groups.listGroups(group), group, 1);
      var compiled := env.compile(StrAt(fields, ExprField(prefix)));
      if found.Ok? && compiled.Ok? {
        ProjectsWalkVisitsMatching(client.groups, group, StrAt(fields, ExprField(prefix)), env.compile,
          BoolAt(fields, RecursiveField(prefix)), PrintProject, found.value, compiled.value);
      }
    }
  }

  /** ProjectsListCommand. */
  class ProjectsListCommand {
    const name: string
    const store: Store
    const prefix: string
    const flags: FlagSet
    const client: Client

    ghost predicate Valid()
    {
      Serves(client)
    }

    /** NewProjectsListCommand: a fresh flag set, with the options' flags registered on it. */
    constructor (name: string, store: Store, prefix: string, client: Client)
      modifies store
      ensures this.name == name && this.store == store && this.prefix == prefix && this.client == client
      ensures fresh(flags) && flags.name == name && flags.formal == Bindings(prefix)
      ensures flags.actual == {} && flags.args == [] && !flags.parsed
      ensures store.fields == Registered(old(store.fields), prefix)
    {
      this.name := name;
      this.store := store;
      this.prefix := prefix;
      this.client := client;
      var fs := new FlagSet(name);
      flags := fs;
      new;
      Initialize(store, prefix, flags);
    }

    /** Run: the outcome RunOutcome gives, with the flag set left parsed. */
    method Run(env: Env, fs: FileSystem, args: seq<string>) returns (err: Option<string>, effects: seq<Effect>)
      requires Valid()
      modifies store, flags
      ensures var p := ParseArgs(old(flags.formal), old(store.fields), args, old(flags.actual));
              flags.formal == old(flags.formal) && flags.actual == p.actual && flags.args == p.rest && flags.parsed
      ensures Outcome(err, effects, store.fields, fs.Contents())
              == RunOutcome(old(flags.formal), old(flags.actual), old(store.fields), prefix, client, env, old(fs.Contents()), args)
    {
      err := flags.Parse(store, args);
      if err.Some? {
        return err, [];
      }
      var group := StrAt(store.fields, GroupField(prefix));
      if group == "" {
        return Some("group not set"), [];
      }
      var called;
      called, err := ForEachProjectInGroup(client.groups, group, StrAt(store.fields, ExprField(prefix)), env.compile,
        BoolAt(store.fields, RecursiveField(prefix)), PrintProject);
      effects := ProjectLines(called);
    }
  }
}
