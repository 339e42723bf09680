// The parts every command shares: a parent command maps subcommand names to
// the commands that run them, DispatchSubcommand hands the arguments after
// the name to the named one, and SortedCommandNames lists the names in
// ascending order for the usage messages.

module Command {
  import opened Wrappers
  import opened Strings
  import opened Flags
  import opened XmlUsers
  import opened Environment
  import ProjectsCreateRandom
  import ProjectCreateRandom
  import ProjectDelete
  import ProjectsList
  import ProjectList
  import ProjectsApprovalRulesList
  import ProjectsApprovalRulesUpdate
  import UsersList

  /** Sorted names are fixed by which names occur how often. */
  lemma {:induction false} SortedUnique(a: seq<string>, b: seq<string>)
    requires Sorted(a) && Sorted(b) && multiset(a) == multiset(b)
    ensures a == b
    decreases |a|
  {
    if a != [] {
      SameHead(a, b);
      SortedTail(a);
      SortedTail(b);
      Behead(a);
      Behead(b);
      SortedUnique(a[1..], b[1..]);
    } else {
      assert multiset(a) == multiset{};
      assert |b| == |multiset(b)| == 0;
    }
  }

  /** Two sorted sequences of the same names start with the same name. */
  lemma SameHead(a: seq<string>, b: seq<string>)
    requires Sorted(a) && Sorted(b) && multiset(a) == multiset(b) && a != []
    ensures b != [] && a[0] == b[0]
  {
    assert a[0] in multiset(b);
    assert b != [] && b[0] in multiset(a);
    var i :| 0 <= i < |a| && a[i] == b[0];
    var j :| 0 <= j < |b| && b[j] == a[0];
    if i > 0 && j > 0 {
      assert LessEq(a[0], a[i]) && LessEq(b[0], b[j]);
      LessEqAntisymmetric(a[0], b[0]);
    }
  }

  lemma Behead(s: seq<string>)
    requires s != []
    ensures multiset(s[1..]) == multiset(s) - multiset{s[0]}
  {
    assert s == [s[0]] + s[1..];
  }

  lemma SortedTail(s: seq<string>)
    requires Sorted(s) && s != []
    ensures Sorted(s[1..])
  {
    forall i, j | 0 <= i < j < |s[1..]|
      ensures LessEq(s[1..][i], s[1..][j])
    {
      assert s[1..][i] == s[i + 1] && s[1..][j] == s[j + 1];
    }
  }

  /** Each name of a listing without repeats occurs in it exactly once. */
  lemma {:induction false} DistinctOnce(listed: seq<string>, x: string)
    requires Distinct(listed)
    ensures multiset(listed)[x] == if x in listed then 1 else 0
    decreases |listed|
  {
    if listed != [] {
      var p := listed[..|listed| - 1];
      assert listed == p + [listed[|listed| - 1]];
      assert listed[|listed| - 1] !in p;
      DistinctOnce(p, x);
    }
  }

  /** Two listings of one set hold the same names the same number of times. */
  lemma SameListings(l1: seq<string>, l2: seq<string>, names: set<string>)
    requires Lists(l1, names) && Lists(l2, names)
    ensures multiset(l1) == multiset(l2)
  {
    forall x
      ensures multiset(l1)[x] == multiset(l2)[x]
    {
      DistinctOnce(l1, x);
      DistinctOnce(l2, x);
    }
  }

  /**
   * SortedCommandNames over a parent's subcommand names: each name exactly
   * once, in ascending order.
   */
  lemma SortedListsAll(listed: seq<string>, names: set<string>)
    requires Lists(listed, names)
    ensures Sorted(SortStrings(listed))
    ensures forall x :: x in SortStrings(listed) <==> x in names
    ensures |SortStrings(listed)| == |names|
    ensures Distinct(SortStrings(listed))
  {
    var r := SortStrings(listed);
    assert forall x :: x in r <==> x in multiset(listed);
    DistinctCard(listed, names);
    assert |r| == |multiset(r)|;
    forall i, j | 0 <= i < j < |r|
      ensures r[i] != r[j]
    {
      DistinctOnce(listed, r[i]);
      if r[i] == r[j] {
        TwiceCounted(r, i, j);
      }
    }
  }

  lemma TwiceCounted(r: seq<string>, i: nat, j: nat)
    requires i < j < |r| && r[i] == r[j]
    ensures multiset(r)[r[i]] >= 2
  {
    assert r == r[..j] + [r[j]] + r[j + 1..];
    assert r[..j][i] == r[i];
    assert r[i] in multiset(r[..j]);
  }

  /** Whatever order the map's range visits the names in, the sorted names are the same. */
  lemma SortedIgnoresOrder(l1: seq<string>, l2: seq<string>, names: set<string>)
    requires Lists(l1, names) && Lists(l2, names)
    ensures SortStrings(l1) == SortStrings(l2)
  {
    SameListings(l1, l2, names);
    SortedUnique(SortStrings(l1), SortStrings(l2));
  }

  /** A listing of a set without repeats is as long as the set is large. */
  lemma {:induction false} DistinctCard(listed: seq<string>, names: set<string>)
    requires Lists(listed, names)
    ensures |listed| == |names|
    decreases |listed|
  {
    if listed != [] {
      var x := listed[|listed| - 1];
      var p := listed[..|listed| - 1];
      assert listed == p + [x];
      assert forall y :: y in p ==> y in listed && y != x by {
        forall y | y in p
          ensures y in listed && y != x
        {
          var i :| 0 <= i < |p| && p[i] == y;
          assert listed[i] == y;
        }
      }
      DistinctCard(p, names - {x});
    } else {
      assert forall x :: x !in names;
      assert names == {};
    }
  }

  /** SortedCommandNames: collect the names with the map's range, then slices.Sort them. */
  method SortedCommandNames(names: set<string>, order: Enumeration) returns (result: seq<string>)
    ensures result == SortStrings(order(names))
  {
    var keys := order(names);
    var collected := [];
    for i := 0 to |keys|
      invariant collected == keys[..i]
    {
      collected := collected + [keys[i]];
    }
    assert keys[..|keys|] == keys;
    result := SortStrings(collected);
  }

  /**
   * The Runner a parent holds for a subcommand: one of the leaf commands, or
   * a subcommand whose source is not part of this model, which runs as the
   * environment says.
   */
  datatype Runner =
    | ProjectsCreateRandomRunner(projectsCreateRandom: ProjectsCreateRandom.ProjectsCreateRandomCommand)
    | ProjectCreateRandomRunner(projectCreateRandom: ProjectCreateRandom.ProjectCreateRandomCommand)
    | ProjectDeleteRunner(projectDelete: ProjectDelete.ProjectDeleteCommand)
    | ProjectsListRunner(projectsList: ProjectsList.ProjectsListCommand)
    | ProjectListRunner(projectList: ProjectList.ProjectListCommand)
    | RulesListRunner(rulesList: ProjectsApprovalRulesList.ProjectsApprovalRulesListCommand)
    | RulesUpdateRunner(rulesUpdate: ProjectsApprovalRulesUpdate.ProjectsApprovalRulesUpdateCommand)
    | UsersListRunner(usersList: UsersList.UsersListCommand)
    | ExternalRunner(external: string)

  /** The flag set a runner parses its arguments with. */
  function RunnerFlags(r: Runner): set<object>
  {
    match r
    case ProjectsCreateRandomRunner(c) => {c.flags}
    case ProjectCreateRandomRunner(c) => {c.flags}
    case ProjectDeleteRunner(c) => {c.flags}
    case ProjectsListRunner(c) => {c.flags}
    case ProjectListRunner(c) => {c.flags}
    case RulesListRunner(c) => {c.flags}
    case RulesUpdateRunner(c) => {c.flags}
    case UsersListRunner(c) => {c.flags}
    case ExternalRunner(_) => {}
  }

  /** The runner works on `store` (a reference into the one Options structure) and is ready to run. */
  ghost predicate Bound(r: Runner, store: Store)
  {
    match r
    case ProjectsCreateRandomRunner(c) => c.store == store && c.Valid()
    case ProjectCreateRandomRunner(c) => c.store == store && c.Valid()
    case ProjectDeleteRunner(c) => c.store == store && c.Valid()
    case ProjectsListRunner(c) => c.store == store && c.Valid()
    case ProjectListRunner(c) => c.store == store && c.Valid()
    case RulesListRunner(c) => c.store == store && c.Valid()
    case RulesUpdateRunner(c) => c.store == store && c.Valid()
    case UsersListRunner(c) => c.store == store && c.Valid()
    case ExternalRunner(_) => true
  }

  /** What runner.Run(args) yields from the given options and users files. */
  function RunnerOutcome(r: Runner, store: Store, fields: Fields, env: Env, disk: Disk,
                         failures: map<string, string>, args: seq<string>): Outcome
    requires Bound(r, store)
    reads RunnerFlags(r)
  {
    match r
    case ProjectsCreateRandomRunner(c) =>
      ProjectsCreateRandom.RunOutcome(c.flags.formal, c.flags.actual, fields, c.prefix, c.client, env, disk, args)
    case ProjectCreateRandomRunner(c) =>
      ProjectsCreateRandom.RunOutcome(c.flags.formal, c.flags.actual, fields, c.prefix, c.client, env, disk, args)
    case ProjectDeleteRunner(c) =>
      ProjectDelete.RunOutcome(c.flags.formal, c.flags.actual, fields, c.prefix, c.client, env, disk, args)
    case ProjectsListRunner(c) =>
      ProjectsList.RunOutcome(c.flags.formal, c.flags.actual, fields, c.prefix, c.client, env, disk, args)
    case ProjectListRunner(c) =>
      ProjectsList.RunOutcome(c.flags.formal, c.flags.actual, fields, c.prefix, c.client, env, disk, args)
    case RulesListRunner(c) =>
      ProjectsApprovalRulesList.RunOutcome(c.flags.formal, c.flags.actual, fields, c.prefix, c.client, env, disk, args)
    case RulesUpdateRunner(c) =>
      ProjectsApprovalRulesUpdate.RunOutcome(c.flags.formal, c.flags.actual, fields, c.prefix, c.client, env, disk, args)
    case UsersListRunner(c) =>
      UsersList.RunOutcome(c.flags.formal, c.flags.actual, fields, c.prefix, c.client, env, disk, failures, args)
    case ExternalRunner(name) =>
      Outcome(env.external(name, args), [], fields, disk)
  }

  /** runner.Run(args), whichever command the runner is. */
  method RunRunner(r: Runner, store: Store, env: Env, fs: FileSystem, args: seq<string>)
    returns (err: Option<string>, effects: seq<Effect>)
    requires Bound(r, store)
    modifies store, RunnerFlags(r), fs
    ensures Outcome(err, effects, store.fields, fs.Contents())
            == old(RunnerOutcome(r, store, store.fields, env, fs.Contents(), fs.failures, args))
  {
    match r
    case ProjectsCreateRandomRunner(c) => err, effects := c.Run(env, fs, args);
    case ProjectCreateRandomRunner(c) => err, effects := c.Run(env, fs, args);
    case ProjectDeleteRunner(c) => err, effects := c.Run(env, fs, args);
    case ProjectsListRunner(c) => err, effects := c.Run(env, fs, args);
    case ProjectListRunner(c) => err, effects := c.Run(env, fs, args);
    case RulesListRunner(c) => err, effects := c.Run(env, fs, args);
    case RulesUpdateRunner(c) => err, effects := c.Run(env, fs, args);
    case UsersListRunner(c) => err, effects := c.Run(env, fs, args);
    case ExternalRunner(name) => err, effects := env.external(name, args), [];
  }

  /** The name DispatchSubcommand picks from its arguments, or why it picks none. */
  function Route(names: set<string>, args: seq<string>): (r: Result<string>)
    ensures r.Ok? <==> args != [] && args[0] in names
    ensures r.Ok? ==> r.value == args[0]
    ensures args == [] ==> r == Err("no subcommand specified")
    ensures args != [] && args[0] !in names ==> r == Err("invalid subcommand: " + args[0])
  {
    if args == [] then Err("no subcommand specified")
    else if args[0] !in names then Err("invalid subcommand: " + args[0])
    else Ok(args[0])
  }

  /**
   * Parsing with a flag set that defines no flag, as every parent command's
   * own set is: no option changes and no flag is recorded; the arguments up
   * to the subcommand name are accepted only when there are none, or only
   * "--"; any other leading flag is an error.
   */
  lemma NoOwnOptions(fields: Fields, args: seq<string>, actual: set<string>)
    ensures var p := ParseArgs(map[], fields, args, actual);
            p.fields == fields && p.actual == actual
            && (p.err.None? <==> args == [] || NotFlag(args[0]) || args[0] == "--")
            && (p.err.None? ==> p.rest == if args != [] && args[0] == "--" then args[1..] else args)
  {
    var step := ParseOne(map[], fields, args);
    assert !step.Seen?;
  }

  /** ParentCommand: a command whose work is to hand its arguments to one of its subcommands. */
  class ParentCommand {
    const name: string
    const store: Store
    const flags: FlagSet
    var subcmds: map<string, Runner>
    /** The flag sets of the subcommands. */
    ghost var Repr: set<object>

    ghost predicate Valid()
      reads this, flags
    {
      flags.formal == map[]
      && flags !in Repr && store !in Repr
      && forall n :: n in subcmds ==> Bound(subcmds[n], store) && RunnerFlags(subcmds[n]) <= Repr
    }

    /** A parent with its own, empty flag set and no subcommands yet. */
    constructor (name: string, store: Store)
      ensures this.name == name && this.store == store
      ensures fresh(flags) && flags.name == name && flags.actual == {} && flags.args == [] && !flags.parsed
      ensures subcmds == map[] && Repr == {}
      ensures Valid()
    {
      this.name := name;
      this.store := store;
      flags := new FlagSet(name);
      subcmds := map[];
      Repr := {};
    }

    /** subcmds[n] = r. */
    method Add(n: string, r: Runner)
      requires Valid() && Bound(r, store)
      requires flags !in RunnerFlags(r) && store !in RunnerFlags(r)
      modifies this
      ensures subcmds == old(subcmds)[n := r] && Repr == old(Repr) + RunnerFlags(r)
      ensures Valid()
    {
      subcmds := subcmds[n := r];
      Repr := Repr + RunnerFlags(r);
    }

    /** What DispatchSubcommand(args) yields. */
    function Dispatched(fields: Fields, env: Env, disk: Disk, failures: map<string, string>, args: seq<string>): (r: Outcome)
      requires Valid()
      reads this, flags, Repr
      ensures args == [] ==> r == Outcome(Some("no subcommand specified"), [], fields, disk)
      ensures args != [] && args[0] !in subcmds
              ==> r == Outcome(Some("invalid subcommand: " + args[0]), [], fields, disk)
      ensures args != [] && args[0] in subcmds
              ==> r == RunnerOutcome(subcmds[args[0]], store, fields, env, disk, failures, args[1..])
    {
      match Route(subcmds.Keys, args)
      case Err(e) => Outcome(Some(e), [], fields, disk)
      case Ok(n) => RunnerOutcome(subcmds[n], store, fields, env, disk, failures, args[1..])
    }

    /** DispatchSubcommand: run the subcommand args[0] names on the arguments after it. */
    method DispatchSubcommand(env: Env, fs: FileSystem, args: seq<string>) returns (err: Option<string>, effects: seq<Effect>)
      requires Valid()
      modifies store, Repr, fs
      ensures Outcome(err, effects, store.fields, fs.Contents())
              == old(Dispatched(store.fields, env, fs.Contents(), fs.failures, args))
    {
      var route := Route(subcmds.Keys, args);
      if route.Err? {
        return Some(route.error), [];
      }
      var runner := subcmds[route.value];
      err, effects := RunRunner(runner, store, env, fs, args[1..]);
    }

    /** What Run(args) yields: parse the parent's own flags, then dispatch what is left. */
    function RunOutcome(fields: Fields, env: Env, disk: Disk, failures: map<string, string>, args: seq<string>): Outcome
      requires Valid()
      reads this, flags, Repr
    {
      var p := ParseArgs(flags.formal, fields, args, flags.actual);
      if p.err.Some? then ParseFailed(p, disk)
      else Dispatched(p.fields, env, disk, failures, p.rest)
    }

    /** Run: flags.Parse(args), then DispatchSubcommand(flags.Args()). */
    method Run(env: Env, fs: FileSystem, args: seq<string>) returns (err: Option<string>, effects: seq<Effect>)
      requires Valid()
      modifies store, flags, Repr, fs
      ensures Outcome(err, effects, store.fields, fs.Contents())
              == old(RunOutcome(store.fields, env, fs.Contents(), fs.failures, args))
    {
      err := flags.Parse(store, args);
      if err.Some? {
        return err, [];
      }
      err, effects := DispatchSubcommand(env, fs, flags.args);
    }
  }
}
