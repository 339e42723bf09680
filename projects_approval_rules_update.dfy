// "projects approval-rules update": reads a users file (the output of
// "users list") and, for every project of a group whose path matches a
// regular expression, re-sends each approval rule with its users replaced
// by the users of the file. The first failing request ends the whole walk.

module ProjectsApprovalRulesUpdate {
  import opened Wrappers
  import opened Flags
  import opened Paging
  import opened GitlabUtil
  import opened XmlUsers
  import opened Environment
  import ProjectsList

  // The fields of ProjectsApprovalRulesUpdateOptions, stored under `prefix`;
  // Expr, Group and Recursive, with their flags, are those of ProjectsListOptions.
  function ApproversFileNameField(prefix: string): string { prefix + ".ApproversFileName" }
  function DryRunField(prefix: string): string { prefix + ".DryRun" }

  /** The flags Initialize registers: --approvers, -n, --dry-run, then --expr, --group, -r, --recursive. */
  function Bindings(prefix: string): map<string, Flag>
  {
    map["approvers" := Flag(ApproversFileNameField(prefix), StringKind),
        "n" := Flag(DryRunField(prefix), BoolKind),
        "dry-run" := Flag(DryRunField(prefix), BoolKind)]
    + ProjectsList.Bindings(prefix)
  }

  /** The fields after Initialize: each flag registered with the field's current value. */
  function Registered(fields: Fields, prefix: string): Fields
  {
    ProjectsList.Registered(
      KeepCurrent(KeepCurrent(fields, ApproversFileNameField(prefix), StringKind), DryRunField(prefix), BoolKind),
      prefix)
  }

  lemma DistinctFields(prefix: string)
    ensures ApproversFileNameField(prefix) != DryRunField(prefix)
    ensures ProjectsList.ExprField(prefix) != ApproversFileNameField(prefix)
    ensures ProjectsList.GroupField(prefix) != ApproversFileNameField(prefix)
    ensures ProjectsList.RecursiveField(prefix) != ApproversFileNameField(prefix)
    ensures ProjectsList.ExprField(prefix) != DryRunField(prefix)
    ensures ProjectsList.GroupField(prefix) != DryRunField(prefix)
    ensures ProjectsList.RecursiveField(prefix) != DryRunField(prefix)
  {
    var n := |prefix| + 1;
    assert ApproversFileNameField(prefix)[n] == 'A' && DryRunField(prefix)[n] == 'D';
    assert ProjectsList.ExprField(prefix)[n] == 'E' && ProjectsList.GroupField(prefix)[n] == 'G';
    assert ProjectsList.RecursiveField(prefix)[n] == 'R';
  }

  /** --approvers, -n and --dry-run, with the current values. */
  method RegisterOwn(o: Store, prefix: string, flags: FlagSet)
    requires "approvers" !in flags.formal && "n" !in flags.formal && "dry-run" !in flags.formal
    modifies o, flags
    ensures flags.formal == old(flags.formal)["approvers" := Flag(ApproversFileNameField(prefix), StringKind)]
                                              ["n" := Flag(DryRunField(prefix), BoolKind)]
                                              ["dry-run" := Flag(DryRunField(prefix), BoolKind)]
    ensures o.fields == KeepCurrent(KeepCurrent(old(o.fields), ApproversFileNameField(prefix), StringKind),
                                    DryRunField(prefix), BoolKind)
    ensures flags.actual == old(flags.actual) && flags.args == old(flags.args) && flags.parsed == old(flags.parsed)
  {
    flags.Define(o, "approvers", ApproversFileNameField(prefix), Str(StrAt(o.fields, ApproversFileNameField(prefix))));
    flags.Define(o, "n", DryRunField(prefix), Bool(BoolAt(o.fields, DryRunField(prefix))));
    flags.Define(o, "dry-run", DryRunField(prefix), Bool(BoolAt(o.fields, DryRunField(prefix))));
  }

  /** ProjectsApprovalRulesUpdateOptions.Initialize. */
  method Initialize(o: Store, prefix: string, flags: FlagSet)
    requires flags.formal.Keys !! Bindings(prefix).Keys
    modifies o, flags
    ensures flags.formal == old(flags.formal) + Bindings(prefix)
    ensures o.fields == Registered(old(o.fields), prefix)
    ensures flags.actual == old(flags.actual) && flags.args == old(flags.args) && flags.parsed == old(flags.parsed)
  {
    RegisterOwn(o, prefix, flags);
    ProjectsList.Initialize(o, prefix, flags);
  }

  /** The IDs of the approvers, in file order. */
  function IDsOf(approvers: seq<XmlUser>): (ids: seq<int>)
    ensures |ids| == |approvers|
    ensures forall i :: 0 <= i < |approvers| ==> ids[i] == approvers[i].id
  {
    seq(|approvers|, i requires 0 <= i < |approvers| => approvers[i].id)
  }

  /** The loop of Run that collects the approvers' IDs. */
  method ApproverIDs(approvers: seq<XmlUser>) returns (approverIDs: seq<int>)
    ensures approverIDs == IDsOf(approvers)
  {
    approverIDs := [];
    for i := 0 to |approvers|
      invariant approverIDs == IDsOf(approvers[..i])
    {
      approverIDs := approverIDs + [approvers[i].id];
    }
    assert approvers[..|approvers|] == approvers;
  }

  /** updateApprovalRule: the request it sends (none in a dry run) and the service's error. */
  function UpdateOne(s: ProjectsService, projectID: int, rule: ApprovalRule, userIDs: seq<int>, dryRun: bool)
    : (Option<string>, seq<Effect>)
  {
    if dryRun then (None, [])
    else
      var sent := CurrentSettings(rule).(userIDs := userIDs);
      (s.updateProjectApprovalRule(projectID, rule.id, sent), [UpdateRequest(projectID, rule.id, sent)])
  }

  /** updateApprovalRule. */
  method UpdateRule(s: ProjectsService, projectID: int, rule: ApprovalRule, userIDs: seq<int>, dryRun: bool)
    returns (err: Option<string>, effects: seq<Effect>)
    ensures (err, effects) == UpdateOne(s, projectID, rule, userIDs, dryRun)
  {
    err, effects := None, [];
    if !dryRun {
      var sent;
      err, sent := UpdateApprovalRule(s, projectID, rule, userIDs);
      effects := [UpdateRequest(projectID, rule.id, sent)];
    }
  }

  /** The rule callback: carry on unless the update failed. */
  function RuleUpdater(s: ProjectsService, projectID: int, userIDs: seq<int>, dryRun: bool): ApprovalRule -> Reply
  {
    rule => Reply(true, UpdateOne(s, projectID, rule, userIDs, dryRun).0)
  }

  /** ForEachApprovalRuleInProject with the rule callback. */
  function RulesWalk(s: ProjectsService, p: Project, userIDs: seq<int>, dryRun: bool): Walk<ApprovalRule>
    requires ProjectsForward(s)
  {
    WalkFrom(s.getProjectApprovalRules(p.id), "ForEachApprovalRuleInProject", Everything<ApprovalRule>(),
      RuleUpdater(s, p.id, userIDs, dryRun), 1)
  }

  /** The project callback: carry on unless the rule walk failed, with its error. */
  function ProjectUpdater(s: ProjectsService, userIDs: seq<int>, dryRun: bool): (Group, Project) -> Reply
    requires ProjectsForward(s)
  {
    (g: Group, p: Project) => Reply(true, RulesWalk(s, p, userIDs, dryRun).stop.ErrorOf())
  }

  /** The requests sent for the visited rules, in order. */
  function Sent(s: ProjectsService, projectID: int, rules: seq<ApprovalRule>, userIDs: seq<int>, dryRun: bool)
    : seq<Effect>
  {
    if rules == [] then []
    else Sent(s, projectID, rules[..|rules| - 1], userIDs, dryRun)
         + UpdateOne(s, projectID, rules[|rules| - 1], userIDs, dryRun).1
  }

  /** What the project callback does: print the project's path, then update its rules. */
  function ProjectEffects(s: ProjectsService, p: Project, userIDs: seq<int>, dryRun: bool): seq<Effect>
    requires ProjectsForward(s)
  {
    [Output(p.pathWithNamespace)] + Sent(s, p.id, RulesWalk(s, p, userIDs, dryRun).called, userIDs, dryRun)
  }

  /** The effects of the visited projects, in order. */
  function Updates(s: ProjectsService, ps: seq<Project>, userIDs: seq<int>, dryRun: bool): seq<Effect>
    requires ProjectsForward(s)
  {
    if ps == [] then []
    else Updates(s, ps[..|ps| - 1], userIDs, dryRun) + ProjectEffects(s, ps[|ps| - 1], userIDs, dryRun)
  }

  /** The project walk of Run with the given approver IDs. */
  function UpdateAll(client: Client, group: string, expr: string, compile: Compiler, recursive: bool,
                     userIDs: seq<int>, dryRun: bool): (Option<string>, seq<Effect>)
    requires Serves(client)
  {
    var (called, err) := ProjectsWalk(client.groups, group, expr, compile, recursive,
      ProjectUpdater(client.projects, userIDs, dryRun));
    (err, Updates(client.projects, called, userIDs, dryRun))
  }

  /** The checks of Run before the approvers file is read. */
  function Unset(fields: Fields, prefix: string): Option<string>
  {
    if StrAt(fields, ApproversFileNameField(prefix)) == "" then Some("approvers file name not set")
    else if StrAt(fields, ProjectsList.GroupField(prefix)) == "" then Some("group not set")
    else None
  }

  /**
   * What Run does once its flags are parsed into `fields`, as written: an
   * approvers file that cannot be read ends Run with no error at all.
   */
  function ExecuteAsWritten(fields: Fields, prefix: string, client: Client, env: Env, disk: Disk): Outcome
    requires Serves(client)
  {
    match Unset(fields, prefix)
    case Some(e) => Outcome(Some(e), [], fields, disk)
    case None =>
      match ReadUsers(disk.files, StrAt(fields, ApproversFileNameField(prefix)))
      case Err(_) => Outcome(None, [], fields, disk)
      case Ok(approvers) =>
        var r := UpdateAll(client, StrAt(fields, ProjectsList.GroupField(prefix)),
          StrAt(fields, ProjectsList.ExprField(prefix)), env.compile, BoolAt(fields, ProjectsList.RecursiveField(prefix)),
          IDsOf(approvers), BoolAt(fields, DryRunField(prefix)));
        Outcome(r.0, r.1, fields, disk)
  }

  /** A users file that does not exist: Run as written updates nothing and still reports success. */
  lemma MissingApproversFileIsNotReported(fields: Fields, prefix: string, client: Client, env: Env, disk: Disk)
    requires Serves(client)
    requires Unset(fields, prefix).None?
    requires StrAt(fields, ApproversFileNameField(prefix)) !in disk.files
    ensures ExecuteAsWritten(fields, prefix, client, env, disk) == Outcome(None, [], fields, disk)
  {
  }

  /**
   * What Run does once its flags are parsed into `fields`, with ReadUsers'
   * error returned, which is what the surrounding code evidently intends.
   */
  function ExecuteCorrected(fields: Fields, prefix: string, client: Client, env: Env, disk: Disk): Outcome
    requires Serves(client)
  {
    match Unset(fields, prefix)
    case Some(e) => Outcome(Some(e), [], fields, disk)
    case None =>
      match ReadUsers(disk.files, StrAt(fields, ApproversFileNameField(prefix)))
      case Err(e) => Outcome(Some(e), [], fields, disk)
      case Ok(approvers) =>
        var r := UpdateAll(client, StrAt(fields, ProjectsList.GroupField(prefix)),
          StrAt(fields, ProjectsList.ExprField(prefix)), env.compile, BoolAt(fields, ProjectsList.RecursiveField(prefix)),
          IDsOf(approvers), BoolAt(fields, DryRunField(prefix)));
        Outcome(r.0, r.1, fields, disk)
  }

  /**
   * The corrected Run reports success only when the approvers file was
   * read, and otherwise agrees with the code as written.
   */
  lemma ExecuteReportsUnreadableApprovers(fields: Fields, prefix: string, client: Client, env: Env, disk: Disk)
    requires Serves(client)
    ensures var name := StrAt(fields, ApproversFileNameField(prefix));
            var r := ExecuteCorrected(fields, prefix, client, env, disk);
            (Unset(fields, prefix).None? && ReadUsers(disk.files, name).Err? ==>
               r.err == Some(ReadUsers(disk.files, name).error) && r.effects == [])
            && (Unset(fields, prefix).Some? || ReadUsers(disk.files, name).Ok? ==>
               r == ExecuteAsWritten(fields, prefix, client, env, disk))
  {
  }

  /** A dry run sends no request: every effect is a printed line. */
  lemma {:induction false} DryRunSentNothing(s: ProjectsService, projectID: int, rules: seq<ApprovalRule>, userIDs: seq<int>)
    ensures Sent(s, projectID, rules, userIDs, true) == []
  {
    if rules != [] {
      DryRunSentNothing(s, projectID, rules[..|rules| - 1], userIDs);
    }
  }

  /**
   * Outside a dry run each visited rule is re-sent exactly once, in order,
   * with everything as it was except its users, which become the approvers.
   */
  lemma {:induction false} SentReplacesUsers(s: ProjectsService, projectID: int, rules: seq<ApprovalRule>,
                                             userIDs: seq<int>)
    ensures var e := Sent(s, projectID, rules, userIDs, false);
            |e| == |rules|
            && forall i :: 0 <= i < |rules| ==>
                 e[i] == UpdateRequest(projectID, rules[i].id, CurrentSettings(rules[i]).(userIDs := userIDs))
  {
    if rules != [] {
      var init := rules[..|rules| - 1];
      SentReplacesUsers(s, projectID, init, userIDs);
      var e := Sent(s, projectID, rules, userIDs, false);
      var a := Sent(s, projectID, init, userIDs, false);
      var last := rules[|rules| - 1];
      assert e == a + [UpdateRequest(projectID, last.id, CurrentSettings(last).(userIDs := userIDs))];
      forall i | 0 <= i < |rules|
        ensures e[i] == UpdateRequest(projectID, rules[i].id, CurrentSettings(rules[i]).(userIDs := userIDs))
      {
        if i < |init| {
          assert e[i] == a[i] && init[i] == rules[i];
        }
      }
    }
  }

  /**
   * In a dry run every rule callback continues, so every rule the service
   * lists for the project is visited and the walk fails only on a page error.
   */
  lemma DryRunVisitsEveryRule(s: ProjectsService, p: Project, userIDs: seq<int>)
    requires ProjectsForward(s)
    ensures var w := RulesWalk(s, p, userIDs, true);
            var l := ListFrom(s.getProjectApprovalRules(p.id), 1);
            w.called == l.items
            && w.stop.ErrorOf() == (if l.error.None? then None else Some(Wrapped("ForEachApprovalRuleInProject", l.error.value)))
            && ProjectEffects(s, p, userIDs, true) == [Output(p.pathWithNamespace)]
  {
    var src := s.getProjectApprovalRules(p.id);
    WalkAllContinue(src, "ForEachApprovalRuleInProject", Everything<ApprovalRule>(), RuleUpdater(s, p.id, userIDs, true), 1);
    FilterAll(Everything<ApprovalRule>(), ListFrom(src, 1).items);
    DryRunSentNothing(s, p.id, RulesWalk(s, p, userIDs, true).called, userIDs);
  }

  /** A dry run only prints the path of each visited project, in order. */
  lemma {:induction false} DryRunPrintsPaths(s: ProjectsService, ps: seq<Project>, userIDs: seq<int>)
    requires ProjectsForward(s)
    ensures var e := Updates(s, ps, userIDs, true);
            |e| == |ps| && forall i :: 0 <= i < |ps| ==> e[i] == Output(ps[i].pathWithNamespace)
  {
    if ps != [] {
      var init := ps[..|ps| - 1];
      DryRunPrintsPaths(s, init, userIDs);
      var last := ps[|ps| - 1];
      DryRunSentNothing(s, last.id, RulesWalk(s, last, userIDs, true).called, userIDs);
      var e := Updates(s, ps, userIDs, true);
      assert e == Updates(s, init, userIDs, true) + [Output(last.pathWithNamespace)];
      forall i | 0 <= i < |init| ensures e[i] == Output(ps[i].pathWithNamespace) {
        assert init[i] == ps[i];
      }
    }
  }

  /**
   * When no update fails, every listed rule of the project is re-sent, in
   * order, with the approvers as its users.
   */
  lemma AllSucceedUpdatesEveryRule(s: ProjectsService, p: Project, userIDs: seq<int>)
    requires ProjectsForward(s)
    requires forall rule: ApprovalRule :: s.updateProjectApprovalRule(p.id, rule.id, CurrentSettings(rule).(userIDs := userIDs)).None?
    ensures var w := RulesWalk(s, p, userIDs, false);
            var l := ListFrom(s.getProjectApprovalRules(p.id), 1);
            w.called == l.items
            && ProjectEffects(s, p, userIDs, false) == [Output(p.pathWithNamespace)] + Sent(s, p.id, l.items, userIDs, false)
  {
    var src := s.getProjectApprovalRules(p.id);
    var f := RuleUpdater(s, p.id, userIDs, false);
    forall rule ensures f(rule) == Continue {
      assert UpdateOne(s, p.id, rule, userIDs, false).0.None?;
    }
    WalkAllContinue(src, "ForEachApprovalRuleInProject", Everything<ApprovalRule>(), f, 1);
    FilterAll(Everything<ApprovalRule>(), ListFrom(src, 1).items);
  }

  /** Run: parse the flags, then ExecuteAsWritten. */
  function RunOutcome(formal: map<string, Flag>, actual: set<string>, fields: Fields, prefix: string,
                      client: Client, env: Env, disk: Disk, args: seq<string>): Outcome
    requires Serves(client)
  {
    var p := ParseArgs(formal, fields, args, actual);
    if p.err.Some? then ParseFailed(p, disk) else ExecuteAsWritten(p.fields, prefix, client, env, disk)
  }

  /** The rule callback over the visited rules of one project. */
  method UpdateProject(s: ProjectsService, p: Project, userIDs: seq<int>, dryRun: bool) returns (effects: seq<Effect>)
    requires ProjectsForward(s)
    ensures effects == ProjectEffects(s, p, userIDs, dryRun)
  {
    var rules, ignored := ForEachApprovalRuleInProject(s, p, RuleUpdater(s, p.id, userIDs, dryRun));
    assert rules == RulesWalk(s, p, userIDs, dryRun).called;
    var sent: seq<Effect> := [];
    for j := 0 to |rules|
      invariant sent == Sent(s, p.id, rules[..j], userIDs, dryRun)
    {
      var e, one := UpdateRule(s, p.id, rules[j], userIDs, dryRun);
      assert rules[..j + 1][..j] == rules[..j];
      sent := sent + one;
    }
    assert rules[..|rules|] == rules;
    effects := [Output(p.pathWithNamespace)] + sent;
  }

  /** The project callback over every visited project, in order. */
  method UpdateProjects(s: ProjectsService, called: seq<Project>, userIDs: seq<int>, dryRun: bool)
    returns (effects: seq<Effect>)
    requires ProjectsForward(s)
    ensures effects == Updates(s, called, userIDs, dryRun)
  {
    effects := [];
    for i := 0 to |called|
      invariant effects == Updates(s, called[..i], userIDs, dryRun)
    {
      var more := UpdateProject(s, called[i], userIDs, dryRun);
      assert called[..i + 1][..i] == called[..i];
      effects := effects + more;
    }
    assert called[..|called|] == called;
  }

  /** ProjectsApprovalRulesUpdateCommand. */
  class ProjectsApprovalRulesUpdateCommand {
    const name: string
    const store: Store
    const prefix: string
    const flags: FlagSet
    const client: Client

    ghost predicate Valid()
    {
      Serves(client)
    }

    /** NewProjectsApprovalRulesUpdateCommand: a fresh flag set, with the options' flags registered on it. */
    constructor (name: string, store: Store, prefix: string, client: Client)
      modifies store
      ensures this.name == name && this.store == store && this.prefix == prefix && this.client == client
      ensures fresh(flags) && flags.name == name && flags.formal == Bindings(prefix)
      ensures flags.actual == {} && flags.args == [] && !flags.parsed
      ensures store.fields == Registered(old(store.fields), prefix)
    {
      this.name := name;
      this.store := store;
      this.prefix := prefix;
      this.client := client;
      var fs := new FlagSet(name);
      flags := fs;
      new;
      Initialize(store, prefix, flags);
    }

    /**
     * Run: parse, require the approvers file name and the group, read the
     * approvers (an unreadable file ends Run with no error, as written),
     * then walk the projects. The callbacks are values, so the
     * walk decides which projects and rules are visited, and the requests of
     * the visited rules are then sent in the same order.
     */
    method Run(env: Env, fs: FileSystem, args: seq<string>) returns (err: Option<string>, effects: seq<Effect>)
      requires Valid()
      modifies store, flags
      ensures var p := ParseArgs(old(flags.formal), old(store.fields), args, old(flags.actual));
              flags.formal == old(flags.formal) && flags.actual == p.actual && flags.args == p.rest && flags.parsed
      ensures Outcome(err, effects, store.fields, fs.Contents())
              == RunOutcome(old(flags.formal), old(flags.actual), old(store.fields), prefix, client, env, old(fs.Contents()), args)
    {
      err := flags.Parse(store, args);
      if err.Some? {
        return err, [];
      }
      var approversFileName := StrAt(store.fields, ApproversFileNameField(prefix));
      if approversFileName == "" {
        return Some("approvers file name not set"), [];
      }
      var group := StrAt(store.fields, ProjectsList.GroupField(prefix));
      if group == "" {
        return Some("group not set"), [];
      }
      var approvers := ReadUsers(fs.files, approversFileName);
      if approvers.Err? {
        return None, [];
      }
      var approverIDs := ApproverIDs(approvers.value);
      var dryRun := BoolAt(store.fields, DryRunField(prefix));
      var called;
      called, err := ForEachProjectInGroup(client.groups, group, StrAt(store.fields, ProjectsList.ExprField(prefix)),
        env.compile, BoolAt(store.fields, ProjectsList.RecursiveField(prefix)),
        ProjectUpdater(client.projects, approverIDs, dryRun));
      effects := UpdateProjects(client.projects, called, approverIDs, dryRun);
    }
  }
}
