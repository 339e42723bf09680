// "projects approval-rules list": for every project of a group whose path
// matches a regular expression, prints the project and then each of its
// merge-request approval rules with the rule's eligible approvers.

module ProjectsApprovalRulesList {
  import opened Wrappers
  import opened Strings
  import opened Flags
  import opened Paging
  import opened GitlabUtil
  import opened XmlUsers
  import opened Environment
  import ProjectsList

  // ProjectsApprovalRulesListOptions has the fields, flags and defaults of
  // ProjectsListOptions (--expr, --group, -r, --recursive); the option
  // functions and Initialize of ProjectsList serve it.

  /** One eligible approver as ApprovalRuleToString writes it: "(ID, username)". */
  function ApproverItem(u: BasicUser): string
  {
    "(" + IntToString(u.id) + ", " + u.username + ")"
  }

  /** The items of the approvers, in order. */
  function ApproverItems(us: seq<BasicUser>): (r: seq<string>)
    ensures |r| == |us|
  {
    if us == [] then [] else ApproverItems(us[..|us| - 1]) + [ApproverItem(us[|us| - 1])]
  }

  /** "ID: name: " */
  function RuleHeader(rule: ApprovalRule): string
  {
    IntToString(rule.id) + ": " + rule.name + ": "
  }

  /**
   * The rule's ID and name, then its eligible approvers in order, separated
   * by ", " inside square brackets.
   */
  function RuleString(rule: ApprovalRule): string
  {
    RuleHeader(rule) + "[" + Join(ApproverItems(rule.eligibleApprovers), ", ") + "]"
  }

  /** ApprovalRuleToString: the string builder writes ", " before every approver but the first. */
  method ApprovalRuleToString(rule: ApprovalRule) returns (result: string)
    ensures result == RuleString(rule)
  {
    var approvers := rule.eligibleApprovers;
    var list := "";
    for i := 0 to |approvers|
      invariant list == Join(ApproverItems(approvers[..i]), ", ")
    {
      var item := ApproverItem(approvers[i]);
      assert approvers[..i + 1][..i] == approvers[..i];
      JoinSnoc(ApproverItems(approvers[..i]), item, ", ");
      if i > 0 {
        list := list + ", " + item;
      } else {
        list := list + item;
      }
    }
    assert approvers[..|approvers|] == approvers;
    result := RuleHeader(rule) + "[" + list + "]";
  }

  /** A rule without eligible approvers prints as "ID: name: []", one with a single approver as "ID: name: [(ID, username)]". */
  lemma RuleStringFewApprovers(rule: ApprovalRule)
    ensures rule.eligibleApprovers == [] ==> RuleString(rule) == RuleHeader(rule) + "[]"
    ensures |rule.eligibleApprovers| == 1 ==>
              RuleString(rule) == RuleHeader(rule) + "[" + ApproverItem(rule.eligibleApprovers[0]) + "]"
  {
  }

  /**
   * Each approver's item appears in the printed rule, and a rule with more
   * approvers prints the items of the first ones followed by ", " and the next.
   */
  lemma {:induction false} RuleStringAppends(rule: ApprovalRule, u: BasicUser)
    requires rule.eligibleApprovers != []
    ensures var more := rule.(eligibleApprovers := rule.eligibleApprovers + [u]);
            RuleString(more)
            == RuleHeader(rule) + "[" + Join(ApproverItems(rule.eligibleApprovers), ", ") + ", " + ApproverItem(u) + "]"
  {
    var more := rule.(eligibleApprovers := rule.eligibleApprovers + [u]);
    assert ApproverItems(more.eligibleApprovers) == ApproverItems(rule.eligibleApprovers) + [ApproverItem(u)];
    JoinSnoc(ApproverItems(rule.eligibleApprovers), ApproverItem(u), ", ");
  }

  /** The callback of the rule walk: print, and ask for more. */
  function PrintRule(rule: ApprovalRule): Reply
  {
    Continue
  }

  /** The rules ForEachApprovalRuleInProject visits for the project. */
  function ProjectRules(s: ProjectsService, p: Project): seq<ApprovalRule>
    requires ProjectsForward(s)
  {
    WalkFrom(s.getProjectApprovalRules(p.id), "ForEachApprovalRuleInProject", Everything<ApprovalRule>(), PrintRule, 1).called
  }

  /** The indented line of each rule, in order. */
  function RuleLines(rules: seq<ApprovalRule>): (r: seq<Effect>)
    ensures |r| == |rules|
  {
    if rules == [] then [] else RuleLines(rules[..|rules| - 1]) + [Output("    " + RuleString(rules[|rules| - 1]))]
  }

  /** What the project callback prints: the project's line, then its rules. */
  function ProjectBlock(s: ProjectsService, p: Project): seq<Effect>
    requires ProjectsForward(s)
  {
    [Output(ProjectLine(p))] + RuleLines(ProjectRules(s, p))
  }

  /** The blocks of the visited projects, in order. */
  function Blocks(s: ProjectsService, ps: seq<Project>): seq<Effect>
    requires ProjectsForward(s)
  {
    if ps == [] then [] else Blocks(s, ps[..|ps| - 1]) + ProjectBlock(s, ps[|ps| - 1])
  }

  /**
   * Every rule the service lists for the project is printed, in order; a
   * failing page of rules ends that project's rules without an error, since
   * the callback discards ForEachApprovalRuleInProject's error.
   */
  lemma BlockListsEveryRule(s: ProjectsService, p: Project)
    requires ProjectsForward(s)
    ensures ProjectBlock(s, p)
            == [Output(ProjectLine(p))] + RuleLines(ListFrom(s.getProjectApprovalRules(p.id), 1).items)
  {
    var src := s.getProjectApprovalRules(p.id);
    WalkAllContinue(src, "ForEachApprovalRuleInProject", Everything<ApprovalRule>(), PrintRule, 1);
    FilterAll(Everything<ApprovalRule>(), ListFrom(src, 1).items);
  }

  /** What Run does once its flags are parsed into `fields`. */
  function Execute(fields: Fields, prefix: string, client: Client, env: Env, disk: Disk): Outcome
    requires Serves(client)
  {
    var group := StrAt(fields, ProjectsList.GroupField(prefix));
    if group == "" then Outcome(Some("group not set"), [], fields, disk)
    else
      var (called, err) := ProjectsWalk(client.groups, group, StrAt(fields, ProjectsList.ExprField(prefix)), env.compile,
        BoolAt(fields, ProjectsList.RecursiveField(prefix)), PrintProject);
      Outcome(err, Blocks(client.projects, called), fields, disk)
  }

  /** Run: parse the flags, then Execute. */
  function RunOutcome(formal: map<string, Flag>, actual: set<string>, fields: Fields, prefix: string,
                      client: Client, env: Env, disk: Disk, args: seq<string>): Outcome
    requires Serves(client)
  {
    var p := ParseArgs(formal, fields, args, actual);
    if p.err.Some? then ParseFailed(p, disk) else Execute(p.fields, prefix, client, env, disk)
  }

  /**
   * Without a group Run fails with "group not set" and prints nothing; with
   * one, it prints the block of exactly the matching projects of a complete
   * listing, in order, and reports only the project listing's error.
   */
  lemma ExecuteListsRules(fields: Fields, prefix: string, client: Client, env: Env, disk: Disk)
    requires Serves(client)
    ensures var r := Execute(fields, prefix, client, env, disk);
            var group := StrAt(fields, ProjectsList.GroupField(prefix));
            r.fields == fields && r.disk == disk
            && (group == "" ==> r.err == Some("group not set") && r.effects == [])
            && (group != "" ==>
                  var found := ExactGroupFrom(client.groups.listGroups(group), group, 1);
                  var compiled := env.compile(StrAt(fields, ProjectsList.ExprField(prefix)));
                  (found.Err? || compiled.Err? ==> r.effects == [] && r.err.Some?)
                  && (found.Ok? && compiled.Ok? ==>
                        var l := ListFrom(client.groups.listGroupProjects(found.value.id,
                          BoolAt(fields, ProjectsList.RecursiveField(prefix))), 1);
                        r.effects == Blocks(client.projects, Filter(PathMatcher(compiled.value), l.items))
                        && r.err == (if l.error.None? then None else Some(Wrapped("ForEachProjectInGroup", l.error.value)))))
  {
    var group := StrAt(fields, ProjectsList.GroupField(prefix));
    if group != "" {
      var found := ExactGroupFrom(client.groups.listGroups(group), group, 1);
      var compiled := env.compile(StrAt(fields, ProjectsList.ExprField(prefix)));
      if found.Ok? && compiled.Ok? {
        ProjectsWalkVisitsMatching(client.groups, group, StrAt(fields, ProjectsList.ExprField(prefix)), env.compile,
          BoolAt(fields, ProjectsList.RecursiveField(prefix)), PrintProject, found.value, compiled.value);
      }
    }
  }

  /** The project callback: print the project, then each of its rules; ForEachApprovalRuleInProject's error is dropped. */
  method PrintProjectRules(s: ProjectsService, p: Project) returns (printed: seq<Effect>)
    requires ProjectsForward(s)
    ensures printed == ProjectBlock(s, p)
  {
    var rules, ignored := ForEachApprovalRuleInProject(s, p, PrintRule);
    assert rules == ProjectRules(s, p);
    var lines: seq<Effect> := [];
    for j := 0 to |rules|
      invariant lines == RuleLines(rules[..j])
    {
      var line := ApprovalRuleToString(rules[j]);
      ghost var upTo := rules[..j + 1];
      assert upTo[..j] == rules[..j] && upTo[j] == rules[j];
      lines := lines + [Output("    " + line)];
    }
    assert rules[..|rules|] == rules;
    printed := [Output(ProjectLine(p))] + lines;
  }

  /** The project callback over every visited project, in order. */
  method PrintBlocks(s: ProjectsService, called: seq<Project>) returns (effects: seq<Effect>)
    requires ProjectsForward(s)
    ensures effects == Blocks(s, called)
  {
    effects := [];
    for i := 0 to |called|
      invariant effects == Blocks(s, called[..i])
    {
      var printed := PrintProjectRules(s, called[i]);
      assert called[..i + 1][..i] == called[..i];
      effects := effects + printed;
    }
    assert called[..|called|] == called;
  }

  /** ProjectsApprovalRulesListCommand. */
  class ProjectsApprovalRulesListCommand {
    const name: string
    const store: Store
    const prefix: string
    const flags: FlagSet
    const client: Client

    ghost predicate Valid()
    {
      Serves(client)
    }

    /** NewProjectsApprovalRulesListCommand: a fresh flag set with --expr, --group, -r and --recursive. */
    constructor (name: string, store: Store, prefix: string, client: Client)
      modifies store
      ensures this.name == name && this.store == store && this.prefix == prefix && this.client == client
      ensures fresh(flags) && flags.name == name && flags.formal == ProjectsList.Bindings(prefix)
      ensures flags.actual == {} && flags.args == [] && !flags.parsed
      ensures store.fields == ProjectsList.Registered(old(store.fields), prefix)
    {
      this.name := name;
      this.store := store;
      this.prefix := prefix;
      this.client := client;
      var fs := new FlagSet(name);
      flags := fs;
      new;
      ProjectsList.Initialize(store, prefix, flags);
    }

    /**
     * Run: parse, require a group, then print each matching project with its
     * rules. The walk over the group's projects is done first and the rules
     * of each visited project are fetched after it; every request is a read,
     * so the printed lines are those of the interleaved original.
     */
    method Run(env: Env, fs: FileSystem, args: seq<string>) returns (err: Option<string>, effects: seq<Effect>)
      requires Valid()
      modifies store, flags
      ensures var p := ParseArgs(old(flags.formal), old(store.fields), args, old(flags.actual));
              flags.formal == old(flags.formal) && flags.actual == p.actual && flags.args == p.rest && flags.parsed
      ensures Outcome(err, effects, store.fields, fs.Contents())
              == RunOutcome(old(flags.formal), old(flags.actual), old(store.fields), prefix, client, env, old(fs.Contents()), args)
    {
      err := flags.Parse(store, args);
      if err.Some? {
        return err, [];
      }
      var group := StrAt(store.fields, ProjectsList.GroupField(prefix));
      if group == "" {
        return Some("group not set"), [];
      }
      var called;
      called, err := ForEachProjectInGroup(client.groups, group, StrAt(store.fields, ProjectsList.ExprField(prefix)),
        env.compile, BoolAt(store.fields, ProjectsList.RecursiveField(prefix)), PrintProject);
      effects := PrintBlocks(client.projects, called);
    }
  }
}
