// gitlab_util.go: the listing helpers over the GitLab REST API. The HTTP
// client is replaced by services whose answers are given up front; the
// regular-expression engine is a parameter that compiles an expression into
// a matcher or fails.

module GitlabUtil {
  import opened Wrappers
  import opened Strings
  import opened Paging

  datatype Group = Group(id: int, fullPath: string)

  datatype Project = Project(id: int, pathWithNamespace: string)

  datatype User = User(id: int, username: string, email: string, name: string)

  datatype BasicUser = BasicUser(id: int, username: string)

  datatype ProtectedBranch = ProtectedBranch(id: int)

  datatype ApprovalRule = ApprovalRule(
    id: int,
    name: string,
    approvalsRequired: int,
    users: seq<BasicUser>,
    eligibleApprovers: seq<BasicUser>,
    groups: seq<Group>,
    protectedBranches: seq<ProtectedBranch>,
    appliesToAllProtectedBranches: bool)

  /** The body of an UpdateProjectApprovalRule request. */
  datatype RuleUpdate = RuleUpdate(
    name: string,
    approvalsRequired: int,
    userIDs: seq<int>,
    groupIDs: seq<int>,
    protectedBranchIDs: seq<int>,
    appliesToAllProtectedBranches: bool)

  /** regexp.Compile: a matcher, or the compilation error. */
  type Compiler = string -> Result<string -> bool>

  /** ListGroups (by search string) and ListGroupProjects (by group ID and IncludeSubGroups). */
  datatype GroupsService = GroupsService(
    listGroups: string -> Pages<Group>,
    listGroupProjects: (int, bool) -> Pages<Project>)

  datatype Visibility = PrivateVisibility | InternalVisibility | PublicVisibility

  /** The fields of a CreateProject request that the commands set. */
  datatype CreateProjectOptions = CreateProjectOptions(
    namespaceID: int,
    path: string,
    description: string,
    mergeRequestsEnabled: bool,
    snippetsEnabled: bool,
    visibility: Visibility)

  /**
   * GetProjectApprovalRules (by project ID), UpdateProjectApprovalRule,
   * CreateProject and DeleteProject (by project ID); each request answers its error.
   */
  datatype ProjectsService = ProjectsService(
    getProjectApprovalRules: int -> Pages<ApprovalRule>,
    updateProjectApprovalRule: (int, int, RuleUpdate) -> Option<string>,
    createProject: CreateProjectOptions -> Option<string>,
    deleteProject: int -> Option<string>)

  /** ListUsers (by search string, "" for none) and GetUser (by ID). */
  datatype UsersService = UsersService(
    listUsers: string -> Pages<User>,
    getUser: int -> Result<User>)

  ghost predicate GroupsForward(s: GroupsService)
  {
    (forall q :: Forward(s.listGroups(q)))
    && (forall id, recursive :: Forward(s.listGroupProjects(id, recursive)))
  }

  ghost predicate ProjectsForward(s: ProjectsService)
  {
    forall id :: Forward(s.getProjectApprovalRules(id))
  }

  ghost predicate UsersForward(s: UsersService)
  {
    forall q :: Forward(s.listUsers(q))
  }

  /** The filter that lets every item through. */
  function Everything<T>(): T -> bool
  {
    (x: T) => true
  }

  /** The regexp.MatchString test on a project's path. */
  function PathMatcher(matches: string -> bool): Project -> bool
  {
    (p: Project) => matches(p.pathWithNamespace)
  }

  /** The project callback with the resolved group bound. */
  function InGroup(f: (Group, Project) -> Reply, g: Group): Project -> Reply
  {
    (p: Project) => f(g, p)
  }

  // ---------------------------------------------------------------------
  // Groups

  /** GroupFullPaths: the full path of each group, in order. */
  method GroupFullPaths(groups: seq<Group>) returns (paths: seq<string>)
    ensures |paths| == |groups|
    ensures forall i :: 0 <= i < |groups| ==> paths[i] == groups[i].fullPath
  {
    paths := [];
    var i := 0;
    while i < |groups|
      invariant 0 <= i <= |groups|
      invariant |paths| == i
      invariant forall k :: 0 <= k < i ==> paths[k] == groups[k].fullPath
    {
      paths := paths + [groups[i].fullPath];
      i := i + 1;
    }
  }

  function NoExactGroup(group: string): string
  {
    "FindExactGroup: could not find exact match for group: " + Quote(group)
  }

  /** The first item of a page whose full path is exactly `group`. */
  function FirstWithPath(items: seq<Group>, group: string): Option<Group>
  {
    if items == [] then None
    else if items[0].fullPath == group then Some(items[0])
    else FirstWithPath(items[1..], group)
  }

  /** What FindExactGroup's loop returns when it reaches `page`. */
  function ExactGroupFrom(src: Pages<Group>, group: string, page: nat): Result<Group>
    requires Forward(src) && page >= 1
    decreases |src| + 1 - page
  {
    match Fetch(src, page)
    case Failure(e) => Err("FindExactGroup: " + e)
    case Page(items, next) =>
      match FirstWithPath(items, group)
      case Some(g) => Ok(g)
      case None => if next == 0 then Err(NoExactGroup(group)) else ExactGroupFrom(src, group, next)
  }

  /**
   * FindExactGroup: searches the groups matching `group` page by page and
   * returns the first whose full path equals it exactly.
   */
  method FindExactGroup(s: GroupsService, group: string) returns (r: Result<Group>)
    requires Forward(s.listGroups(group))
    ensures r == ExactGroupFrom(s.listGroups(group), group, 1)
  {
    var src := s.listGroups(group);
    var page := 1;
    while true
      invariant page >= 1
      invariant ExactGroupFrom(src, group, 1) == ExactGroupFrom(src, group, page)
      decreases |src| + 1 - page
    {
      var resp := Fetch(src, page);
      if resp.Failure? {
        return Err("FindExactGroup: " + resp.error);
      }
      var i := 0;
      while i < |resp.items|
        invariant 0 <= i <= |resp.items|
        invariant FirstWithPath(resp.items, group) == FirstWithPath(resp.items[i..], group)
      {
        assert resp.items[i..][1..] == resp.items[i + 1..];
        if resp.items[i].fullPath == group {
          return Ok(resp.items[i]);
        }
        i := i + 1;
      }
      if resp.nextPage == 0 {
        break;
      }
      page := resp.nextPage;
    }
    r := Err(NoExactGroup(group));
  }

  lemma {:induction false} FirstWithPathIsFirst(items: seq<Group>, group: string)
    ensures match FirstWithPath(items, group)
      case Some(g) =>
        exists i :: 0 <= i < |items| && items[i] == g && g.fullPath == group
          && forall j :: 0 <= j < i ==> items[j].fullPath != group
      case None => forall g :: g in items ==> g.fullPath != group
  {
    if items != [] {
      FirstWithPathIsFirst(items[1..], group);
      if items[0].fullPath != group {
        match FirstWithPath(items[1..], group)
        case Some(g) =>
          var i :| 0 <= i < |items[1..]| && items[1..][i] == g && g.fullPath == group
            && forall j :: 0 <= j < i ==> items[1..][j].fullPath != group;
          assert items[i + 1] == g;
          forall j | 0 <= j < i + 1 ensures items[j].fullPath != group {
            if j > 0 { assert items[j] == items[1..][j - 1]; }
          }
        case None =>
          forall g | g in items ensures g.fullPath != group {
            if g != items[0] { assert g in items[1..]; }
          }
      }
    }
  }

  lemma {:induction false} FirstWithPathAppend(a: seq<Group>, b: seq<Group>, group: string)
    ensures FirstWithPath(a + b, group)
      == if FirstWithPath(a, group).Some? then FirstWithPath(a, group) else FirstWithPath(b, group)
  {
    if a == [] {
      assert a + b == b;
    } else {
      assert (a + b)[0] == a[0] && (a + b)[1..] == a[1..] + b;
      FirstWithPathAppend(a[1..], b, group);
    }
  }

  /**
   * FindExactGroup returns the first group of the whole listing, in
   * page-then-item order, whose full path equals the query (FirstWithPathIsFirst
   * says what "first" means); with no such group it returns the failing page's
   * error, or "could not find exact match" when the listing completed.
   */
  lemma {:induction false} ExactGroupIsFirstMatch(src: Pages<Group>, group: string, page: nat)
    requires Forward(src) && page >= 1
    ensures var l := ListFrom(src, page);
      ExactGroupFrom(src, group, page)
        == match FirstWithPath(l.items, group)
           case Some(g) => Ok(g)
           case None => Err(if l.error.Some? then "FindExactGroup: " + l.error.value else NoExactGroup(group))
    decreases |src| + 1 - page
  {
    match Fetch(src, page)
    case Failure(e) =>
    case Page(items, next) =>
      if next != 0 {
        ExactGroupIsFirstMatch(src, group, next);
        FirstWithPathAppend(items, ListFrom(src, next).items, group);
      }
  }

  // ---------------------------------------------------------------------
  // Projects

  /** ForEachProjectInGroup as a value: the callback invocations and the returned error. */
  function ProjectsWalk(
    s: GroupsService, group: string, expr: string, compile: Compiler, recursive: bool,
    f: (Group, Project) -> Reply): (seq<Project>, Option<string>)
    requires GroupsForward(s)
  {
    match ExactGroupFrom(s.listGroups(group), group, 1)
    case Err(e) => ([], Some("ForEachProjectInGroup: " + e))
    case Ok(g) =>
      match compile(expr)
      case Err(e) => ([], Some("ForEachProjectInGroup: " + e))
      case Ok(matches) =>
        var w := WalkFrom(s.listGroupProjects(g.id, recursive), "ForEachProjectInGroup",
          PathMatcher(matches), InGroup(f, g), 1);
        (w.called, w.stop.ErrorOf())
  }

  /**
   * ForEachProjectInGroup: resolves the group, compiles the expression, then
   * calls f on each project of the group whose path matches.
   */
  method ForEachProjectInGroup(
    s: GroupsService, group: string, expr: string, compile: Compiler, recursive: bool,
    f: (Group, Project) -> Reply)
    returns (called: seq<Project>, err: Option<string>)
    requires GroupsForward(s)
    ensures (called, err) == ProjectsWalk(s, group, expr, compile, recursive, f)
    ensures ExactGroupFrom(s.listGroups(group), group, 1).Err? || compile(expr).Err? ==> called == [] && err.Some?
  {
    var found := FindExactGroup(s, group);
    if found.Err? {
      return [], Some("ForEachProjectInGroup: " + found.error);
    }
    var g := found.value;
    var compiled := compile(expr);
    if compiled.Err? {
      return [], Some("ForEachProjectInGroup: " + compiled.error);
    }
    var matches := compiled.value;
    ghost var fetched;
    called, err, fetched := ForEach(s.listGroupProjects(g.id, recursive), "ForEachProjectInGroup",
      PathMatcher(matches), InGroup(f, g));
  }

  /**
   * With a callback that always continues, ForEachProjectInGroup calls f on
   * exactly the listed projects whose path matches, in page-then-item order.
   */
  lemma ProjectsWalkVisitsMatching(
    s: GroupsService, group: string, expr: string, compile: Compiler, recursive: bool,
    f: (Group, Project) -> Reply, g: Group, matches: string -> bool)
    requires GroupsForward(s)
    requires ExactGroupFrom(s.listGroups(group), group, 1) == Ok(g)
    requires compile(expr) == Ok(matches)
    requires forall p :: f(g, p) == Continue
    ensures var l := ListFrom(s.listGroupProjects(g.id, recursive), 1);
      var keep := PathMatcher(matches);
      ProjectsWalk(s, group, expr, compile, recursive, f)
        == (Filter(keep, l.items),
            if l.error.None? then None else Some(Wrapped("ForEachProjectInGroup", l.error.value)))
  {
    forall p | PathMatcher(matches)(p) ensures InGroup(f, g)(p) == Continue {
      assert InGroup(f, g)(p) == f(g, p);
    }
    var src := s.listGroupProjects(g.id, recursive);
    WalkAllContinue(src, "ForEachProjectInGroup", PathMatcher(matches), InGroup(f, g), 1);
    var w := WalkFrom(src, "ForEachProjectInGroup", PathMatcher(matches), InGroup(f, g), 1);
    assert ProjectsWalk(s, group, expr, compile, recursive, f) == (w.called, w.stop.ErrorOf());
    var l := ListFrom(src, 1);
    assert w.called == Filter(PathMatcher(matches), l.items);
    assert w.stop.ErrorOf() == if l.error.None? then None else Some(Wrapped("ForEachProjectInGroup", l.error.value));
  }

  lemma {:induction false} FilterAll<T>(keep: T -> bool, s: seq<T>)
    requires forall x :: keep(x)
    ensures Filter(keep, s) == s
  {
    if s != [] {
      FilterAll(keep, s[1..]);
    }
  }

  /** An expression that compiles to the match-everything matcher (Go's "") visits every listed project. */
  lemma EmptyExpressionVisitsAll(
    s: GroupsService, group: string, compile: Compiler, recursive: bool,
    f: (Group, Project) -> Reply, g: Group, matches: string -> bool)
    requires GroupsForward(s)
    requires ExactGroupFrom(s.listGroups(group), group, 1) == Ok(g)
    requires compile("") == Ok(matches) && forall x :: matches(x)
    requires forall p :: f(g, p) == Continue
    ensures var l := ListFrom(s.listGroupProjects(g.id, recursive), 1);
      ProjectsWalk(s, group, "", compile, recursive, f).0 == l.items
  {
    ProjectsWalkVisitsMatching(s, group, "", compile, recursive, f, g, matches);
    forall p: Project ensures PathMatcher(matches)(p) {
      assert matches(p.pathWithNamespace);
    }
    FilterAll(PathMatcher(matches), ListFrom(s.listGroupProjects(g.id, recursive), 1).items);
  }

  function CollectProject(g: Group, p: Project): Reply
  {
    Continue
  }

  /**
   * GetAllProjects: the projects ForEachProjectInGroup visits with a callback
   * that collects and always continues, or the wrapped error.
   */
  method GetAllProjects(s: GroupsService, group: string, expr: string, compile: Compiler, recursive: bool)
    returns (r: Result<seq<Project>>)
    requires GroupsForward(s)
    ensures var (called, err) := ProjectsWalk(s, group, expr, compile, recursive, CollectProject);
      r == if err.None? then Ok(called) else Err("GetAllProjects: " + err.value)
  {
    var called, err := ForEachProjectInGroup(s, group, expr, compile, recursive, CollectProject);
    if err.Some? {
      return Err("GetAllProjects: " + err.value);
    }
    r := Ok(called);
  }

  /**
   * A successful GetAllProjects returns every matching project of a listing
   * that completed without error.
   */
  lemma GetAllProjectsIsCompleteListing(
    s: GroupsService, group: string, expr: string, compile: Compiler, recursive: bool,
    g: Group, matches: string -> bool)
    requires GroupsForward(s)
    requires ExactGroupFrom(s.listGroups(group), group, 1) == Ok(g)
    requires compile(expr) == Ok(matches)
    ensures var (called, err) := ProjectsWalk(s, group, expr, compile, recursive, CollectProject);
      var l := ListFrom(s.listGroupProjects(g.id, recursive), 1);
      (err.None? <==> l.error.None?)
      && (err.None? ==> called == Filter(PathMatcher(matches), l.items))
  {
    ProjectsWalkVisitsMatching(s, group, expr, compile, recursive, CollectProject, g, matches);
  }

  // ---------------------------------------------------------------------
  // Approval rules

  function UsernamesOf(us: seq<BasicUser>): (names: seq<string>)
    ensures |names| == |us|
    ensures forall i :: 0 <= i < |us| ==> names[i] == us[i].username
  {
    if us == [] then [] else [us[0].username] + UsernamesOf(us[1..])
  }

  /**
   * The username list at the heart of gitlab_util's ApprovalRuleToString:
   * the eligible approvers' usernames, sorted.
   */
  method ApprovalRuleUsernames(rule: ApprovalRule) returns (usernames: seq<string>)
    ensures Sorted(usernames)
    ensures multiset(usernames) == multiset(UsernamesOf(rule.eligibleApprovers))
  {
    var names: seq<string> := [];
    var i := 0;
    while i < |rule.eligibleApprovers|
      invariant 0 <= i <= |rule.eligibleApprovers|
      invariant names == UsernamesOf(rule.eligibleApprovers)[..i]
    {
      names := names + [rule.eligibleApprovers[i].username];
      i := i + 1;
    }
    assert names == UsernamesOf(rule.eligibleApprovers);
    usernames := SortStrings(names);
  }

  /** The request that re-sends a rule exactly as it is. */
  function CurrentSettings(rule: ApprovalRule): RuleUpdate
  {
    RuleUpdate(rule.name, rule.approvalsRequired,
      seq(|rule.users|, i requires 0 <= i < |rule.users| => rule.users[i].id),
      seq(|rule.groups|, i requires 0 <= i < |rule.groups| => rule.groups[i].id),
      seq(|rule.protectedBranches|, i requires 0 <= i < |rule.protectedBranches| => rule.protectedBranches[i].id),
      rule.appliesToAllProtectedBranches)
  }

  /**
   * UpdateApprovalRule: sends the rule back with everything as it was except
   * the user IDs, which are replaced by `userIDs`; returns the service's error.
   */
  method UpdateApprovalRule(s: ProjectsService, projectID: int, rule: ApprovalRule, userIDs: seq<int>)
    returns (err: Option<string>, sent: RuleUpdate)
    ensures sent == CurrentSettings(rule).(userIDs := userIDs)
    ensures err == s.updateProjectApprovalRule(projectID, rule.id, sent)
  {
    var groupIDs: seq<int> := [];
    var i := 0;
    while i < |rule.groups|
      invariant 0 <= i <= |rule.groups|
      invariant |groupIDs| == i
      invariant forall k :: 0 <= k < i ==> groupIDs[k] == rule.groups[k].id
    {
      groupIDs := groupIDs + [rule.groups[i].id];
      i := i + 1;
    }
    var branchIDs: seq<int> := [];
    i := 0;
    while i < |rule.protectedBranches|
      invariant 0 <= i <= |rule.protectedBranches|
      invariant |branchIDs| == i
      invariant forall k :: 0 <= k < i ==> branchIDs[k] == rule.protectedBranches[k].id
    {
      branchIDs := branchIDs + [rule.protectedBranches[i].id];
      i := i + 1;
    }
    sent := RuleUpdate(rule.name, rule.approvalsRequired, userIDs, groupIDs, branchIDs,
      rule.appliesToAllProtectedBranches);
    err := s.updateProjectApprovalRule(projectID, rule.id, sent);
  }

  /**
   * ForEachApprovalRuleInProject: calls f on every rule of the project, page
   * after page, until f declines or fails.
   */
  method ForEachApprovalRuleInProject(s: ProjectsService, p: Project, f: ApprovalRule -> Reply)
    returns (called: seq<ApprovalRule>, err: Option<string>)
    requires ProjectsForward(s)
    ensures var w := WalkFrom(s.getProjectApprovalRules(p.id), "ForEachApprovalRuleInProject",
        Everything<ApprovalRule>(), f, 1);
      called == w.called && err == w.stop.ErrorOf()
  {
    ghost var fetched;
    called, err, fetched := ForEach(s.getProjectApprovalRules(p.id), "ForEachApprovalRuleInProject",
      Everything<ApprovalRule>(), f);
  }

  // ---------------------------------------------------------------------
  // Users

  /** strconv.Atoi on a 64-bit platform: optional sign, decimal digits, in range. */
  function Atoi(s: string): Option<int>
  {
    var neg := |s| > 0 && s[0] == '-';
    var digits := if |s| > 0 && (s[0] == '-' || s[0] == '+') then s[1..] else s;
    if digits == [] || !AllDigits(digits) then None
    else
      var n := DecimalValue(digits);
      var v: int := if neg then 0 - n else n;
      if -0x8000_0000_0000_0000 <= v <= 0x7FFF_FFFF_FFFF_FFFF then Some(v) else None
  }

  predicate AllDigits(s: string)
  {
    forall i :: 0 <= i < |s| ==> '0' <= s[i] <= '9'
  }

  function DecimalValue(s: string): nat
    requires AllDigits(s)
  {
    if s == [] then 0 else 10 * DecimalValue(s[..|s| - 1]) + (s[|s| - 1] as int - '0' as int)
  }

  /** The exact-match test of FindExactUser's callback. */
  predicate IsExactUser(user: string, u: User)
  {
    u.email == user || u.username == user || u.name == user
  }

  function ExactFor(user: string): User -> bool
  {
    (u: User) => IsExactUser(user, u)
  }

  function CollectUser(u: User): Reply
  {
    Continue
  }

  function UsernamesOfUsers(us: seq<User>): (names: seq<string>)
    ensures |names| == |us|
  {
    if us == [] then [] else [us[0].username] + UsernamesOfUsers(us[1..])
  }

  /** What FindExactUser returns, given what its ForEachUser walk saw. */
  function ExactUser(s: UsersService, user: string): Result<User>
    requires UsersForward(s)
  {
    match Atoi(user)
    case Some(id) => s.getUser(id)
    case None =>
      var w := WalkFrom(s.listUsers(user), "ForEachUser", Everything<User>(), CollectUser, 1);
      var exact := Filter(ExactFor(user), w.called);
      if w.stop.Failed? then Err(w.stop.error)
      else if |exact| == 0 then Err("no match found for user: " + Quote(user))
      else if |exact| > 1 then Err("multiple exact matches found: " + QuoteAll(UsernamesOfUsers(exact)))
      else Ok(exact[0])
  }

  /**
   * FindExactUser: a numeric query is a user ID looked up directly; any
   * other query searches the users and requires exactly one whose e-mail,
   * username or name equals it.
   */
  method FindExactUser(s: UsersService, user: string) returns (r: Result<User>)
    requires UsersForward(s)
    ensures r == ExactUser(s, user)
  {
    var id := Atoi(user);
    if id.Some? {
      r := s.getUser(id.value);
      return;
    }
    var seen, err := ForEachUser(s, user, CollectUser);
    if err.Some? {
      return Err(err.value);
    }
    var exactMatches := ExactMatches(seen, user);
    if |exactMatches| == 0 {
      return Err("no match found for user: " + Quote(user));
    }
    if |exactMatches| > 1 {
      var usernames := Usernames(exactMatches);
      return Err("multiple exact matches found: " + QuoteAll(usernames));
    }
    r := Ok(exactMatches[0]);
  }

  /** The append loop of FindExactUser's callback, over the users it was called on. */
  method ExactMatches(seen: seq<User>, user: string) returns (exactMatches: seq<User>)
    ensures exactMatches == Filter(ExactFor(user), seen)
  {
    exactMatches := [];
    var i := 0;
    while i < |seen|
      invariant 0 <= i <= |seen|
      invariant exactMatches == Filter(ExactFor(user), seen[..i])
    {
      FilterAppend(ExactFor(user), seen[..i], [seen[i]]);
      assert seen[..i + 1] == seen[..i] + [seen[i]];
      if IsExactUser(user, seen[i]) {
        exactMatches := exactMatches + [seen[i]];
      }
      i := i + 1;
    }
    assert seen[..i] == seen;
  }

  /** The usernames loop of FindExactUser's ambiguity error. */
  method Usernames(users: seq<User>) returns (usernames: seq<string>)
    ensures usernames == UsernamesOfUsers(users)
  {
    usernames := [];
    var k := 0;
    while k < |users|
      invariant 0 <= k <= |users|
      invariant usernames == UsernamesOfUsers(users[..k])
    {
      UsernamesOfUsersSnoc(users[..k], users[k]);
      assert users[..k + 1] == users[..k] + [users[k]];
      usernames := usernames + [users[k].username];
      k := k + 1;
    }
    assert users[..k] == users;
  }

  lemma {:induction false} UsernamesOfUsersSnoc(us: seq<User>, u: User)
    ensures UsernamesOfUsers(us + [u]) == UsernamesOfUsers(us) + [u.username]
  {
    if us == [] {
      assert us + [u] == [u];
    } else {
      assert (us + [u])[1..] == us[1..] + [u];
      UsernamesOfUsersSnoc(us[1..], u);
    }
  }

  /**
   * A search query resolves to a user exactly when the listing completed and
   * exactly one listed user matches it exactly, and that user is the result.
   */
  lemma ExactUserIsUniqueMatch(s: UsersService, user: string)
    requires UsersForward(s)
    requires Atoi(user).None?
    ensures var l := ListFrom(s.listUsers(user), 1);
      var exact := Filter(ExactFor(user), l.items);
      var r := ExactUser(s, user);
      (r.Ok? <==> l.error.None? && |exact| == 1)
      && (r.Ok? ==> r.value == exact[0] && IsExactUser(user, r.value) && r.value in l.items)
  {
    var l := ListFrom(s.listUsers(user), 1);
    forall u: User ensures Everything<User>()(u) && (Everything<User>()(u) ==> CollectUser(u) == Continue) {
    }
    WalkAllContinue(s.listUsers(user), "ForEachUser", Everything<User>(), CollectUser, 1);
    FilterAll(Everything<User>(), l.items);
    var w := WalkFrom(s.listUsers(user), "ForEachUser", Everything<User>(), CollectUser, 1);
    assert w.called == l.items;
    var exact := Filter(ExactFor(user), l.items);
    FilterKeeps(ExactFor(user), l.items);
    if |exact| == 1 {
      assert exact[0] in exact;
      assert ExactFor(user)(exact[0]);
    }
  }

  lemma {:induction false} FilterKeeps<T>(keep: T -> bool, s: seq<T>)
    ensures forall x :: x in Filter(keep, s) ==> x in s && keep(x)
  {
    if s != [] {
      FilterKeeps(keep, s[1..]);
    }
  }

  /**
   * ForEachUser: calls f on every listed user for the search string (all
   * users when it is empty), page after page, until f declines or fails.
   */
  method ForEachUser(s: UsersService, user: string, f: User -> Reply)
    returns (called: seq<User>, err: Option<string>)
    requires UsersForward(s)
    ensures var w := WalkFrom(s.listUsers(user), "ForEachUser", Everything<User>(), f, 1);
      called == w.called && err == w.stop.ErrorOf()
  {
    ghost var fetched;
    called, err, fetched := ForEach(s.listUsers(user), "ForEachUser", Everything<User>(), f);
  }
}
