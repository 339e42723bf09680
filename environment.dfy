// What the commands run against and what they do to the world. The GitLab
// client is a bundle of services whose answers are fixed up front; the
// regular-expression engine, the UUID generator, the order in which Go
// ranges over a map, and the code of the commands that are not part of this
// model are parameters. What a command prints and the requests it sends are
// the effects it returns, in order.

module Environment {
  import opened Wrappers
  import opened Strings
  import opened Flags
  import opened Paging
  import opened GitlabUtil
  import opened XmlUsers

  /** A gitlab.Client: the Groups, Projects and Users services. */
  datatype Client = Client(groups: GroupsService, projects: ProjectsService, users: UsersService)

  /** Every listing of the client moves forward through its pages. */
  ghost predicate Serves(c: Client)
  {
    GroupsForward(c.groups) && ProjectsForward(c.projects) && UsersForward(c.users)
  }

  /**
   * The rest of the world: regexp.Compile, the k-th string uuid.NewString
   * returns, Go's map iteration order, and the Run of a subcommand whose
   * source is not part of this model (by name, on its arguments).
   */
  datatype Env = Env(
    compile: Compiler,
    uuid: nat -> string,
    order: Enumeration,
    external: (string, seq<string>) -> Option<string>)

  /** One observable action of a command. */
  datatype Effect =
    | Output(line: string)
    | Warning(line: string)
    | Usage(names: seq<string>)
    | ShowOptions(fields: Fields)
    | CreateRequest(options: CreateProjectOptions)
    | DeleteRequest(projectID: int)
    | UpdateRequest(projectID: int, ruleID: int, update: RuleUpdate)

  /** What running a command yields: its error, its effects, the options and the users files afterwards. */
  datatype Outcome = Outcome(err: Option<string>, effects: seq<Effect>, fields: Fields, disk: Disk)

  /** The outcome of a command whose flags failed to parse: nothing else happens. */
  function ParseFailed(p: Parsed, disk: Disk): (r: Outcome)
    requires p.err.Some?
    ensures r.err == p.err && r.effects == [] && r.fields == p.fields && r.disk == disk
  {
    Outcome(p.err, [], p.fields, disk)
  }

  /** The line the project listings print for a project: "ID: path". */
  function ProjectLine(p: Project): string
  {
    IntToString(p.id) + ": " + p.pathWithNamespace
  }

  /** One output line per project, in order. */
  function ProjectLines(ps: seq<Project>): (r: seq<Effect>)
    ensures |r| == |ps|
    ensures forall i :: 0 <= i < |ps| ==> r[i] == Output(ProjectLine(ps[i]))
  {
    seq(|ps|, i requires 0 <= i < |ps| => Output(ProjectLine(ps[i])))
  }

  /** The callback of the project listings: print, and ask for more. */
  function PrintProject(g: Group, p: Project): Reply
  {
    Continue
  }
}
