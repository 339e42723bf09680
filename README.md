# gitlab-cmds, modelled in Dafny

gitlab-cmds is a command-line tool for administering a GitLab server. Its
commands form a tree: `glcmds [global options] project create-random|delete|list …`,
with `projects`, `projects approval-rules` and `users` as further parents.
This project models the core of that tool and proves what it does:

- **The listing helpers** of `gitlab_util.go` (module `GitlabUtil`, with the
  shared page loop in `Paging`). Each one starts at page 1, visits the page's
  items in order and stops as soon as the callback declines or fails;
  otherwise it follows `NextPage` until that is 0. On top of this loop sit
  exact-match resolution of groups and users, regex-filtered visiting of a
  group's projects, collect-all, and the construction of an approval-rule
  update.
- **The command tree** (`Command`, the parent commands, `Global`). A parent
  holds a name→runner map and dispatches on its first argument.
  `GlobalCommand` keeps a separate map of generators, so that `Usage` can
  list names before any subcommand exists.
- **Option resolution in three passes** (`Flags`, `CommonOptions`,
  `Global`, and each leaf `Initialize`). Hard-coded defaults come first,
  then options.xml, then the command line. The Go flag package is modelled
  as a pure `ParseArgs` over a map from flag name to option field. All
  option structures are one `Store`: a map from a field's path to its
  value.
- **The leaf commands**: project create-random (two variants), project
  delete, project and projects list, approval-rules list and update, and
  users list. These cover validation order, dry-run gating, the counted
  create loop, collect-then-delete, nested project→rule updates and user
  lookup.
- **The helpers**: credential selection (`Credentials`, `AuthInfoXml`,
  `AuthInfoJson`), the users file (`XmlUsers`), and the comma list
  (`StringSlice`).

The model follows the repository's structure.

- **Code that loops or changes state is imperative Dafny.**
  - Each Go loop is a `method` with a `while` loop, proved equal to a
    specification function: `ForEach`/`WalkFrom`,
    `DeleteEach`/`Deletions`, `CountUsers`/`CountMap`.
  - What the Go code promises is proved as lemmas about that function:
    `WalkStopsOnLastFetchedPage`, `DeletionsStopAtFirstFailure`,
    `CountsAddUp`.
  - Commands are classes. Each has its flag set (`FlagSet`) and the shared
    options (`Store`). `Initialize`, the constructors, `Run`,
    `DispatchSubcommand`, `Usage` and `generateSubcmds` change those objects
    under `modifies` clauses.
- **Pure Go code is made of functions and lemmas.** This covers the
  credential loaders, `FromGitlabUser` and the validators.

The outside world is replaced as follows:

- **The GitLab REST client** becomes services whose per-page answers are
  fixed up front (`Pages<T>`, one response per page number).
- **What a command prints and the requests it sends** are returned as a
  sequence of `Effect`s, in order.
- **The regex engine, the UUID generator, Go's map iteration order and
  `NewProjectsDeleteCommand`** are parameters (`Env`). The last of these is
  not part of this model.
- **The users files and the options and credential files** are
  `Disk`/`FileSystem`, holding already-decoded documents.

Where the code and its documentation disagree, the model follows the code:
- every loop stops at its first error;
- FindExactGroup returns the first exact match it meets, page by page;
- the approval-rules update swallows an unreadable approvers file (see
  Findings).

## Model

| member | source | states |
|---|---|---|
| Paging.ForEach | cmd/internal/gitlab_util/gitlab_util.go:104-141 | The page loop of every iterator returns exactly the callback invocations, the error and the pages requested of `WalkFrom` from page 1; what that walk does is stated by the Walk lemmas below |
| Paging.ScanPage | cmd/internal/gitlab_util/gitlab_util.go:120-130 | The inner `range ps` loop yields the invocations and the stop (decline or callback error) that `ScanItems` defines for one page |
| Paging.ScanCalledIsFilteredPrefix | cmd/internal/gitlab_util/gitlab_util.go:120-130 | On one page the callback sees a prefix of the items that pass the filter, all of them when nothing stops the scan, and a page scan never reports the listing as exhausted |
| Paging.ScanRepliesBeforeStop | cmd/internal/gitlab_util/gitlab_util.go:122-128 | On one page every invocation but the last replied (true, nil); a scan ended by declining ended on (false, nil), one ended by failure on the callback's own error |
| Paging.ScanAllContinue | cmd/internal/gitlab_util/gitlab_util.go:120-130 | With a callback that always continues, a page scan invokes it on exactly the filtered items and does not stop |
| Paging.WalkCalledIsFilteredPrefix | cmd/internal/gitlab_util/gitlab_util.go:110-141 | The callback only sees listed items that pass the filter, in page-then-item order; a walk that ran out of pages saw all of them and met no fetch error |
| Paging.WalkRepliesBeforeStop | cmd/internal/gitlab_util/gitlab_util.go:110-141 | Every invocation but the last asked to continue; a walk ended by declining ended on (false, nil); one that ran out of pages continued throughout and requested the whole NextPage chain |
| Paging.WalkAllContinue | cmd/internal/gitlab_util/gitlab_util.go:110-141 | With an always-continue callback the walk visits exactly the filtered listing, requests every page of the chain and ends with nil or with the first page error, wrapped as "caller: err\n" |
| Paging.WalkStopsOnLastFetchedPage | cmd/internal/gitlab_util/gitlab_util.go:110-139 | Pages are requested along the NextPage chain, and a page is requested only after every filtered item of the earlier pages was visited: once the callback stops the walk, no further page is fetched |
| GitlabUtil.GroupFullPaths | cmd/internal/gitlab_util/gitlab_util.go:21-27 | One path per group, in order, each the group's FullPath |
| GitlabUtil.FindExactGroup | cmd/internal/gitlab_util/gitlab_util.go:31-68 | The page loop returns `ExactGroupFrom` of the search listing from page 1; its partner `ExactGroupIsFirstMatch` says which group that is |
| GitlabUtil.FirstWithPathIsFirst | cmd/internal/gitlab_util/gitlab_util.go:49-53 | The group picked from a page is the first whose FullPath equals the query exactly; none is picked when no FullPath equals it |
| GitlabUtil.FirstWithPathAppend | cmd/internal/gitlab_util/gitlab_util.go:39-62 | Searching one page and then the next finds what searching their concatenation finds |
| GitlabUtil.ExactGroupIsFirstMatch | cmd/internal/gitlab_util/gitlab_util.go:39-67 | FindExactGroup returns the first group of the whole listing, in page-then-item order, whose full path equals the query; with none, the failing page's error wrapped by "FindExactGroup: ", or "could not find exact match for group" when the listing completed |
| GitlabUtil.ForEachProjectInGroup | cmd/internal/gitlab_util/gitlab_util.go:83-142 | Returns the invocations and error of `ProjectsWalk`; a group that cannot be found or an expression that does not compile returns an error before f is ever called. Partner: `ProjectsWalkVisitsMatching` |
| GitlabUtil.ProjectsWalkVisitsMatching | cmd/internal/gitlab_util/gitlab_util.go:104-141 | With a callback that always continues, f is called on exactly the listed projects whose PathWithNamespace matches, in page-then-item order, and the error is the page error wrapped by "ForEachProjectInGroup: " or nil |
| GitlabUtil.EmptyExpressionVisitsAll | cmd/internal/gitlab_util/gitlab_util.go:98-130 | An expression that compiles to a match-everything matcher (Go's "") visits every listed project |
| GitlabUtil.GetAllProjects | cmd/internal/gitlab_util/gitlab_util.go:157-179 | Returns what ForEachProjectInGroup visits with a collecting, always-continuing callback, or that walk's error wrapped by "GetAllProjects: " |
| GitlabUtil.GetAllProjectsIsCompleteListing | cmd/internal/gitlab_util/gitlab_util.go:157-179 | GetAllProjects succeeds exactly when the project listing completed, and then returns every matching project of it, in order |
| GitlabUtil.ApprovalRuleUsernames | cmd/internal/gitlab_util/gitlab_util.go:187-196 | The usernames of the eligible approvers, sorted ascending and a permutation of them |
| GitlabUtil.UpdateApprovalRule | cmd/internal/gitlab_util/gitlab_util.go:215-248 | The update sent keeps the rule's name, approvals required, applies-to-all flag, group IDs and branch IDs (in rule order); only the user IDs are replaced by the caller's list. The service's error is returned |
| GitlabUtil.ForEachApprovalRuleInProject | cmd/internal/gitlab_util/gitlab_util.go:269-312 | Returns the invocations and error of the page walk over the project's rules, with no filter; the Walk lemmas apply |
| GitlabUtil.FindExactUser | cmd/internal/gitlab_util/gitlab_util.go:321-368 | Returns `ExactUser`: a numeric query is looked up by ID, any other query goes through the search; partner `ExactUserIsUniqueMatch` |
| GitlabUtil.ExactMatches | cmd/internal/gitlab_util/gitlab_util.go:345-350 | The callback's accumulator holds, in order, the users seen whose e-mail, username or name equals the query |
| GitlabUtil.Usernames | cmd/internal/gitlab_util/gitlab_util.go:358-363 | The usernames of the ambiguous matches, one per match, in order |
| GitlabUtil.ExactUserIsUniqueMatch | cmd/internal/gitlab_util/gitlab_util.go:344-366 | A search query resolves exactly when the listing completed and exactly one listed user matches it exactly; that user is the result |
| GitlabUtil.ForEachUser | cmd/internal/gitlab_util/gitlab_util.go:379-425 | Returns the invocations and error of the page walk over the users the search string lists; the Walk lemmas apply |
| Command.Route | cmd/internal/commands/command.go:92-104 | A name is picked exactly when args is non-empty and args[0] is a subcommand name, and it is args[0]; otherwise "no subcommand specified" or "invalid subcommand: NAME" |
| Command.ParentCommand.Dispatched | cmd/internal/commands/command.go:92-109 | Empty args give "no subcommand specified" and an unknown name gives "invalid subcommand: NAME", both with no effect; a known name runs exactly that runner on args[1:] and returns its outcome unchanged |
| Command.ParentCommand.DispatchSubcommand | cmd/internal/commands/command.go:92-109 | The error, the effects, the options and the disk afterwards are those `Dispatched` states |
| Command.SortedCommandNames | cmd/internal/commands/command.go:112-125 | The names the map range yields, sorted. Partners: `SortedListsAll` and `SortedIgnoresOrder` |
| Command.SortedListsAll | cmd/internal/commands/command.go:112-125 | Every subcommand name exactly once, in ascending order, as many names as there are subcommands |
| Command.SortedIgnoresOrder | cmd/internal/commands/command.go:116-122 | Whatever order the map range visits the names in, the sorted names are the same |
| Command.SortedUnique | cmd/internal/commands/command.go:122 | Two sorted sequences holding the same names the same number of times are equal |
| Command.NoOwnOptions | cmd/internal/commands/project_command.go:52-54 | A parent's own flag set defines no flag: parsing changes no option, records no flag, and succeeds only when there are no arguments, the first is not a flag, or it is "--" (which is dropped) |
| Command.ParentCommand.constructor | cmd/internal/commands/command.go:80-87 | A parent with its name, the shared options, a fresh, empty flag set and no subcommands |
| Command.ParentCommand.Add | cmd/internal/commands/project_command.go:93-100 | `subcmds[n] = r`: the map gains that one entry and nothing else changes |
| Command.ParentCommand.Run | cmd/internal/commands/project_command.go:135-146 | Parse the parent's flags, then dispatch the remaining arguments; the outcome is `RunOutcome` |
| Command.RunRunner | cmd/internal/commands/command.go:18-22 | `runner.Run(args)` yields the outcome `RunnerOutcome` gives for whichever command the runner is |
| CommonOptions.Defaulted | cmd/internal/common_options.go:33-41 | A defaulted value is never empty, and a non-empty value is kept |
| CommonOptions.WithDefaultsFills | cmd/internal/common_options.go:33-41 | After the defaulting step all three fields are non-empty; a non-empty field keeps its value; an empty one gets "auth.xml", "https://gitlab.com/" or "options.xml"; no other field changes |
| CommonOptions.WithDefaultsIdempotent | cmd/internal/common_options.go:33-41 | Defaulting twice is defaulting once |
| CommonOptions.Initialize | cmd/internal/common_options.go:30-64 | The store holds the defaulted values, and --auth, --base-url and --options are bound to the three fields of the package-level set |
| Credentials.BasicFromDocument | cmd/internal/authinfo/authinfo.go:89-99 | A decoder error is passed on unchanged; a decoded document succeeds iff its username and password are both non-empty, and otherwise fails with the format's "invalid" error |
| Credentials.OAuthFromDocument | cmd/internal/authinfo/authinfo.go:136-146 | A decoder error is passed on; success iff the oauth-token is non-empty; otherwise the "invalid" error |
| Credentials.PrivateFromDocument | cmd/internal/authinfo/authinfo.go:181-191 | A decoder error is passed on; success iff the private-token is non-empty; otherwise the "invalid" error |
| Credentials.Load | cmd/internal/authinfo/authinfo.go:208-246 | An open error is returned as is. Otherwise the result is OAuth iff the OAuth decoder succeeds, a private token iff OAuth fails and the private decoder succeeds, basic iff both fail and basic succeeds. When all fail, the result is the basic decoder's error |
| Credentials.LoadByElements | cmd/internal/authinfo/authinfo.go:224-245 | Told from element texts alone: an OAuth token wins over everything (also over a private token), a private token over user name and password, and with none the document is invalid |
| Credentials.LoadMalformed | cmd/internal/authinfo/authinfo.go:91-94 | A document that does not decode fails with the decoder's own error, not the "invalid" one |
| AuthInfoXml.LoadXml | cmd/internal/authinfo/authinfo.go:208-246 | Load over the XML element names: an open error is passed on, a non-empty oauth-token wins, any other failure of a decoded document is "invalid XML", and basic auth only when both tokens are empty |
| AuthInfoXml.DecoderVectors | cmd/internal/authinfo/authinfo_test.go:35-172 | On the three documents of the test file, each decoder accepts only the document written for it and rejects the other two with "invalid XML" |
| AuthInfoJson.LoadAuthInfo | cmd/internal/auth_info.go:202-240 | The same selection over the JSON keys, with "invalid JSON" as the error of a decoded document without valid credentials |
| Environment.ParseFailed | cmd/internal/commands/projects_list_command.go:138-141 | A command whose flags fail to parse returns the parse error, has no effect and leaves the options as parsing left them |
| Environment.ProjectLines | cmd/internal/commands/projects_list_command.go:154-156 | One line "ID: PathWithNamespace" per visited project, in order |
| Flags.ParseBool | cmd/internal/commands/global_command.go:138-160 | The texts a boolean flag accepts as true and as false, in both directions |
| Flags.ParseUint | cmd/internal/commands/projects_create_random.go:74-75 | The value a uint64 flag stores never exceeds 2^64-1, and a parse without error had non-empty text |
| Flags.Accumulate | cmd/internal/commands/projects_create_random.go:74-75 | The digit loop succeeds iff every character is a digit of the base and the value fits in 64 bits, and then its result is exactly that value |
| Flags.Current | cmd/internal/commands/projects_list_command.go:51-64 | The default passed at registration is the field's current value, of the flag's kind |
| Flags.KeepCurrentKeepsValues | cmd/internal/commands/projects_list_command.go:48-65 | Registering a flag with the field's current value changes no value the options can read back, and no other field |
| Flags.KeepCurrentHolding | cmd/internal/commands/projects_list_command.go:48-65 | Registering a field that already holds a value of the flag's kind leaves the options as they are |
| Flags.PlanOne | cmd/internal/commands/projects_list_command.go:138 | One step of Parse: no argument, "-" or a non-flag ends the flags; "--" ends them and is consumed; a flag consumes at least its own argument, a defined non-boolean flag always has a text |
| Flags.SetOutcome | cmd/internal/commands/projects_list_command.go:138 | A flag's Set stores a value of its own kind; only a boolean or uint64 text can be rejected |
| Flags.ParseOne | cmd/internal/commands/projects_list_command.go:138 | A planned step done on the options: a bad flag fails with nothing written, and a set flag writes only its own field |
| Flags.FlagSet.constructor | cmd/internal/commands/projects_list_command.go:117 | flag.NewFlagSet: a named set with no flag, no recorded flag, no arguments, not parsed |
| Flags.FlagSet.Define | cmd/internal/commands/projects_list_command.go:51-64 | StringVar, BoolVar, Uint64Var: the name is bound to the field, the default is written into the field, nothing else changes |
| Flags.FlagSet.DefineList | cmd/internal/commands/users_list_command.go:56-57 | flags.Var with a StringSlice binds the name and leaves the field as it is |
| Flags.FlagSet.Parse | cmd/internal/commands/projects_list_command.go:138-141 | The options, the recorded flags, Args() and the error afterwards are those `ParseArgs` gives; the set is parsed |
| Flags.ParseRestIsSuffix | cmd/internal/commands/global_command.go:458-461 | Args() is a suffix of the arguments, and only defined flags are recorded |
| Flags.ParseStopsAtNonFlag | cmd/internal/commands/global_command.go:458-476 | Without an error, Args() is empty, starts with a non-flag, or follows a "--" |
| Flags.ParseLeavesNonFlag | cmd/internal/commands/project_command.go:139-145 | A non-flag first argument stops Parse before it changes anything |
| Flags.ParseKeepsUnsupplied | cmd/internal/commands/global_command.go:457-461 | Without an error, an option whose flags do not appear keeps its value (options.xml's or the default) |
| Flags.ParseKeepsUnbound | cmd/internal/commands/project_delete_command.go:53-74 | Whatever happens, Parse never touches a field no flag of the set writes |
| Flags.ParseOverrides | cmd/internal/commands/global_command.go:457-461 | From any two starting stores Parse records the same flags, leaves the same Args() and error, and agrees on every field a supplied non-list flag writes: the command line beats options.xml |
| Global.Bindings | cmd/internal/commands/global_command.go:121-160 | Every global flag writes a GlobalOptions field and none is a list; -h/--help and -v/--version share a field |
| Global.InitializedDefaults | cmd/internal/commands/global_command.go:121-160 | Initialize gives AuthFileName "auth.xml", BaseURL "https://gitlab.com/" and OptionsFileName "options.xml", keeps the three booleans and touches no field outside GlobalOptions |
| Global.RegisteredKeepsDefaults | cmd/internal/commands/global_command.go:121-160 | Registering the flags after the three defaults are set keeps the defaults |
| Global.Initialize | cmd/internal/commands/global_command.go:121-160 | The set gains the eight global flags; the options become `Initialized` |
| Global.TagOf | cmd/internal/commands/global_command.go:89-117 | The element paths of options.xml decode into non-list fields, and never into OptionsFileName or ShowOptions (tagged "-") |
| Global.DecodeText | cmd/internal/commands/global_command.go:57-73 | A string element takes the text as is; an empty text is never an error; a decoded value has the field's kind |
| Global.LoadFromXMLFile | cmd/internal/commands/global_command.go:57-73 | The options and the error afterwards are those `Loaded` gives; partners: `OverlayLastWins`, `LoadKeepsExcluded` |
| Global.LastSetting | cmd/internal/commands/global_command.go:57-73 | The element that decides a field is one of the document's and decodes into that field |
| Global.OverlayLastWins | cmd/internal/commands/global_command.go:57-73 | A decoded file sets each field by its last element for it, and leaves a field without an element as it was |
| Global.OverlayKeepsUntagged | cmd/internal/commands/global_command.go:89-117 | A field no element path decodes into keeps its value through any options file |
| Global.LoadKeepsExcluded | cmd/internal/commands/global_command.go:94-116 | options.xml never changes OptionsFileName or ShowOptions, whatever it holds and however it fails |
| Global.OptionsFileNameDefault | cmd/internal/commands/global_command.go:165-189 | Without --options the options file is "options.xml" |
| Global.OptionsNotGiven | cmd/internal/commands/global_command.go:165-189 | Without --options the command-line pass keeps OptionsFileName as it was |
| Global.GetOptionsXMLFileName | cmd/internal/commands/global_command.go:165-189 | Works on fresh options of its own and returns what `OptionsXmlFileName` gives: the --options value, else "options.xml", or the parse error |
| Global.PeakAtGlobalOptions | cmd/internal/commands/global_command.go:213-250 | Returns `Peeked`, with no modifies clause: the command's own options are untouched |
| Global.PeekPrecedence | cmd/internal/commands/global_command.go:213-250 | A global option given on the command line has its command-line value; one not given has the value options.xml left, else the default |
| Global.PeekedOptionsFileName | cmd/internal/commands/global_command.go:213-250 | The peeked OptionsFileName is the file the peek loaded: options.xml cannot rename itself |
| Global.CommandLineKeepsOthers | cmd/internal/commands/global_command.go:457-461 | The global flags never change an option outside GlobalOptions |
| Global.FilePassKeepsOptionsFileName | cmd/internal/commands/global_command.go:444-461 | From any defaults, loading options.xml changes neither whether the command line parses nor OptionsFileName after it |
| Global.ShowOptionsFlag | cmd/internal/commands/global_command.go:150-152 | Only --show-options writes ShowOptions |
| Global.ShowOptionsOnlyFromCommandLine | cmd/internal/commands/global_command.go:213-250 | The peek shows the options only when --show-options was on the command line |
| Global.RegisteredKeepsGlobals | cmd/internal/commands/global_command.go:440-442 | Generating the "project" subcommand leaves every global option as it was |
| Global.RegisteredKeepsOthers | cmd/internal/commands/global_command.go:440-442 | Generating the "project" subcommand touches only the fields of ProjectOptions |
| Global.GeneratedKeepsGlobals | cmd/internal/commands/global_command.go:440-442 | After the subcommands are generated the options agree with fresh ones on every global option |
| Global.MainPassAsPeeked | cmd/internal/commands/global_command.go:444-461 | The main run loads the file the peek loaded, cannot fail where the peek succeeded, ends with the global options the peek saw and leaves the same arguments |
| Global.MainRunAsPeeked | cmd/internal/commands/global_command.go:444-476 | Once the client exists, the options are shown exactly when the peek saw --show-options, and otherwise the leftover arguments are dispatched |
| Global.OnlyHelpExits | cmd/internal/commands/global_command.go:389-398 | Run exits iff the peek succeeded with --help, and then with code 0 after the usage naming "project" |
| Global.HelpExits | cmd/internal/commands/global_command.go:394-398 | --help exits with code 0 after printing the usage |
| Global.OthersReturn | cmd/internal/commands/global_command.go:389-476 | Without --help, Run returns |
| Global.AuthenticatedReturns | cmd/internal/commands/global_command.go:425-476 | Past the peek, loading the credentials, making the client and the rest of Run return |
| Global.VersionNeedsNoCredentials | cmd/internal/commands/global_command.go:400-404 | --version prints "NAME vVERSION" and returns nil whatever the credentials and the server |
| Global.SoleGenerator | cmd/internal/commands/global_command.go:327-332 | With one generator, the names listed are ["project"] |
| Global.GlobalCommand.constructor | cmd/internal/commands/global_command.go:345-379 | Fresh options and flag set, the global flags registered, the "project" generator added and no subcommand yet |
| Global.GlobalCommand.AddSubcmdGenerators | cmd/internal/commands/global_command.go:327-332 | The generators gain "project" |
| Global.GlobalCommand.Usage | cmd/internal/commands/global_command.go:281-319 | With no subcommand yet, one nil entry per generator name is inserted and no generator runs; the usage lists the sorted names; the exit code is 1 on standard error, 0 on standard output |
| Global.GlobalCommand.ExitWithUsage | cmd/internal/commands/global_command.go:303-318 | Where only "project" is or can be generated, the usage names exactly that subcommand |
| Global.GlobalCommand.GenerateSubcmds | cmd/internal/commands/global_command.go:337-341 | Afterwards subcmds holds a fresh, built "project" command bound to ProjectOpts and the client, and the options are those its registration writes |
| Global.GlobalCommand.GenerateProject | cmd/internal/commands/global_command.go:339-340 | One turn of the loop: `subcmds["project"] = NewProjectCommand(...)` |
| Global.GlobalCommand.Run | cmd/internal/commands/global_command.go:382-477 | The outcome and the disk afterwards are `GlobalRun`: peek; --help; --version; credentials; client; generateSubcmds; options.xml; the command line; --show-options or dispatch |
| Global.GlobalCommand.RunAuthenticated | cmd/internal/commands/global_command.go:425-476 | The part after --help and --version is `Authenticated` |
| Global.GlobalCommand.RunConnected | cmd/internal/commands/global_command.go:440-476 | With the client made, the rest of Run is `WithClient` over the options generateSubcmds leaves |
| Global.GlobalCommand.LoadOptionsFile | cmd/internal/commands/global_command.go:449-455 | Loading the peeked options file gives the options and error of `FilePass` |
| Global.GlobalCommand.RunGenerated | cmd/internal/commands/global_command.go:444-476 | After generation the rest of Run is `WithClient` over the current options |
| Global.GlobalCommand.DispatchSubcommand | cmd/internal/commands/global_command.go:475-476 | Dispatching the leftover arguments gives `DispatchOutcome` |
| ProjectCommand.NewProjectCommand | cmd/internal/commands/project_command.go:104-132 | A fresh parent with exactly the children "create-random", "delete" and "list", each bound to its own field of ProjectOptions and the client; -n/--dry-run of delete go to the package-level set |
| ProjectCommand.AddSubcmds | cmd/internal/commands/project_command.go:93-100 | subcmds becomes exactly the three built children, and the options are their registrations |
| ProjectCommand.AddCreateRandom | cmd/internal/commands/project_command.go:94-95 | `subcmds["create-random"]` is a built child over ProjectCreateRandomOpts whose registration resets its fields |
| ProjectCommand.AddDelete | cmd/internal/commands/project_command.go:96-97 | `subcmds["delete"]` is a built child over ProjectDeleteOpts |
| ProjectCommand.AddList | cmd/internal/commands/project_command.go:98-99 | `subcmds["list"]` is a built child over ProjectListOpts |
| ProjectCommand.BuiltRuns | cmd/internal/commands/project_command.go:135-146 | Running a built "project" command yields `FreshOutcome`, whatever its objects are |
| ProjectCommand.CreateRandomRuns | cmd/internal/commands/project_command.go:135-146 | "create-random" runs the create-random child, flags unparsed, on the arguments after it |
| ProjectCommand.DeleteRuns | cmd/internal/commands/project_command.go:135-146 | "delete" runs the delete child on the arguments after it |
| ProjectCommand.ListRuns | cmd/internal/commands/project_command.go:135-146 | "list" runs the list child on the arguments after it |
| ProjectCreateRandom.ResetRegisteredDiscards | cmd/internal/commands/project_create_random.go:51-73 | Registration resets the parent group, base name and count to "", "" and 0 (so Run then reports "invalid parent group") and keeps DryRun; no other field changes |
| ProjectCreateRandom.Initialize | cmd/internal/commands/project_create_random.go:51-73 | The set gains the create-random flags; the options become `ResetRegistered` |
| ProjectCreateRandom.ProjectCreateRandomCommand.constructor | cmd/internal/commands/project_create_random.go:89-111 | A fresh flag set with exactly the create-random flags, and the options reset |
| ProjectCreateRandom.ProjectCreateRandomCommand.Run | cmd/internal/commands/project_create_random.go:185-210 | The flag set is parsed and the outcome is the create-random `RunOutcome`, whose properties `ExecuteValidatesFirst` and `CreateAllRequests` state |
| ProjectDelete.RegisterDryRun | cmd/internal/commands/project_delete_command.go:53-60 | -n and --dry-run go to the package-level set with the current DryRun |
| ProjectDelete.Initialize | cmd/internal/commands/project_delete_command.go:50-75 | -n/--dry-run on the package-level set, --expr, --group and -r/--recursive on the command's own set, each with the current value |
| ProjectDelete.ParseKeepsDryRun | cmd/internal/commands/project_delete_command.go:53-74 | The command's own Parse never changes DryRun, whatever the arguments |
| ProjectDelete.DeleteProject | cmd/internal/commands/project_delete_command.go:145-159 | Returns `DeleteOne`: a dry run sends nothing and returns nil. Partners: `DeletionsStopAtFirstFailure`, `DryRunDeletesNothing` |
| ProjectDelete.FailingAt | cmd/internal/commands/project_delete_command.go:184-189 | The position of the first project whose deletion fails, every deletion before it succeeding |
| ProjectDelete.DeletionsStopAtFirstFailure | cmd/internal/commands/project_delete_command.go:184-189 | Projects are deleted in collected order; the first failing deletion ends the loop with its error wrapped twice, and no later project is touched |
| ProjectDelete.DryRunDeletesNothing | cmd/internal/commands/project_delete_command.go:151-158 | A dry run sends no request and reports no error |
| ProjectDelete.DeleteEach | cmd/internal/commands/project_delete_command.go:184-189 | The deletion loop gives the error and requests of `Deletions` |
| ProjectDelete.DeleteProjects | cmd/internal/commands/project_delete_command.go:166-192 | Collect, then delete: the outcome of `DeleteAll` |
| ProjectDelete.CollectsBeforeDeleting | cmd/internal/commands/project_delete_command.go:176-189 | A collection error means no deletion at all; otherwise the deletions are exactly those of the collected list, up to the first failure; a dry run deletes nothing |
| ProjectDelete.NoGroupDeletesNothing | cmd/internal/commands/project_delete_command.go:205-207 | Without a group, Run reports "group not set" and deletes nothing |
| ProjectDelete.ProjectDeleteCommand.constructor | cmd/internal/commands/project_delete_command.go:116-141 | A fresh set with the delete flags, -n/--dry-run on the package-level set |
| ProjectDelete.ProjectDeleteCommand.Run | cmd/internal/commands/project_delete_command.go:195-216 | The flag set is parsed and the outcome is the delete `RunOutcome` |
| ProjectList.ProjectListCommand.constructor | cmd/internal/commands/project_list_command.go:104-129 | A fresh set with --expr, --group and -r/--recursive, each with the current value |
| ProjectList.ProjectListCommand.Run | cmd/internal/commands/project_list_command.go:132-156 | The flag set is parsed and the outcome is the list `RunOutcome`, whose properties `ProjectsList.ExecuteListsMatching` states |
| ProjectsApprovalRulesCommand.NewProjectsApprovalRulesCommand | cmd/internal/commands/projects_approval_rules_command.go:99-136 | A fresh parent with exactly the children "list" and "update", bound to their own option fields and the client |
| ProjectsApprovalRulesList.ApprovalRuleToString | cmd/internal/commands/projects_approval_rules_list_command.go:139-158 | The builder loop returns `RuleString`: "ID: Name: [(id, username), ...]" |
| ProjectsApprovalRulesList.RuleStringFewApprovers | cmd/internal/commands/projects_approval_rules_list_command.go:139-158 | No approver prints "[]", one approver "[(id, username)]" |
| ProjectsApprovalRulesList.RuleStringAppends | cmd/internal/commands/projects_approval_rules_list_command.go:146-155 | One more approver appends ", " and its item before the "]": approvers in their original order, ", " between them |
| ProjectsApprovalRulesList.RuleLines | cmd/internal/commands/projects_approval_rules_list_command.go:185-187 | One indented line per rule, in order |
| ProjectsApprovalRulesList.BlockListsEveryRule | cmd/internal/commands/projects_approval_rules_list_command.go:181-189 | A project's block is its line followed by every rule the service lists, in order; a failing page of rules ends the block without an error |
| ProjectsApprovalRulesList.ExecuteListsRules | cmd/internal/commands/projects_approval_rules_list_command.go:161-191 | Without a group, "group not set" and nothing printed. With one, the blocks of exactly the matching projects of the listing, in order, and only the project listing's error |
| ProjectsApprovalRulesList.PrintProjectRules | cmd/internal/commands/projects_approval_rules_list_command.go:181-190 | The project callback prints the block `ProjectBlock` defines |
| ProjectsApprovalRulesList.PrintBlocks | cmd/internal/commands/projects_approval_rules_list_command.go:176-190 | The blocks of the visited projects, in order |
| ProjectsApprovalRulesList.ProjectsApprovalRulesListCommand.constructor | cmd/internal/commands/projects_approval_rules_list_command.go:112-137 | A fresh set with --expr, --group and -r/--recursive, each with the current value |
| ProjectsApprovalRulesList.ProjectsApprovalRulesListCommand.Run | cmd/internal/commands/projects_approval_rules_list_command.go:161-191 | The flag set is parsed and the outcome is `RunOutcome` |
| ProjectsApprovalRulesUpdate.RegisterOwn | cmd/internal/commands/projects_approval_rules_update_command.go:64-77 | --approvers, -n and --dry-run bound with the current values |
| ProjectsApprovalRulesUpdate.Initialize | cmd/internal/commands/projects_approval_rules_update_command.go:61-93 | All flags on the command's own set with current values; -n/--dry-run and -r/--recursive are aliases |
| ProjectsApprovalRulesUpdate.IDsOf | cmd/internal/commands/projects_approval_rules_update_command.go:213-216 | The approvers' IDs, one per approver, in file order |
| ProjectsApprovalRulesUpdate.ApproverIDs | cmd/internal/commands/projects_approval_rules_update_command.go:213-216 | The append loop yields `IDsOf` the approvers |
| ProjectsApprovalRulesUpdate.UpdateRule | cmd/internal/commands/projects_approval_rules_update_command.go:168-185 | updateApprovalRule gives `UpdateOne`; partners `DryRunSentNothing` and `SentReplacesUsers` |
| ProjectsApprovalRulesUpdate.MissingApproversFileIsNotReported | cmd/internal/commands/projects_approval_rules_update_command.go:207-210 | As written: with the names set and the approvers file absent, Run updates nothing and returns nil |
| ProjectsApprovalRulesUpdate.ExecuteReportsUnreadableApprovers | cmd/internal/commands/projects_approval_rules_update_command.go:188-238 | The corrected Run returns the read error, with no effect, exactly when the approvers file cannot be read, and otherwise agrees with the code as written |
| ProjectsApprovalRulesUpdate.DryRunSentNothing | cmd/internal/commands/projects_approval_rules_update_command.go:177-184 | A dry run sends no request |
| ProjectsApprovalRulesUpdate.SentReplacesUsers | cmd/internal/commands/projects_approval_rules_update_command.go:168-185 | Outside a dry run each visited rule is re-sent exactly once, in order, with everything as it was except its users, which become the approvers |
| ProjectsApprovalRulesUpdate.DryRunVisitsEveryRule | cmd/internal/commands/projects_approval_rules_update_command.go:226-236 | In a dry run every listed rule is visited; the rule walk fails only on a page error; the project prints its path only |
| ProjectsApprovalRulesUpdate.DryRunPrintsPaths | cmd/internal/commands/projects_approval_rules_update_command.go:219-237 | A dry run prints the path of each visited project, in order, and nothing else |
| ProjectsApprovalRulesUpdate.AllSucceedUpdatesEveryRule | cmd/internal/commands/projects_approval_rules_update_command.go:219-237 | When no update fails, every listed rule of the project is re-sent, in order, with the same approver IDs |
| ProjectsApprovalRulesUpdate.UpdateProject | cmd/internal/commands/projects_approval_rules_update_command.go:226-236 | The rule callback over one project's visited rules gives `ProjectEffects` |
| ProjectsApprovalRulesUpdate.UpdateProjects | cmd/internal/commands/projects_approval_rules_update_command.go:219-237 | The project callback over every visited project gives `Updates` |
| ProjectsApprovalRulesUpdate.ProjectsApprovalRulesUpdateCommand.constructor | cmd/internal/commands/projects_approval_rules_update_command.go:136-161 | A fresh set with the update flags, each with the current value |
| ProjectsApprovalRulesUpdate.ProjectsApprovalRulesUpdateCommand.Run | cmd/internal/commands/projects_approval_rules_update_command.go:188-238 | The flag set is parsed and the outcome is `RunOutcome`, which follows the code as written: an unreadable approvers file returns nil |
| ProjectsCommand.NewProjectsCommand | cmd/internal/commands/projects_command.go:98-137 | A fresh parent with exactly "create-random", "delete" and "list", bound to ProjectsCreateRandomOpts, the delete command and ProjectsListOpts |
| ProjectsCreateRandom.RegisteredKeepsValues | cmd/internal/commands/projects_create_random.go:54-76 | Registration keeps every value the options hold, so a value read from options.xml survives unless its flag is given; no other field changes |
| ProjectsCreateRandom.RegisterDryRun | cmd/internal/commands/projects_create_random.go:57-64 | -n and --dry-run write DryRun and default to its current value |
| ProjectsCreateRandom.Initialize | cmd/internal/commands/projects_create_random.go:54-76 | The set gains the four flags; the options become `Registered` |
| ProjectsCreateRandom.FullPathNamesRequest | cmd/internal/commands/projects_create_random.go:155-169 | The logged full path is the parent's FullPath, "/", then exactly the path sent to that group's namespace; different UUIDs log different paths |
| ProjectsCreateRandom.CreateRandomProject | cmd/internal/commands/projects_create_random.go:149-182 | Returns `CreateOne`: in a dry run nothing is sent and nil returned; otherwise one public "Test Project" request for BASE-UUID in the parent's namespace |
| ProjectsCreateRandom.CreationsStopAtFirstFailure | cmd/internal/commands/projects_create_random.go:205-210 | Outside a dry run the rounds send one request each, in order, up to and including the first failure, whose error ends the loop; with none, exactly the count |
| ProjectsCreateRandom.DryRunCreatesNothing | cmd/internal/commands/projects_create_random.go:173-181 | A dry run sends no request and reports no error |
| ProjectsCreateRandom.CreateRandomProjects | cmd/internal/commands/projects_create_random.go:188-213 | The outcome of `CreateAll`: find the group once, then the counted loop |
| ProjectsCreateRandom.CreationsStopAfterFailure | cmd/internal/commands/projects_create_random.go:205-210 | Once a round fails, later rounds change nothing |
| ProjectsCreateRandom.CreateAllRequests | cmd/internal/commands/projects_create_random.go:188-213 | A parent group that is not found stops everything with its error; otherwise at most the count of requests, all to that group with path BASE-UUID(i); exactly the count when none fails |
| ProjectsCreateRandom.ExecuteValidatesFirst | cmd/internal/commands/projects_create_random.go:216-241 | Nothing is sent unless the parent group, base name and count are all set, in that order of checks; then at most the count of requests |
| ProjectsCreateRandom.ProjectsCreateRandomCommand.constructor | cmd/internal/commands/projects_create_random.go:117-142 | A fresh set with the four flags, each with the current value |
| ProjectsCreateRandom.ProjectsCreateRandomCommand.Run | cmd/internal/commands/projects_create_random.go:216-241 | The flag set is parsed and the outcome is `RunOutcome` |
| ProjectsList.RegisteredKeepsValues | cmd/internal/commands/projects_list_command.go:48-65 | Registration keeps Expr, Group and Recursive as they were, and no other field changes |
| ProjectsList.Initialize | cmd/internal/commands/projects_list_command.go:48-65 | --expr, --group, -r and --recursive (the last two one field) on the command's set |
| ProjectsList.ExecuteListsMatching | cmd/internal/commands/projects_list_command.go:134-158 | Without a group, "group not set" before any request. With one, exactly the matching projects of the listing are printed, in order, and the listing's error is returned unchanged |
| ProjectsList.ProjectsListCommand.constructor | cmd/internal/commands/projects_list_command.go:106-131 | A fresh set with the list flags, each with the current value |
| ProjectsList.ProjectsListCommand.Run | cmd/internal/commands/projects_list_command.go:134-158 | The flag set is parsed and the outcome is `RunOutcome` |
| StringSlice.Parts | cmd/internal/string_slice/string_slice.go:26-31 | One part per comma-separated piece |
| StringSlice.StringSlice.String | cmd/internal/string_slice/string_slice.go:12-21 | The elements joined by single commas |
| StringSlice.StringSlice.Set | cmd/internal/string_slice/string_slice.go:26-31 | Only appends, one trimmed element per comma-separated part, and always returns nil |
| StringSlice.SplitCount | cmd/internal/string_slice/string_slice.go:27 | k separators give k+1 parts |
| StringSlice.PartsCount | cmd/internal/string_slice/string_slice.go:26-31 | Each Set call appends exactly (number of commas + 1) elements |
| StringSlice.SplitJoin | cmd/internal/string_slice/string_slice.go:12-31 | Joining comma-free strings by commas and splitting again gives them back |
| StringSlice.SetOfStringRoundTrip | cmd/internal/string_slice/string_slice.go:12-31 | Set(String(xs)) on an empty slice gives xs back, for non-empty xs without commas or surrounding white space |
| StringSlice.JoinEnds | cmd/internal/string_slice/string_slice.go:12-21 | No separator before the first or after the last element |
| Strings.SortStrings | cmd/internal/commands/command.go:122 | slices.Sort: an ascending permutation of the input |
| Strings.JoinSnoc | cmd/internal/commands/projects_approval_rules_list_command.go:147-153 | Joining one more element adds the separator and the element, except after nothing |
| Strings.Split | cmd/internal/string_slice/string_slice.go:27 | strings.Split always gives at least one part |
| Strings.PadLeft | cmd/internal/commands/users_list_command.go:128-129 | %Nv: right-aligned in a field of width N, the text at the end |
| Strings.PadRight | cmd/internal/commands/users_list_command.go:128-129 | %-Nv: left-aligned in a field of width N, the text at the start |
| UsersCommand.NewUsersCommand | cmd/internal/commands/users_command.go:94-129 | A fresh parent with exactly the child "list", bound to UsersListOpts and the client |
| UsersList.RegisteredKeepsValues | cmd/internal/commands/users_list_command.go:49-58 | Registration keeps the output file name and the users list, and touches no other field |
| UsersList.Initialize | cmd/internal/commands/users_list_command.go:49-58 | --out with its current value, --users as a StringSlice, so repeated occurrences accumulate |
| UsersList.UserLineColumns | cmd/internal/commands/users_list_command.go:127-131 | A printed user's ID, username, name and e-mail can be read back from fixed columns when they fit |
| UsersList.LookupsResolveInOrder | cmd/internal/commands/users_list_command.go:150-167 | Every named user is resolved in order; the first that does not resolve ends the loop with "unable to find user: \"NAME\"\n", after the users found before it |
| UsersList.LookupsWarnOnce | cmd/internal/commands/users_list_command.go:149-159 | The e-mail warning is printed at most once |
| UsersList.LookupsWarnOnEmail | cmd/internal/commands/users_list_command.go:149-159 | The warning is printed iff a name looked up so far, the failing one included, contains '@' |
| UsersList.LookupsStopAfterError | cmd/internal/commands/users_list_command.go:160-163 | Once a lookup fails, later rounds change nothing |
| UsersList.LookupUser | cmd/internal/commands/users_list_command.go:151-165 | One round of the lookup loop gives `LookupOne` |
| UsersList.FindUsers | cmd/internal/commands/users_list_command.go:150-167 | The lookup loop gives the users, effects and error of `Lookups` |
| UsersList.AllUsersIsListing | cmd/internal/commands/users_list_command.go:170-176 | With no --users, every user the service lists is collected, in order, until the first page error |
| UsersList.ExecuteWritesFound | cmd/internal/commands/users_list_command.go:134-187 | Nothing is written when a user cannot be found or no output file is set; otherwise exactly the users found go to the file, and a file written successfully holds them after the users it kept |
| UsersList.UsersListCommand.constructor | cmd/internal/commands/users_list_command.go:100-125 | A fresh set with --out and --users |
| UsersList.UsersListCommand.Run | cmd/internal/commands/users_list_command.go:134-187 | The flag set is parsed and the outcome and disk are `RunOutcome` |
| XmlUsers.FromGitlabUser | cmd/internal/xml_users/xml_users.go:32-39 | ID, username, e-mail and name are copied |
| XmlUsers.Converted | cmd/internal/xml_users/xml_users.go:44-50 | One converted user per input user, in the same order |
| XmlUsers.FromGitlabUsers | cmd/internal/xml_users/xml_users.go:44-50 | The append loop gives `Converted` |
| XmlUsers.CountMapIsOccurrences | cmd/internal/xml_users/xml_users.go:81-87 | Each username maps to its number of occurrences, and no other key is present |
| XmlUsers.CountsAddUp | cmd/internal/xml_users/xml_users.go:81-87 | The counts add up to the number of users |
| XmlUsers.CountMapSize | cmd/internal/xml_users/xml_users.go:153-154 | At most one key per user, and exactly one per user iff no username repeats: the duplicate test of WriteUsers |
| XmlUsers.CountUsers | cmd/internal/xml_users/xml_users.go:81-87 | The increment loop gives `CountMap` |
| XmlUsers.DuplicateNamesAreRepeats | cmd/internal/xml_users/xml_users.go:155-160 | Whatever the map order, the names reported are exactly the repeated usernames, each once |
| XmlUsers.Duplicates | cmd/internal/xml_users/xml_users.go:155-160 | The range over the count map keeps the names counted more than once, in the runtime's order |
| XmlUsers.ReadUsers | cmd/internal/xml_users/xml_users.go:53-77 | "" and "-" are refused before anything is opened; success iff the file exists and decodes, and then its users |
| XmlUsers.UnnamedMembers | cmd/internal/xml_users/xml_users.go:113-126 | A file user stays iff no new user has its username; the test is by username, not ID |
| XmlUsers.UnnamedIdempotent | cmd/internal/xml_users/xml_users.go:113-126 | The users kept from the file, kept again, stay the same |
| XmlUsers.MergedIdempotent | cmd/internal/xml_users/xml_users.go:92-132 | Merging the same new users into the merged list changes nothing more |
| XmlUsers.MergedDistinct | cmd/internal/xml_users/xml_users.go:92-132 | A merge of two lists without repeated usernames has none |
| XmlUsers.UnnamedDistinct | cmd/internal/xml_users/xml_users.go:113-126 | Keeping part of a list without repeated usernames keeps it without repeats |
| XmlUsers.Written | cmd/internal/xml_users/xml_users.go:137-214 | "" and then a repeated username are refused before any file is read; "-" writes to standard output; any other name gets the merge of the old file and the new users; a failed write leaves the disk as it was |
| XmlUsers.WrittenReportsDuplicates | cmd/internal/xml_users/xml_users.go:153-162 | A repeated username is reported with a non-empty list of exactly the repeated names, whatever the map order |
| XmlUsers.FileSystem.AppendUsersFromFile | cmd/internal/xml_users/xml_users.go:92-132 | Never fails: the file's users without a new username, in file order, then the new users; an unreadable file gives the new users unchanged |
| XmlUsers.FileSystem.WriteUsers | cmd/internal/xml_users/xml_users.go:137-214 | The error and the files afterwards are those `Written` gives |
| XmlUsers.WrittenReadsBack | cmd/internal/xml_users/xml_users.go:166-201 | What WriteUsers leaves in a file reads back as the merge it computed |

## Left out

- The GitLab REST client and HTTP. Each service call is a fixed answer per page or per request (`Pages<T>`, `ProjectsService`, `UsersService`), so retries, rate limits and a server that changes between requests are not modelled.
- Paging.ForEach: every page iterator requires `Forward`: each NextPage is 0 or a later page. When a server answers a NextPage that is neither, the Go loops in gitlab_util.go (lines 39-62, 110-139, and the rule and user iterators) request pages forever. The model leaves that input out instead of modelling a loop that does not end. GitlabUtil.FindExactGroup, GitlabUtil.ForEachProjectInGroup, GitlabUtil.ForEachApprovalRuleInProject and GitlabUtil.ForEachUser carry the same requirement.
- GitlabUtil.FindExactUser and GitlabUtil.ForEachUser have no `date` parameter, so `opts.CreatedAfter` (gitlab_util.go:379-388) is not modelled. The only callers (users_list_command.go:160, :171) pass no date, so as written the package does not build. The model follows the callers.
- GitlabUtil.EmptyExpressionVisitsAll: the regex engine is a parameter (`Compiler`: an expression compiles to a matcher or fails), not Go's RE2. The lemma assumes that "" compiles to a matcher that accepts every path, which RE2 does.
- GitlabUtil.ApprovalRuleUsernames: the CRC-64 (ISO polynomial) checksum and the `%#016x`/`%q` formatting of gitlab_util's ApprovalRuleToString are not modelled; only the sorted usernames are.
- Strings.Quote: Go's `%q` is rendered as the text between double quotes, without escaping.
- Flags.ParseUint does not accept the underscore digit separators that strconv.ParseUint allows with a base prefix.
- Exits on a flag error are modelled as returned errors. Every flag set is built with `flag.ExitOnError`. A command's own set has the command's Usage as its usage function (for example projects_list_command.go:125), which prints the help to standard error and exits 1 on a bad flag or -h (projects_list_command.go:99-102). The peek's two local sets (global_command.go:172, :220) keep the flag package's default: exit 2, or 0 after -h. In all these cases the model returns the parse error. The leaf and parent Usage methods and their help text are not modelled.
- Global.OnlyHelpExits: the exits it covers are --help (code 0) and a failing options.xml in the main run (code 1, which it proves cannot happen after a successful peek). The status-2 exit of a malformed global flag in the peek's own `ExitOnError` flag sets (global_command.go:172, :220) and the status-1 exit of a command's flag error through its Usage are returned errors here.
- Global.GlobalCommand.Usage returns the exit code and the effects instead of calling os.Exit. The help text itself is one `Usage(names)` effect.
- The printed progress lines are not modelled: create-random's "Creating project … Done.", delete's and the update's progress output, and the "Searching for ID for parent group" line. The lines that list something are modelled: project and rule listings, user lines, the update's project paths, and --version.
- ProjectsCreateRandom.FullPathNamesRequest: the logged full path (projects_create_random.go:157-159, project_create_random.go:128, :141) is a function with a lemma relating it to the request sent, not an output effect, because its surrounding progress line is left out.
- UUID generation is the `uuid` parameter of `Env`: the i-th round uses `uuid(i)`. Uniqueness of UUIDs cannot be proved and is not assumed.
- XML and JSON encoding and decoding, os.Open, temporary files and os.Rename are left out. A file is a `Stored` value in `Disk`, already decoded into users, an options document or a credentials `Document`. A write that fails is an entry in the `failures` map, and its error is the whole outcome.
- Global.GlobalCommand.Run shows the options as one `ShowOptions(fields)` effect, not as encoded XML. An encoder error is not modelled.
- `NewProjectsDeleteCommand` (projects_command.go:101-102) is not part of this model; "projects delete" is an `ExternalRunner` whose outcome is `env.external`.
- Go's map iteration order is unspecified. It is a parameter (`Enumeration`) wherever the code ranges over a map: SortedCommandNames, WriteUsers' duplicate scan, and generateSubcmds.
- ProjectsCommand, UsersCommand and ProjectsApprovalRulesCommand are modelled as built parents, but no generator of GlobalCommand creates them (global_command.go:327-332 adds only "project"), so no run of the program reaches them.
- String order is by character. For UTF-8 text, Go's byte-wise order gives the same result.
- UsersList: the error of printUser is dropped by the Go code (users_list_command.go:165, :174); printing never fails here.
- The `optons-file-name` xml tag of CommonOptions (common_options.go:25) is not modelled. CommonOptions is modelled only through its defaulting and registration.
- Command.RunRunner states the runner's outcome, not the state of the runner's own flag set after parsing. The leaf `Run` methods state it.
- A users file that changes between two reads of one run (between AppendUsersFromFile's read and the write) is not modelled: the disk is one value per run.
- cmd/internal/date_arg, the three main.go programs and the legacy cmd/create_random_projects are not part of this model.

## Findings

| source | as written | input that shows it | evidently intended | confidence | as-written member | corrected member |
|---|---|---|---|---|---|---|
| cmd/internal/commands/projects_approval_rules_update_command.go:207-210 | When ReadUsers fails, Run returns nil and updates nothing, so the command exits 0 without a message | `--approvers missing.xml --group g`, where missing.xml does not exist | Return the read error | not executed | ProjectsApprovalRulesUpdate.MissingApproversFileIsNotReported | ProjectsApprovalRulesUpdate.ExecuteReportsUnreadableApprovers |
